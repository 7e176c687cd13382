# Azure PIM role helper: resolution and request building

This project models the decision logic of a small command-line helper for Azure
Privileged Identity Management (PIM). The helper lists the signed-in user's
eligible role assignments. It picks the one assignment that the caller's
filters describe, and asks the PIM API to activate it. The model covers:

- the records of `models.py` and the values their fields default to (module `Models`);
- the construction of the URL, headers and arguments of an API call in `pim_request` (module `Client`);
- the two API requests: the listing query with its OData parameters and the activation payload (module `Repository`);
- the resolver `get_role_assignment_by_subscription` (module `Resolver`);
- the `activate` command's validation and the order of its calls (module `Workflow`).

Supporting modules:

- `Text` models `str.lower()`, the substring test `in`, the slice `s[0:4]` and the truthiness of an optional string.
- `Sequences` models Python's order-preserving `filter`.
- `Scenarios` works through concrete examples.

The resolver is a method with a loop, proved equal to the function `Resolution`.
Lemmas then prove what that function promises.
The sign-in and the listing call's answer are parameters of `Workflow.Activate`.
Every call to them is recorded in the run's list of calls.
The configuration values (`DEFAULT_REASON`, `DEFAULT_DURATION_MINUTES`, base URL,
base path) are parameters too: `Models.Defaults` and `Client.Endpoint`.
Wire fields named `type` are called `kind`, and `PIMRequest.method` is called
`httpMethod`, because `type` and `method` are Dafny keywords.

Behaviour of the code a user might not expect (the `-n` help text suggests `S398`, for example). The model follows the code in each case:

- The subscription filters are not lower-cased; only the resource name is (main.py:133-136).
  Matching is therefore not case-insensitive. A filter with an upper-case letter never matches anything (`Resolver.UpperCaseFilterNeverMatches`).
  This includes the form the `-n` option's help suggests, `S398` (main.py:162; `Scenarios.CapitalNumberMatchesNothing`).
- The role type is lower-cased, so its case does not matter (`Resolver.RoleTypeIgnoresCase`).
- When both subscription filters are given, either one selecting an assignment is enough.
  An assignment selected by both is still taken once (`Resolver.BaseMatchesSelectInOrder`).
- The activation request never sets its method, so it keeps the `PIMRequest` default `"GET"` rather than POST (main.py:109-114, models.py:15; `Repository.ActivationRequest`).
- main.py refers to `ResourceType.AZURE_RESOURCES` and `RoleType`. `models.py` defines neither: there `ResourceType` is the literal type `"azureResources"`.
  The model takes that one value as the resource type of every request.

## Model

| member | source | states |
|---|---|---|
| `Text.Lower` | main.py:133 | lower-casing keeps the length and maps each upper-case ASCII letter to its lower-case form and every other character to itself |
| `Text.Given` | main.py:134-138 | an optional string counts as given unless it is `None` or the empty string, as Python's truthiness tests at main.py:134, 136, 138 and 169-171 treat it |
| `Text.IsSubstring` | main.py:134 | `p in s` (also main.py:139) implies `p` is no longer than `s`, and holds whenever `p` is a prefix of `s` |
| `Text.SubstringAt` | main.py:134 | `p in s` holds exactly when `p` starts at some position of `s` |
| `Text.Take` | main.py:136 | `s[0:n]` has length `min(n, len(s))` and is a prefix of `s` |
| `Text.UpperNeverInLower` | main.py:133-134 | a string with an upper-case letter is never a substring of a lower-cased string |
| `Models.DefaultSchedule` | models.py:60-64 | the default schedule is of kind `"Once"`, has no start or end time, and lasts `"PT" + DEFAULT_DURATION_MINUTES + "M"` |
| `Models.NewRoleAssignmentRequest` | models.py:67-78 | a request built from the four required ids carries them unchanged, is `"Active"` of kind `"UserAdd"`, gives the default reason, empty ticket number, ticket system and scoped resource id, and the default schedule |
| `Models.NewPIMRequest` | models.py:11-19 | a request keeps the path, token, params and payload it is given; its resource type is `"azureResources"`, its method `"GET"`, its headers empty and its data absent |
| `Client.Prepare` | main.py:44-55 | the URL is base URL, base path, resource type and path joined by `/`; the headers gain `Authorization: Bearer <token>`, overriding any caller value, and keep every other entry; method, data, params and payload pass through |
| `Client.UrlDeterminesPath` | main.py:44 | on one endpoint, two requests reach the same URL exactly when their paths are equal |
| `Client.CallerAuthorizationIgnored` | main.py:45-46 | an `Authorization` header supplied by the caller makes no difference to the prepared request |
| `Repository.ListParams` | main.py:75-79 | the listing query has exactly the keys `$expand`, `$filter` and `$count`; `$filter` embeds the subject id verbatim and `$count` is `"true"` |
| `Repository.FilterNamesSubject` | main.py:77 | two subject ids give the same `$filter` exactly when they are equal |
| `Repository.ListRequest` | main.py:74-85 | the listing request goes to `roleAssignments` with those params, no payload, method `"GET"` and the caller's token |
| `Repository.ActivationRequest` | main.py:102-114 | the activation request goes to `roleAssignmentRequests` with no params; its payload maps the subscription id to `resourceId` and the assignment id to `linkedEligibleRoleAssignmentId`, and its method stays `"GET"` |
| `Sequences.Filter` | main.py:139 | `filter` never lengthens a list and keeps exactly the elements that pass the test |
| `Sequences.FilterMultiplicity` | main.py:139 | each occurrence of a kept element appears once in the result; a dropped element appears not at all |
| `Resolver.NameMatch` | main.py:134 | a name match needs a given name no longer than the lower-cased resource name |
| `Resolver.NumberMatch` | main.py:136 | a number match needs a given number of at most four characters that is a prefix of the lower-cased resource name |
| `Resolver.RoleMatch` | main.py:139 | a role match needs a role type no longer than the lower-cased role name; the empty role type matches every role |
| `Resolver.Resolution` | main.py:130-147 | a resolved assignment is a listed one that passes every given filter; a failure carries a number of candidates other than one, no more than were listed, each a listed assignment that passes every filter |
| `Resolver.ResolveAssignment` | main.py:130-147 | the loop, the role-type filter and the count test compute `Resolution`: the single survivor, or a failure carrying all survivors |
| `Resolver.BaseMatchesStep` | main.py:132-137 | one pass of the loop appends the next assignment exactly when the name or the number selects it |
| `Resolver.BaseMatchesSelectInOrder` | main.py:131-137 | the base matches are a subsequence of the input in original order; each input occurrence appears once if it matches and not at all otherwise, even when both filters select it |
| `Resolver.UpperCaseFilterNeverMatches` | main.py:133-137 | a subscription name or number with an upper-case letter never selects an assignment |
| `Resolver.LongNumberNeverMatches` | main.py:136-137 | a subscription number longer than four characters never selects an assignment |
| `Resolver.ShortResourceNameComparedWhole` | main.py:136 | on a resource name shorter than four characters the number is compared with the whole lower-cased name |
| `Resolver.NoSubscriptionFilterNoMatch` | main.py:134-144 | with neither subscription filter given there are no base matches, and the resolver fails with no candidates |
| `Resolver.RoleTypeNarrows` | main.py:138-139 | without a role type the survivors are the base matches; with one they are the base matches whose role name contains it, in order and each as often as among the base matches; there are never more than without |
| `Resolver.RoleTypeIgnoresCase` | main.py:139 | narrowing by a role type and by its lower-cased form give the same list |
| `Resolver.SurvivorsQualify` | main.py:131-139 | the survivors are exactly the assignments that pass every given filter, in input order |
| `Resolver.ResolvedIsUnique` | main.py:140-147 | a resolved assignment passes every filter, occurs once in the input, and is the only input that passes |
| `Resolver.UniqueIsResolved` | main.py:140-147 | when exactly one input occurrence passes every filter, the resolver returns it |
| `Resolver.UnresolvedCarriesCandidates` | main.py:140-144 | a failure's candidates are the input filtered by every given filter: not exactly one of them, each qualifying input occurrence once and nothing else, in input order |
| `Workflow.Validate` | main.py:169-172 | a run is rejected when the tenant id is missing or empty; otherwise it is rejected when both subscription filters are missing or empty; otherwise it passes |
| `Workflow.Activate` | main.py:167-188 | a rejected run makes no call at all, not even the sign-in; a valid run signs in and then lists; it sends the activation request, with the resolved assignment's ids, only when the resolver succeeds |
| `Workflow.AtMostOneActivation` | main.py:173-188 | a run sends one activation request if it succeeds and none otherwise |
| `Workflow.ValidationRejectsOnlyHopelessCalls` | main.py:171-172 | a call rejected for want of a subscription filter would have failed in the resolver whatever the listing returned |
| `Workflow.ActivationTargetsResolved` | main.py:176-188 | a successful run activates a listed assignment that passes every filter and that no other listed assignment passes; the payload names its ids and the signed-in subject |
| `Scenarios.UniqueByNumber` | main.py:131-147 | given `S123-Prod` and `S456-Dev`, the number `s123` resolves to the first |
| `Scenarios.CapitalNumberMatchesNothing` | main.py:136 | the number `S123` matches neither `S123-Prod` nor `S456-Dev` |
| `Scenarios.AmbiguousWithoutRoleType` | main.py:140-144 | two roles on `S123-Prod` leave two candidates for the number `s123` |
| `Scenarios.DisambiguatedByRoleType` | main.py:138-147 | adding the role type `Owner` resolves that case to the Owner assignment |

## Left out

- Interactive sign-in (`get_pim_access_token`, main.py:20-35) is a foreign library call. Its token and subject id are the parameter `Workflow.Credential`, and its failure exit is not modelled.
- Sending the request and handling the response in `pim_request` (main.py:42, main.py:56-66) is network I/O and is not modelled. This covers the HTTP error status, the JSON-or-text error body and the exit on error.
- Decoding responses with pydantic (main.py:87, main.py:116) is library validation. The listed assignments are a parameter of `Workflow.Activate`. `RoleAssignmentsResponse`, `RoleAssignmentRequestStatus` and `RoleAssignmentRequestResponse` (models.py:56-57, models.py:81-107) are not part of this model, since nothing in the modelled logic reads them.
- Not modelled: click's option parsing, the `TENANT_ID` environment read (main.py:17; the tenant id is a parameter), all printed output and the exit status. An exit with status 1 is an `Err` result.
- The `StopIteration` handler (main.py:148-151) is not modelled: nothing in its `try` body raises that exception. The `KeyboardInterrupt` handler (main.py:191-192) is not modelled either.
- The configuration module is not part of this model. Its values are parameters: `DEFAULT_DURATION_MINUTES` is taken as the text the f-string renders.
- Text.Lower: lower-cases ASCII letters only; Python's `str.lower()` also maps non-ASCII letters.
- Client.Prepare: returns the extended header map. The source instead updates the request's own `headers` dict in place. That aliasing is not modelled; no caller reuses a request after sending it.
- Models.NewPIMRequest: takes only the keyword arguments the callers pass. `method`, `headers` and `data` always keep their defaults, and a `headers` value of `None` is not modelled.
- Models.NewRoleAssignmentRequest: the schedule is kept as the `RoleAssignmentSchedule` record. The source stores the dict form of that record.
- Repository.ActivationRequest: the payload is kept as the `RoleAssignmentRequest` record. pydantic would coerce it into the dict of its fields.
