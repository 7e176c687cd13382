/** The `activate` command (main.py:167-195): the up-front validation, then
    authentication, listing, resolution and the activation request, in that order.
    The collaborators' answers (the credential, the listed assignments) are parameters;
    the run records the calls made to them. */
module Workflow {
  import opened Wrappers
  import opened Text
  import opened Models
  import opened Repository
  import opened Resolver

  /** The two `ValueError`s raised before anything else happens. */
  datatype ValidationError = MissingTenantId | MissingSubscriptionFilter

  /** What the interactive sign-in yields: the access token and the signed-in subject's id. */
  datatype Credential = Credential(token: string, subjectId: string)

  /** A call the command makes outside itself. */
  datatype Call = Authenticate(tenantId: string) | Send(request: PIMRequest)

  /** Why a run ends with exit status 1. */
  datatype Failure = Invalid(reason: ValidationError) | NotResolved(error: ResolveError)

  /** The calls a run made, in order, and how it ended: the activated assignment or a failure. */
  datatype Run = Run(calls: seq<Call>, outcome: Result<RoleAssignment, Failure>)

  /** The checks at the top of `activate`: a tenant id first, then at least one subscription filter. */
  function Validate(tenantId: Option<string>, name: Option<string>, number: Option<string>): (r: Option<ValidationError>)
    ensures r == None <==> Given(tenantId) && (Given(name) || Given(number))
    ensures r == Some(MissingTenantId) <==> !Given(tenantId)
    ensures r == Some(MissingSubscriptionFilter) <==> Given(tenantId) && !Given(name) && !Given(number)
  {
    if !Given(tenantId) then Some(MissingTenantId)
    else if !Given(name) && !Given(number) then Some(MissingSubscriptionFilter)
    else None
  }

  /** The number of activation requests among `calls`. */
  function ActivationCount(calls: seq<Call>): nat {
    if calls == [] then 0
    else (if calls[0].Send? && calls[0].request.path == ActivationPath then 1 else 0) + ActivationCount(calls[1..])
  }

  /** One run of `activate`, given what the sign-in returns and which assignments the listing call returns. */
  function Activate(
    tenantId: Option<string>, name: Option<string>, number: Option<string>, roleType: Option<string>,
    credential: Credential, eligible: seq<RoleAssignment>, defaults: Defaults): (run: Run)
    ensures Validate(tenantId, name, number).Some? ==>
              run == Run([], Err(Invalid(Validate(tenantId, name, number).value)))
    ensures Validate(tenantId, name, number).None? ==>
              && |run.calls| >= 2
              && run.calls[0] == Authenticate(tenantId.value)
              && run.calls[1] == Send(ListRequest(credential.subjectId, AzureResources, credential.token))
    ensures run.outcome.Ok? <==>
              Validate(tenantId, name, number).None? && Resolution(eligible, name, number, roleType).Ok?
    ensures run.outcome.Ok? ==>
              && run.outcome.value == Resolution(eligible, name, number, roleType).value
              && |run.calls| == 3
              && run.calls[2] == Send(ActivationRequest(
                   credential.subjectId, run.outcome.value.resourceId, run.outcome.value.roleDefinitionId,
                   run.outcome.value.id, AzureResources, credential.token, defaults))
    ensures run.outcome.Err? && Validate(tenantId, name, number).None? ==>
              |run.calls| == 2 && run.outcome == Err(NotResolved(Resolution(eligible, name, number, roleType).error))
  {
    match Validate(tenantId, name, number)
    case Some(e) => Run([], Err(Invalid(e)))
    case None =>
      var listing := ListRequest(credential.subjectId, AzureResources, credential.token);
      var prefix := [Authenticate(tenantId.value), Send(listing)];
      match Resolution(eligible, name, number, roleType)
      case Err(e) => Run(prefix, Err(NotResolved(e)))
      case Ok(a) =>
        var activation := ActivationRequest(
          credential.subjectId, a.resourceId, a.roleDefinitionId, a.id, AzureResources, credential.token, defaults);
        Run(prefix + [Send(activation)], Ok(a))
  }

  /** A run sends at most one activation request, and sends one exactly when it succeeds. */
  lemma AtMostOneActivation(
    tenantId: Option<string>, name: Option<string>, number: Option<string>, roleType: Option<string>,
    credential: Credential, eligible: seq<RoleAssignment>, defaults: Defaults)
    ensures ActivationCount(Activate(tenantId, name, number, roleType, credential, eligible, defaults).calls)
         == if Activate(tenantId, name, number, roleType, credential, eligible, defaults).outcome.Ok? then 1 else 0
  {
    var run := Activate(tenantId, name, number, roleType, credential, eligible, defaults);
    if run.calls != [] {
      assert ListPath != ActivationPath;
      var rest := if run.outcome.Ok? then [run.calls[2]] else [];
      assert run.calls == run.calls[..2] + rest;
      assert run.calls[1..] == [run.calls[1]] + rest;
      assert ActivationCount(run.calls[1..]) == ActivationCount(rest);
      if run.outcome.Ok? {
        assert ActivationCount(rest) == 1 + ActivationCount([]);
      }
    }
  }

  /** A call rejected for want of a subscription filter is one the resolver would have
      failed anyway, whatever the listing returned; the check only saves the sign-in. */
  lemma ValidationRejectsOnlyHopelessCalls(
    tenantId: Option<string>, name: Option<string>, number: Option<string>, roleType: Option<string>,
    eligible: seq<RoleAssignment>)
    requires Validate(tenantId, name, number) == Some(MissingSubscriptionFilter)
    ensures Resolution(eligible, name, number, roleType).Err?
  {
    NoSubscriptionFilterNoMatch(eligible, name, number, roleType);
  }

  /** A successful run activates an assignment that was listed, that passes every filter,
      and that no other listed assignment passes; the request names its ids. */
  lemma ActivationTargetsResolved(
    tenantId: Option<string>, name: Option<string>, number: Option<string>, roleType: Option<string>,
    credential: Credential, eligible: seq<RoleAssignment>, defaults: Defaults, a: RoleAssignment)
    requires Activate(tenantId, name, number, roleType, credential, eligible, defaults).outcome == Ok(a)
    ensures a in eligible && Qualifies(a, name, number, roleType)
    ensures forall y :: y in eligible && Qualifies(y, name, number, roleType) ==> y == a
    ensures var p := Activate(tenantId, name, number, roleType, credential, eligible, defaults).calls[2].request.payload.value;
            p.linkedEligibleRoleAssignmentId == a.id && p.resourceId == a.resourceId
            && p.roleDefinitionId == a.roleDefinitionId && p.subjectId == credential.subjectId
  {
    ResolvedIsUnique(eligible, name, number, roleType, a);
  }
}
