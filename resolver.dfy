/** `get_role_assignment_by_subscription` (main.py:121-151): narrowing the
    eligible role assignments to the single one the caller's filters describe. */
module Resolver {
  import opened Wrappers
  import opened Text
  import opened Models
  import opened Sequences

  /** The outcome that makes the source print the candidates and exit with status 1. */
  datatype ResolveError = Unresolved(candidates: seq<RoleAssignment>)

  /** The lower-cased display name of the resource the assignment's role applies to. */
  function ResourceName(a: RoleAssignment): string {
    Lower(a.roleDefinition.resource.displayName)
  }

  /** The lower-cased display name of the assignment's role. */
  function RoleName(a: RoleAssignment): string {
    Lower(a.roleDefinition.displayName)
  }

  /** The subscription name, taken as given (not lower-cased), occurs in the resource name. */
  predicate NameMatch(a: RoleAssignment, name: Option<string>)
    ensures NameMatch(a, name) ==> Given(name) && |name.value| <= |ResourceName(a)|
  {
    Given(name) && IsSubstring(name.value, ResourceName(a))
  }

  /** The subscription number, taken as given, equals the first four characters of the resource name. */
  predicate NumberMatch(a: RoleAssignment, number: Option<string>)
    ensures NumberMatch(a, number) ==> Given(number) && |number.value| <= 4 && IsPrefix(number.value, ResourceName(a))
  {
    Given(number) && number.value == Take(ResourceName(a), 4)
  }

  /** The test of the `if`/`elif` in the loop: either subscription filter selects the assignment. */
  predicate BaseMatch(a: RoleAssignment, name: Option<string>, number: Option<string>) {
    NameMatch(a, name) || NumberMatch(a, number)
  }

  /** The lower-cased role type occurs in the role name. */
  predicate RoleMatch(a: RoleAssignment, roleType: string)
    ensures RoleMatch(a, roleType) ==> |roleType| <= |RoleName(a)|
    ensures roleType == "" ==> RoleMatch(a, roleType)
  {
    IsSubstring(Lower(roleType), RoleName(a))
  }

  /** An assignment passes every filter the caller gave. */
  predicate Qualifies(a: RoleAssignment, name: Option<string>, number: Option<string>, roleType: Option<string>) {
    BaseMatch(a, name, number) && (Given(roleType) ==> RoleMatch(a, roleType.value))
  }

  function BaseMatchOf(name: Option<string>, number: Option<string>): RoleAssignment -> bool {
    a => BaseMatch(a, name, number)
  }

  function RoleMatchOf(roleType: string): RoleAssignment -> bool {
    a => RoleMatch(a, roleType)
  }

  function QualifiesOf(name: Option<string>, number: Option<string>, roleType: Option<string>): RoleAssignment -> bool {
    a => Qualifies(a, name, number, roleType)
  }

  /** The list `matches` holds after the loop. */
  function BaseMatches(assignments: seq<RoleAssignment>, name: Option<string>, number: Option<string>): seq<RoleAssignment> {
    Filter(assignments, BaseMatchOf(name, number))
  }

  /** The role-type narrowing, applied only when a role type is given. */
  function NarrowByRole(matches: seq<RoleAssignment>, roleType: Option<string>): seq<RoleAssignment> {
    if Given(roleType) then Filter(matches, RoleMatchOf(roleType.value)) else matches
  }

  /** The list `matches` holds when its length is compared with one. */
  function Survivors(
    assignments: seq<RoleAssignment>, name: Option<string>, number: Option<string>, roleType: Option<string>
  ): seq<RoleAssignment> {
    NarrowByRole(BaseMatches(assignments, name, number), roleType)
  }

  /** What the resolver answers: the single survivor, or the failure carrying all of them. */
  function Resolution(
    assignments: seq<RoleAssignment>, name: Option<string>, number: Option<string>, roleType: Option<string>
  ): (r: Result<RoleAssignment, ResolveError>)
    ensures r.Ok? ==> r.value in assignments && Qualifies(r.value, name, number, roleType)
    ensures r.Err? ==> |r.error.candidates| != 1 && |r.error.candidates| <= |assignments|
    ensures r.Err? ==> forall y :: y in r.error.candidates ==> y in assignments && Qualifies(y, name, number, roleType)
  {
    var matches := Survivors(assignments, name, number, roleType);
    if |matches| == 1 then Ok(matches[0]) else Err(Unresolved(matches))
  }

  /** The resolver as the source runs it: one pass that appends base matches, then the
      role-type filter, then the count test. */
  method ResolveAssignment(
    assignments: seq<RoleAssignment>, name: Option<string>, number: Option<string>, roleType: Option<string>
  ) returns (r: Result<RoleAssignment, ResolveError>)
    ensures r == Resolution(assignments, name, number, roleType)
  {
    var matches: seq<RoleAssignment> := [];
    var i := 0;
    while i < |assignments|
      invariant 0 <= i <= |assignments|
      invariant matches == BaseMatches(assignments[..i], name, number)
    {
      var assignment := assignments[i];
      BaseMatchesStep(assignments, i, name, number);
      var resourceName := Lower(assignment.roleDefinition.resource.displayName);
      if Given(name) && IsSubstring(name.value, resourceName) {
        matches := matches + [assignment];
      } else if Given(number) && number.value == Take(resourceName, 4) {
        matches := matches + [assignment];
      }
      i := i + 1;
    }
    assert assignments[..|assignments|] == assignments;
    if Given(roleType) {
      matches := Filter(matches, RoleMatchOf(roleType.value));
    }
    assert matches == Survivors(assignments, name, number, roleType);
    if |matches| != 1 {
      return Err(Unresolved(matches));
    }
    return Ok(matches[0]);
  }

  /** One more step of the loop appends the next assignment exactly when it is a base match. */
  lemma BaseMatchesStep(assignments: seq<RoleAssignment>, i: nat, name: Option<string>, number: Option<string>)
    requires i < |assignments|
    ensures BaseMatches(assignments[..i + 1], name, number)
         == BaseMatches(assignments[..i], name, number)
            + (if BaseMatch(assignments[i], name, number) then [assignments[i]] else [])
  {
    assert assignments[..i + 1] == assignments[..i] + [assignments[i]];
    FilterSnoc(assignments[..i], assignments[i], BaseMatchOf(name, number));
  }

  /** The loop keeps the matching assignments in their original order, and appends each
      input occurrence at most once even when both subscription filters select it. */
  lemma BaseMatchesSelectInOrder(assignments: seq<RoleAssignment>, name: Option<string>, number: Option<string>)
    ensures IsSubsequence(BaseMatches(assignments, name, number), assignments)
    ensures forall x :: multiset(BaseMatches(assignments, name, number))[x]
                     == if BaseMatch(x, name, number) then multiset(assignments)[x] else 0
  {
    FilterIsSubsequence(assignments, BaseMatchOf(name, number));
    forall x
      ensures multiset(BaseMatches(assignments, name, number))[x]
           == if BaseMatch(x, name, number) then multiset(assignments)[x] else 0
    {
      FilterMultiplicity(assignments, BaseMatchOf(name, number), x);
    }
  }

  /** A filter holding an upper-case letter never selects anything: only the
      resource name is lower-cased, the filter is compared as given. */
  lemma UpperCaseFilterNeverMatches(a: RoleAssignment, filter: string)
    requires HasUpper(filter)
    ensures !NameMatch(a, Some(filter))
    ensures !NumberMatch(a, Some(filter))
  {
    UpperNeverInLower(filter, a.roleDefinition.resource.displayName);
    UpperNeverTakenFromLower(filter, a.roleDefinition.resource.displayName, 4);
  }

  /** A subscription number longer than four characters never matches. */
  lemma LongNumberNeverMatches(a: RoleAssignment, number: string)
    requires |number| > 4
    ensures !NumberMatch(a, Some(number))
  {
  }

  /** On a resource name shorter than four characters, the number is compared with the whole name. */
  lemma ShortResourceNameComparedWhole(a: RoleAssignment, number: string)
    requires |a.roleDefinition.resource.displayName| < 4 && number != ""
    ensures NumberMatch(a, Some(number)) <==> number == ResourceName(a)
  {
  }

  /** With neither subscription filter given nothing matches, and the resolver fails. */
  lemma NoSubscriptionFilterNoMatch(
    assignments: seq<RoleAssignment>, name: Option<string>, number: Option<string>, roleType: Option<string>)
    requires !Given(name) && !Given(number)
    ensures BaseMatches(assignments, name, number) == []
    ensures Resolution(assignments, name, number, roleType) == Err(Unresolved([]))
  {
    FilterNoneKept(assignments, BaseMatchOf(name, number));
  }

  /** Without a role type the base matches are the survivors; with one, the survivors are
      the base matches whose role name contains it, in order, each as often as in the base
      matches. Either way there are never more. */
  lemma RoleTypeNarrows(
    assignments: seq<RoleAssignment>, name: Option<string>, number: Option<string>, roleType: Option<string>)
    ensures !Given(roleType) ==> Survivors(assignments, name, number, roleType) == BaseMatches(assignments, name, number)
    ensures Given(roleType) ==>
              (forall x :: x in Survivors(assignments, name, number, roleType)
                 <==> x in BaseMatches(assignments, name, number) && RoleMatch(x, roleType.value))
    ensures Given(roleType) ==>
              (forall x :: multiset(Survivors(assignments, name, number, roleType))[x]
                 == if RoleMatch(x, roleType.value) then multiset(BaseMatches(assignments, name, number))[x] else 0)
    ensures IsSubsequence(Survivors(assignments, name, number, roleType), BaseMatches(assignments, name, number))
    ensures |Survivors(assignments, name, number, roleType)| <= |Survivors(assignments, name, number, None)|
  {
    var base := BaseMatches(assignments, name, number);
    if Given(roleType) {
      var keep := RoleMatchOf(roleType.value);
      FilterIsSubsequence(base, keep);
      forall x
        ensures multiset(Filter(base, keep))[x] == if RoleMatch(x, roleType.value) then multiset(base)[x] else 0
      {
        FilterMultiplicity(base, keep, x);
      }
    } else {
      SubsequenceOfItself(base);
    }
  }

  /** The role type is lower-cased before the comparison, so its case does not matter. */
  lemma RoleTypeIgnoresCase(matches: seq<RoleAssignment>, roleType: string)
    ensures NarrowByRole(matches, Some(roleType)) == NarrowByRole(matches, Some(Lower(roleType)))
  {
    LowerIdempotent(roleType);
    FilterCongruent(matches, RoleMatchOf(roleType), RoleMatchOf(Lower(roleType)));
  }

  /** The survivors are exactly the qualifying assignments, in order. */
  lemma SurvivorsQualify(
    assignments: seq<RoleAssignment>, name: Option<string>, number: Option<string>, roleType: Option<string>)
    ensures Survivors(assignments, name, number, roleType) == Filter(assignments, QualifiesOf(name, number, roleType))
  {
    if Given(roleType) {
      FilterTwice(assignments, BaseMatchOf(name, number), RoleMatchOf(roleType.value), QualifiesOf(name, number, roleType));
    } else {
      FilterCongruent(assignments, BaseMatchOf(name, number), QualifiesOf(name, number, roleType));
    }
  }

  /** A resolved assignment qualifies, occurs once in the input, and no other input qualifies. */
  lemma ResolvedIsUnique(
    assignments: seq<RoleAssignment>, name: Option<string>, number: Option<string>, roleType: Option<string>,
    x: RoleAssignment)
    requires Resolution(assignments, name, number, roleType) == Ok(x)
    ensures Qualifies(x, name, number, roleType)
    ensures multiset(assignments)[x] == 1
    ensures forall y :: y in assignments && Qualifies(y, name, number, roleType) ==> y == x
  {
    SurvivorsQualify(assignments, name, number, roleType);
    var q := QualifiesOf(name, number, roleType);
    var f := Filter(assignments, q);
    assert f == [x];
    FilterMultiplicity(assignments, q, x);
  }

  /** Conversely, when exactly one input occurrence qualifies, the resolver returns it. */
  lemma UniqueIsResolved(
    assignments: seq<RoleAssignment>, name: Option<string>, number: Option<string>, roleType: Option<string>,
    x: RoleAssignment)
    requires Qualifies(x, name, number, roleType)
    requires multiset(assignments)[x] == 1
    requires forall y :: y in assignments && Qualifies(y, name, number, roleType) ==> y == x
    ensures Resolution(assignments, name, number, roleType) == Ok(x)
  {
    SurvivorsQualify(assignments, name, number, roleType);
    var q := QualifiesOf(name, number, roleType);
    var f := Filter(assignments, q);
    forall y
      ensures multiset(f)[y] == multiset{x}[y]
    {
      FilterMultiplicity(assignments, q, y);
    }
    assert multiset(f) == multiset{x};
    assert |f| == 1;
    assert f[0] in multiset(f);
  }

  /** A failure carries every qualifying assignment, in order, and there are not exactly one of them. */
  lemma UnresolvedCarriesCandidates(
    assignments: seq<RoleAssignment>, name: Option<string>, number: Option<string>, roleType: Option<string>,
    e: ResolveError)
    requires Resolution(assignments, name, number, roleType) == Err(e)
    ensures |e.candidates| != 1
    ensures e.candidates == Filter(assignments, QualifiesOf(name, number, roleType))
    ensures forall y :: y in e.candidates <==> y in assignments && Qualifies(y, name, number, roleType)
    ensures forall y :: multiset(e.candidates)[y]
                     == if Qualifies(y, name, number, roleType) then multiset(assignments)[y] else 0
    ensures IsSubsequence(e.candidates, assignments)
  {
    SurvivorsQualify(assignments, name, number, roleType);
    var q := QualifiesOf(name, number, roleType);
    FilterIsSubsequence(assignments, q);
    forall y
      ensures multiset(e.candidates)[y] == if Qualifies(y, name, number, roleType) then multiset(assignments)[y] else 0
    {
      FilterMultiplicity(assignments, q, y);
    }
  }
}
