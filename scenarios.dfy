/** Worked examples of the resolver on concrete assignment lists. */
module Scenarios {
  import opened Wrappers
  import opened Text
  import opened Models
  import opened Sequences
  import opened Resolver

  /** An eligible assignment whose resource and role carry the given display names. */
  function Sample(id: string, resourceName: string, roleName: string): RoleAssignment {
    var resource := RoleResource("res-" + id, "subscription", resourceName, "Active");
    var subject := RoleAssignmentSubject("subject", "User", "User", "user@example.com", "user@example.com");
    RoleAssignment(id, "res-" + id, "def-" + id, "subject", "Eligible", "Accepted", subject,
      RoleDefinition("def-" + id, "res-" + id, roleName, "BuiltInRole", resource))
  }

  const ProdOwner := Sample("1", "S123-Prod", "Owner")
  const DevContributor := Sample("2", "S456-Dev", "Contributor")
  const ProdContributor := Sample("3", "S123-Prod", "Contributor")

  lemma ProdPrefix()
    ensures Take(ResourceName(ProdOwner), 4) == "s123"
    ensures Take(ResourceName(ProdContributor), 4) == "s123"
    ensures Take(ResourceName(DevContributor), 4) == "s456"
  {
    assert Lower("S123-Prod")[..4] == "s123";
    assert Lower("S456-Dev")[..4] == "s456";
  }

  /** A lower-case number prefix picks the one subscription it names. */
  lemma UniqueByNumber()
    ensures Resolution([ProdOwner, DevContributor], None, Some("s123"), None) == Ok(ProdOwner)
  {
    ProdPrefix();
    var s := [ProdOwner, DevContributor];
    assert s == [ProdOwner] + [DevContributor];
    assert [ProdOwner] == [] + [ProdOwner];
    FilterSnoc([], ProdOwner, BaseMatchOf(None, Some("s123")));
    FilterSnoc([ProdOwner], DevContributor, BaseMatchOf(None, Some("s123")));
  }

  /** The same number written as the resource shows it, with a capital letter, matches nothing. */
  lemma CapitalNumberMatchesNothing()
    ensures Resolution([ProdOwner, DevContributor], None, Some("S123"), None) == Err(Unresolved([]))
  {
    var s := [ProdOwner, DevContributor];
    assert HasUpper("S123") by { assert IsUpper("S123"[0]); }
    UpperCaseFilterNeverMatches(ProdOwner, "S123");
    UpperCaseFilterNeverMatches(DevContributor, "S123");
    FilterNoneKept(s, BaseMatchOf(None, Some("S123")));
  }

  lemma BothProdRolesAreBaseMatches()
    ensures BaseMatches([ProdOwner, ProdContributor], None, Some("s123")) == [ProdOwner, ProdContributor]
  {
    ProdPrefix();
    assert [ProdOwner, ProdContributor] == [ProdOwner] + [ProdContributor];
    assert [ProdOwner] == [] + [ProdOwner];
    FilterSnoc([], ProdOwner, BaseMatchOf(None, Some("s123")));
    FilterSnoc([ProdOwner], ProdContributor, BaseMatchOf(None, Some("s123")));
  }

  /** Two roles on one subscription leave the resolver with two candidates. */
  lemma AmbiguousWithoutRoleType()
    ensures Resolution([ProdOwner, ProdContributor], None, Some("s123"), None)
         == Err(Unresolved([ProdOwner, ProdContributor]))
  {
    BothProdRolesAreBaseMatches();
  }

  lemma OwnerRoleMatches()
    ensures RoleMatch(ProdOwner, "Owner")
  {
    assert Lower("Owner") == "owner";
    assert RoleName(ProdOwner) == "owner";
    assert IsPrefix("owner", "owner");
  }

  lemma ContributorHasNoW()
    ensures forall j :: 0 <= j < |"contributor"| ==> "contributor"[j] != 'w'
  {
  }

  lemma ContributorRoleDoesNotMatch()
    ensures !RoleMatch(ProdContributor, "Owner")
  {
    assert Lower("Owner") == "owner";
    assert RoleName(ProdContributor) == "contributor";
    SubstringCharsOccur("owner", "contributor", 1);
    ContributorHasNoW();
  }

  lemma OwnerRoleFilter()
    ensures Filter([ProdOwner, ProdContributor], RoleMatchOf("Owner")) == [ProdOwner]
  {
    OwnerRoleMatches();
    ContributorRoleDoesNotMatch();
    assert [ProdOwner, ProdContributor] == [ProdOwner] + [ProdContributor];
    assert [ProdOwner] == [] + [ProdOwner];
    FilterSnoc([], ProdOwner, RoleMatchOf("Owner"));
    FilterSnoc([ProdOwner], ProdContributor, RoleMatchOf("Owner"));
  }

  /** A role type, in any case, picks one of the two. */
  lemma DisambiguatedByRoleType()
    ensures Resolution([ProdOwner, ProdContributor], None, Some("s123"), Some("Owner")) == Ok(ProdOwner)
  {
    BothProdRolesAreBaseMatches();
    OwnerRoleFilter();
  }
}
