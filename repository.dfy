/** The two calls main.py makes to the PIM API: listing the signed-in user's
    eligible role assignments (`get_role_assignments`) and asking for one of them
    to be activated (`request_role_assignment`). Only the building of the requests
    is modelled; sending them and decoding the answers is not. */
module Repository {
  import opened Wrappers
  import opened Models

  const ListPath := "roleAssignments"
  const ActivationPath := "roleAssignmentRequests"
  const ExpandClause := "linkedEligibleRoleAssignment,subject,scopedResource,roleDefinition($expand=resource)"

  const FilterHead := "(subject/id eq '"
  const FilterTail := "') and (assignmentState eq 'Eligible')"

  /** The OData query of the listing call. */
  function ListParams(subjectId: string): (params: map<string, string>)
    ensures params.Keys == {"$expand", "$filter", "$count"}
    ensures params["$expand"] == ExpandClause
    ensures params["$filter"] == "(subject/id eq '" + subjectId + "') and (assignmentState eq 'Eligible')"
    ensures params["$count"] == "true"
  {
    map["$expand" := ExpandClause,
        "$filter" := FilterHead + subjectId + FilterTail,
        "$count" := "true"]
  }

  /** The `$filter` names the subject verbatim: two subjects share a filter only if they are the same. */
  lemma FilterNamesSubject(a: string, b: string)
    ensures ListParams(a)["$filter"] == ListParams(b)["$filter"] <==> a == b
  {
    var fa, fb := FilterHead + a + FilterTail, FilterHead + b + FilterTail;
    assert fa[|FilterHead|..|FilterHead| + |a|] == a;
    assert fb[|FilterHead|..|FilterHead| + |b|] == b;
  }

  /** The request `get_role_assignments` sends. */
  function ListRequest(subjectId: string, resourceType: ResourceType, token: string): (r: PIMRequest)
    ensures r.path == "roleAssignments" && r.token == token
    ensures r.params == Some(ListParams(subjectId))
    ensures r.payload == None && r.data == None
    ensures r.httpMethod == "GET" && r.headers == map[]
  {
    NewPIMRequest(resourceType, ListPath, token, Some(ListParams(subjectId)), None)
  }

  /** The request `request_role_assignment` sends. Its method is never set, so it
      keeps the `PIMRequest` default `"GET"`. */
  function ActivationRequest(
    subjectId: string, subscriptionId: string, roleDefinitionId: string, roleAssignmentId: string,
    resourceType: ResourceType, token: string, defaults: Defaults): (r: PIMRequest)
    ensures r.path == "roleAssignmentRequests" && r.token == token
    ensures r.params == None && r.data == None && r.headers == map[]
    ensures r.httpMethod == "GET"
    ensures r.payload.Some?
    ensures r.payload.value.resourceId == subscriptionId
    ensures r.payload.value.linkedEligibleRoleAssignmentId == roleAssignmentId
    ensures r.payload.value.roleDefinitionId == roleDefinitionId
    ensures r.payload.value.subjectId == subjectId
    ensures r.payload.value == NewRoleAssignmentRequest(roleDefinitionId, subscriptionId, subjectId, roleAssignmentId, defaults)
  {
    var payload := NewRoleAssignmentRequest(roleDefinitionId, subscriptionId, subjectId, roleAssignmentId, defaults);
    NewPIMRequest(resourceType, ActivationPath, token, None, Some(payload))
  }
}
