/** The records of models.py. Every wire field named `type` is called `kind`,
    and the field `method` of `PIMRequest` is called `httpMethod`,
    because both words are Dafny keywords. */
module Models {
  import opened Wrappers

  /** `ResourceType = Literal["azureResources"]`: the one resource type there is. */
  type ResourceType = s: string | s == "azureResources" witness "azureResources"

  const AzureResources: ResourceType := "azureResources"

  /** The two values the records take from the configuration module:
      `DEFAULT_REASON` and `DEFAULT_DURATION_MINUTES` (as its decimal text). */
  datatype Defaults = Defaults(reason: string, durationMinutes: string)

  datatype RoleAssignmentSubject = RoleAssignmentSubject(
    id: string,
    kind: string,
    displayName: string,
    principalName: string,
    email: string)

  /** The Azure resource (a subscription, say) a role applies to. */
  datatype RoleResource = RoleResource(
    id: string,
    kind: string,
    displayName: string,
    status: string)

  datatype RoleDefinition = RoleDefinition(
    id: string,
    resourceId: string,
    displayName: string,
    kind: string,
    resource: RoleResource)

  /** One eligible binding of the signed-in user to a role on a resource. */
  datatype RoleAssignment = RoleAssignment(
    id: string,
    resourceId: string,
    roleDefinitionId: string,
    subjectId: string,
    assignmentState: string,
    status: string,
    subject: RoleAssignmentSubject,
    roleDefinition: RoleDefinition)

  datatype RoleAssignmentSchedule = RoleAssignmentSchedule(
    kind: string,
    startDateTime: Option<string>,
    endDateTime: Option<string>,
    duration: string)

  /** The activation request body. The four ids have no default; the other
      fields are filled by `NewRoleAssignmentRequest`. */
  datatype RoleAssignmentRequest = RoleAssignmentRequest(
    roleDefinitionId: string,
    resourceId: string,
    subjectId: string,
    assignmentState: string,
    kind: string,
    reason: string,
    ticketNumber: string,
    ticketSystem: string,
    schedule: RoleAssignmentSchedule,
    linkedEligibleRoleAssignmentId: string,
    scopedResourceId: string)

  /** The description of one call to the PIM API, before it is sent. */
  datatype PIMRequest = PIMRequest(
    resourceType: ResourceType,
    path: string,
    token: string,
    httpMethod: string,
    headers: map<string, string>,
    params: Option<map<string, string>>,
    data: Option<map<string, string>>,
    payload: Option<RoleAssignmentRequest>)

  /** `RoleAssignmentSchedule()` with every field left at its default. */
  function DefaultSchedule(defaults: Defaults): (s: RoleAssignmentSchedule)
    ensures s.kind == "Once"
    ensures s.startDateTime == None && s.endDateTime == None
    ensures s.duration == "PT" + defaults.durationMinutes + "M"
  {
    RoleAssignmentSchedule("Once", None, None, "PT" + defaults.durationMinutes + "M")
  }

  /** `RoleAssignmentRequest(...)` given only the four required ids. */
  function NewRoleAssignmentRequest(
    roleDefinitionId: string, resourceId: string, subjectId: string,
    linkedEligibleRoleAssignmentId: string, defaults: Defaults): (r: RoleAssignmentRequest)
    ensures r.roleDefinitionId == roleDefinitionId && r.resourceId == resourceId
    ensures r.subjectId == subjectId && r.linkedEligibleRoleAssignmentId == linkedEligibleRoleAssignmentId
    ensures r.assignmentState == "Active" && r.kind == "UserAdd"
    ensures r.reason == defaults.reason
    ensures r.ticketNumber == "" && r.ticketSystem == "" && r.scopedResourceId == ""
    ensures r.schedule == DefaultSchedule(defaults)
  {
    RoleAssignmentRequest(
      roleDefinitionId, resourceId, subjectId, "Active", "UserAdd", defaults.reason,
      "", "", DefaultSchedule(defaults), linkedEligibleRoleAssignmentId, "")
  }

  /** `PIMRequest(resource_type=..., path=..., token=..., params=..., payload=...)`:
      the fields the callers set are taken as given, the others keep their defaults. */
  function NewPIMRequest(
    resourceType: ResourceType, path: string, token: string,
    params: Option<map<string, string>>, payload: Option<RoleAssignmentRequest>): (r: PIMRequest)
    ensures r.resourceType == "azureResources"
    ensures r.path == path && r.token == token && r.params == params && r.payload == payload
    ensures r.httpMethod == "GET" && r.headers == map[] && r.data == None
  {
    PIMRequest(resourceType, path, token, "GET", map[], params, None, payload)
  }
}
