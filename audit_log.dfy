/**
 * The audit log's record type and its store. Every field the schema declares
 * non-nullable has a plain type; every nullable one is an Option. `action` and
 * `resourceType` are closed enumerations whose stored form is their upper-case name.
 */
module AuditLog {
  import opened Wrappers
  import opened Strings
  import opened JsValues

  datatype Action = Login | Logout | Create | Read | Update | Delete | Access | Export | PermissionChange

  datatype ResourceType = User | Task | Department | Auth | System

  /** The enumeration values in declaration order. */
  const AllActions: seq<Action> := [Login, Logout, Create, Read, Update, Delete, Access, Export, PermissionChange]
  const AllResourceTypes: seq<ResourceType> := [User, Task, Department, Auth, System]

  const ActionNames: set<string> :=
    {"LOGIN", "LOGOUT", "CREATE", "READ", "UPDATE", "DELETE", "ACCESS", "EXPORT", "PERMISSION_CHANGE"}
  const ResourceTypeNames: set<string> := {"USER", "TASK", "DEPARTMENT", "AUTH", "SYSTEM"}

  function ActionName(a: Action): string {
    match a
    case Login => "LOGIN"
    case Logout => "LOGOUT"
    case Create => "CREATE"
    case Read => "READ"
    case Update => "UPDATE"
    case Delete => "DELETE"
    case Access => "ACCESS"
    case Export => "EXPORT"
    case PermissionChange => "PERMISSION_CHANGE"
  }

  function ResourceTypeName(t: ResourceType): string {
    match t
    case User => "USER"
    case Task => "TASK"
    case Department => "DEPARTMENT"
    case Auth => "AUTH"
    case System => "SYSTEM"
  }

  /** The enumeration check on `action`: exactly the nine names are accepted, each as its own value. */
  function ParseAction(s: string): (r: Option<Action>)
    ensures r.Some? <==> s in ActionNames
    ensures forall a :: r == Some(a) <==> ActionName(a) == s
  {
    if s == "LOGIN" then Some(Login)
    else if s == "LOGOUT" then Some(Logout)
    else if s == "CREATE" then Some(Create)
    else if s == "READ" then Some(Read)
    else if s == "UPDATE" then Some(Update)
    else if s == "DELETE" then Some(Delete)
    else if s == "ACCESS" then Some(Access)
    else if s == "EXPORT" then Some(Export)
    else if s == "PERMISSION_CHANGE" then Some(PermissionChange)
    else None
  }

  /** The enumeration check on `resourceType`: exactly the five names are accepted. */
  function ParseResourceType(s: string): (r: Option<ResourceType>)
    ensures r.Some? <==> s in ResourceTypeNames
    ensures forall t :: r == Some(t) <==> ResourceTypeName(t) == s
  {
    if s == "USER" then Some(User)
    else if s == "TASK" then Some(Task)
    else if s == "DEPARTMENT" then Some(Department)
    else if s == "AUTH" then Some(Auth)
    else if s == "SYSTEM" then Some(System)
    else None
  }

  /** The enumerations are closed: nine actions and five resource types, listed once each. */
  lemma EnumerationsClosed()
    ensures |ActionNames| == 9 && |ResourceTypeNames| == 5
    ensures forall a :: a in AllActions
    ensures forall t :: t in AllResourceTypes
    ensures forall i, j :: 0 <= i < j < |AllActions| ==> AllActions[i] != AllActions[j]
    ensures forall i, j :: 0 <= i < j < |AllResourceTypes| ==> AllResourceTypes[i] != AllResourceTypes[j]
  {
    forall a: Action
      ensures a in AllActions
    {
      match a
      case Login => assert AllActions[0] == a;
      case Logout => assert AllActions[1] == a;
      case Create => assert AllActions[2] == a;
      case Read => assert AllActions[3] == a;
      case Update => assert AllActions[4] == a;
      case Delete => assert AllActions[5] == a;
      case Access => assert AllActions[6] == a;
      case Export => assert AllActions[7] == a;
      case PermissionChange => assert AllActions[8] == a;
    }
    forall t: ResourceType
      ensures t in AllResourceTypes
    {
      match t
      case User => assert AllResourceTypes[0] == t;
      case Task => assert AllResourceTypes[1] == t;
      case Department => assert AllResourceTypes[2] == t;
      case Auth => assert AllResourceTypes[3] == t;
      case System => assert AllResourceTypes[4] == t;
    }
  }

  /** The `metadata` object the request interceptor attaches. */
  datatype Metadata = Metadata(responseTime: int, queryParams: Json, bodyParams: Option<map<string, Json>>)

  /** A stored audit log row. `id` is the generated key; `createdAt` the server timestamp (ms). */
  datatype AuditRecord = AuditRecord(
    id: string,
    userId: string,
    userName: string,
    userEmail: string,
    action: Action,
    resourceType: ResourceType,
    resourceId: Option<string>,
    resourceName: Option<string>,
    httpMethod: string,
    endpoint: string,
    ipAddress: Option<string>,
    userAgent: Option<string>,
    statusCode: Option<int>,
    changes: Option<map<string, Json>>,
    metadata: Option<Metadata>,
    createdAt: int)

  /**
   * The attributes handed to the store's create call, before validation: the enumerated
   * fields are still strings and `resourceName` is whatever JavaScript value was found.
   */
  datatype AuditData = AuditData(
    userId: string,
    userName: string,
    userEmail: string,
    action: string,
    resourceType: string,
    resourceId: Option<string>,
    resourceName: Json,
    httpMethod: string,
    endpoint: string,
    ipAddress: Option<string>,
    userAgent: Option<string>,
    statusCode: int,
    changes: Option<map<string, Json>>,
    metadata: Metadata)

  /** A string column holds null, strings, and numbers or booleans in string form; arrays and objects are refused. */
  predicate StringColumnAccepts(v: Json) {
    !v.Arr? && !v.Obj?
  }

  function StringColumn(v: Json): Option<string>
    requires StringColumnAccepts(v)
  {
    if v.Null? then None else Some(ToStr(v))
  }

  /**
   * Validation and insertion of one row: the row the store keeps for `d`, or None when the
   * schema refuses it (an enumerated field outside its values, or a non-string name).
   */
  function Admit(d: AuditData, id: string, createdAt: int): (r: Option<AuditRecord>)
    ensures r.Some? <==>
      d.action in ActionNames && d.resourceType in ResourceTypeNames && StringColumnAccepts(d.resourceName)
    ensures r.Some? ==>
      && ActionName(r.value.action) == d.action
      && ResourceTypeName(r.value.resourceType) == d.resourceType
      && r.value.id == id && r.value.createdAt == createdAt
      && r.value.userId == d.userId && r.value.userName == d.userName && r.value.userEmail == d.userEmail
      && r.value.resourceId == d.resourceId
      && r.value.resourceName == StringColumn(d.resourceName)
      && r.value.httpMethod == d.httpMethod && r.value.endpoint == d.endpoint
      && r.value.ipAddress == d.ipAddress && r.value.userAgent == d.userAgent
      && r.value.statusCode == Some(d.statusCode)
      && r.value.changes == d.changes && r.value.metadata == Some(d.metadata)
  {
    match (ParseAction(d.action), ParseResourceType(d.resourceType))
    case (Some(a), Some(t)) =>
      if StringColumnAccepts(d.resourceName) then
        Some(AuditRecord(id, d.userId, d.userName, d.userEmail, a, t, d.resourceId,
                         StringColumn(d.resourceName), d.httpMethod, d.endpoint, d.ipAddress,
                         d.userAgent, Some(d.statusCode), d.changes, Some(d.metadata), createdAt))
      else None
    case _ => None
  }

  /** The audit log table: rows in insertion order. Rows are only ever appended. */
  class AuditStore {
    var logs: seq<AuditRecord>

    constructor ()
      ensures logs == []
    {
      logs := [];
    }

    /**
     * The create call. `id` and `createdAt` are the values the store generates; `reachable`
     * is false when the write fails for reasons outside the model (connection, constraints).
     */
    method Create(d: AuditData, id: string, createdAt: int, reachable: bool) returns (ok: bool)
      modifies this
      ensures ok <==> reachable && Admit(d, id, createdAt).Some?
      ensures logs == if ok then old(logs) + [Admit(d, id, createdAt).value] else old(logs)
    {
      var row := Admit(d, id, createdAt);
      ok := reachable && row.Some?;
      if ok {
        logs := logs + [row.value];
      }
    }
  }
}
