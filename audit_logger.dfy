/**
 * The request interceptor. It replaces the response's `json` emitter; when an
 * authenticated response is emitted it classifies the call, extracts the affected
 * resource, strips credentials from the request body, hands one record to the store
 * and then emits the response payload exactly as it was given.
 */
module AuditLogger {
  import opened Wrappers
  import opened Strings
  import opened JsValues
  import opened AuditLog

  /** The identity the authentication layer attaches to the request; "" stands for a missing claim. */
  datatype Identity = Identity(id: string, name: string, email: string)

  /** What the interceptor reads from the request. `ip` is "" when the framework has none. */
  datatype Request = Request(
    httpMethod: string,
    path: string,
    params: map<string, string>,
    query: Json,
    body: Json,
    user: Option<Identity>,
    ip: string,
    remoteAddress: Option<string>,
    userAgent: Option<string>)

  /** `req.user && req.user.id` */
  predicate Authenticated(req: Request) {
    req.user.Some? && req.user.value.id != ""
  }

  // ---------------------------------------------------------------- action

  /** The method switch's table; a method not listed falls to ACCESS. */
  const MethodActions: map<string, string> :=
    map["GET" := "READ", "POST" := "CREATE", "PUT" := "UPDATE", "PATCH" := "UPDATE", "DELETE" := "DELETE"]

  /**
   * The action of a call: a login marker in the path wins, then a logout marker, then the
   * method. The response payload plays no part.
   */
  function DetermineAction(httpMethod: string, path: string): (r: string)
    ensures r in ActionNames
    ensures r != "EXPORT" && r != "PERMISSION_CHANGE"
    ensures r == "LOGIN" <==> Contains(path, "/login")
    ensures r == "LOGOUT" <==> !Contains(path, "/login") && Contains(path, "/logout")
    ensures !Contains(path, "/login") && !Contains(path, "/logout") ==>
      r == if httpMethod in MethodActions then MethodActions[httpMethod] else "ACCESS"
  {
    if Contains(path, "/login") then "LOGIN"
    else if Contains(path, "/logout") then "LOGOUT"
    else if httpMethod == "GET" then "READ"
    else if httpMethod == "POST" then "CREATE"
    else if httpMethod == "PUT" || httpMethod == "PATCH" then "UPDATE"
    else if httpMethod == "DELETE" then "DELETE"
    else "ACCESS"
  }

  // ---------------------------------------------------------------- resource type

  /** The path markers in the order they are tried, each with the type it selects. */
  const ResourceMarkers: seq<(string, string)> :=
    [("/user", "USER"), ("/task", "TASK"), ("/department", "DEPARTMENT"), ("/auth", "AUTH")]

  /** The type of the first marker occurring in path, or SYSTEM when none does. */
  function FirstMarker(path: string, markers: seq<(string, string)>): string {
    if markers == [] then "SYSTEM"
    else if Contains(path, markers[0].0) then markers[0].1
    else FirstMarker(path, markers[1..])
  }

  function DetermineResourceType(path: string): (r: string)
    ensures r in ResourceTypeNames
    ensures r == FirstMarker(path, ResourceMarkers)
    ensures r == "SYSTEM" <==> forall i :: 0 <= i < |ResourceMarkers| ==> !Contains(path, ResourceMarkers[i].0)
  {
    var m := ResourceMarkers;
    assert FirstMarker(path, m[4..]) == "SYSTEM";
    assert FirstMarker(path, m[3..]) == if Contains(path, "/auth") then "AUTH" else FirstMarker(path, m[4..]);
    assert FirstMarker(path, m[2..]) == if Contains(path, "/department") then "DEPARTMENT" else FirstMarker(path, m[3..]);
    assert FirstMarker(path, m[1..]) == if Contains(path, "/task") then "TASK" else FirstMarker(path, m[2..]);
    if Contains(path, "/user") then "USER"
    else if Contains(path, "/task") then "TASK"
    else if Contains(path, "/department") then "DEPARTMENT"
    else if Contains(path, "/auth") then "AUTH"
    else "SYSTEM"
  }

  /** Plural collection paths classify by their marker: "/users..." is USER, and USER beats TASK. */
  lemma CollectionPaths(rest: string)
    ensures DetermineResourceType("/users" + rest) == "USER"
    ensures DetermineResourceType("/api/users/" + rest + "/tasks") == "USER"
    ensures !Contains("/tasks" + rest, "/user") ==> DetermineResourceType("/tasks" + rest) == "TASK"
  {
    assert OccursAt("/users" + rest, "/user", 0);
    assert OccursAt("/api/users/" + rest + "/tasks", "/user", 4);
    assert OccursAt("/tasks" + rest, "/task", 0);
  }

  // ---------------------------------------------------------------- sanitising

  /** The keys removed from every logged body, compared with their exact case. */
  const DenyList: set<string> := {"password", "token", "secret"}

  /** The sanitised copy of a body: null for a falsy body, else its own properties minus the deny-list. */
  function Sanitized(body: Json): (r: Option<map<string, Json>>)
    ensures r.None? <==> !Truthy(body)
    ensures r.Some? ==> r.value.Keys == OwnProps(body).Keys - DenyList
    ensures r.Some? ==> forall k :: k in r.value ==> r.value[k] == OwnProps(body)[k]
  {
    if !Truthy(body) then None else Some(OwnProps(body) - DenyList)
  }

  /**
   * sanitizeBody: copy the body's properties, then delete the three keys one by one from
   * the copy. The caller's body is a value and is left as it was.
   */
  method SanitizeBody(body: Json) returns (r: Option<map<string, Json>>)
    ensures r == Sanitized(body)
  {
    if !Truthy(body) {
      return None;
    }
    var sanitized := OwnProps(body);
    sanitized := sanitized - {"password"};
    sanitized := sanitized - {"token"};
    sanitized := sanitized - {"secret"};
    assert sanitized == OwnProps(body) - DenyList;
    return Some(sanitized);
  }

  /** The sanitised result viewed as a JavaScript value again. */
  function AsJson(m: Option<map<string, Json>>): Json {
    if m.None? then Null else Obj(m.value)
  }

  /** Sanitising a sanitised body changes nothing. */
  lemma SanitizeIdempotent(body: Json)
    ensures Sanitized(AsJson(Sanitized(body))) == Sanitized(body)
  {
    if Truthy(body) {
      var m := OwnProps(body) - DenyList;
      assert m - DenyList == m;
    }
  }

  /** Keys are matched with their exact case: "Password" and "TOKEN" are kept. */
  lemma SanitizeIsCaseSensitive(v: Json)
    ensures Sanitized(Obj(map["Password" := v, "TOKEN" := v, "password" := v]))
         == Some(map["Password" := v, "TOKEN" := v])
  {
    var m := map["Password" := v, "TOKEN" := v, "password" := v];
    assert m - DenyList == map["Password" := v, "TOKEN" := v];
  }

  // ---------------------------------------------------------------- resource info

  datatype ResourceInfo = ResourceInfo(id: Option<string>, name: Json, changes: Option<map<string, Json>>)

  predicate IsUpdateMethod(httpMethod: string) {
    httpMethod == "PUT" || httpMethod == "PATCH"
  }

  /** The id in the route, `req.params.id`, when it is non-empty. */
  function PathId(req: Request): Option<string> {
    if "id" in req.params && req.params["id"] != "" then Some(req.params["id"]) else None
  }

  /** `v.toString()` for a truthy property value, nothing otherwise. */
  function TruthyId(v: Json): Option<string> {
    if Truthy(v) then Some(ToStr(v)) else None
  }

  /** `task._id?.toString()`, kept only when it is a non-empty string. */
  function TaskId(data: Json): Option<string> {
    var taskId := Get(Get(data, "task"), "_id");
    if taskId != Null && ToStr(taskId) != "" then Some(ToStr(taskId)) else None
  }

  /** The ids a truthy payload may name: a wrapped task's `_id`, then `id`, then `_id`. */
  function ResponseIds(data: Json): seq<Option<string>> {
    [TaskId(data), TruthyId(Get(data, "id")), TruthyId(Get(data, "_id"))]
  }

  /** The sources of the resource id, highest precedence first. */
  function IdCandidates(req: Request, data: Json): seq<Option<string>> {
    ResponseIds(data) + [PathId(req)]
  }

  function FirstPresent(candidates: seq<Option<string>>): Option<string> {
    if candidates == [] then None
    else if candidates[0].Some? then candidates[0]
    else FirstPresent(candidates[1..])
  }

  /** The sources of the resource name, highest precedence first. */
  function NameCandidates(data: Json): seq<Json> {
    var tasks := Get(data, "tasks");
    [ if data.Arr? && |data.items| > 0 then Str(NatToDecimal(|data.items|) + " records") else Null,
      if tasks.Arr? then Str(NatToDecimal(|tasks.items|) + " tasks") else Null,
      Get(Get(data, "task"), "title"),
      Get(data, "name"),
      Get(data, "title"),
      Get(data, "email") ]
  }

  function FirstTruthy(candidates: seq<Json>): (r: Json)
    ensures r == Null || Truthy(r)
  {
    if candidates == [] then Null
    else if Truthy(candidates[0]) then candidates[0]
    else FirstTruthy(candidates[1..])
  }

  lemma FirstPresentCons(c: Option<string>, rest: seq<Option<string>>)
    ensures FirstPresent([c] + rest) == if c.Some? then c else FirstPresent(rest)
  {
    assert ([c] + rest)[1..] == rest;
  }

  lemma FirstTruthyCons(c: Json, rest: seq<Json>)
    ensures FirstTruthy([c] + rest) == Or(c, FirstTruthy(rest))
  {
    assert ([c] + rest)[1..] == rest;
  }

  /** The resource id: the first present candidate. */
  function ResourceId(req: Request, data: Json): Option<string> {
    FirstPresent(IdCandidates(req, data))
  }

  /** The resource name: the first truthy candidate, or null. */
  function ResourceName(data: Json): Json {
    FirstTruthy(NameCandidates(data))
  }

  /** The resource information of a call, as an ordered list of extraction rules. */
  function ResourceInfoOf(req: Request, data: Json): ResourceInfo {
    ResourceInfo(
      ResourceId(req, data),
      ResourceName(data),
      if IsUpdateMethod(req.httpMethod) then Sanitized(req.body) else None)
  }

  /**
   * extractResourceInfo: start from nulls and overwrite the fields in the source's order
   * (path id, response _id, response id, name/title/email, wrapped task, tasks list,
   * top-level list, changes).
   */
  method ExtractResourceInfo(req: Request, data: Json) returns (info: ResourceInfo)
    ensures info == ResourceInfoOf(req, data)
  {
    var id: Option<string>, name: Json, changes: Option<map<string, Json>> := None, Null, None;
    if "id" in req.params && req.params["id"] != "" {
      id := Some(req.params["id"]);
    }
    if Truthy(data) {
      id, name := FromResponse(data, id);
    } else {
      NoResponseCandidates(req, data);
    }
    if IsUpdateMethod(req.httpMethod) {
      changes := SanitizeBody(req.body);
    }
    info := ResourceInfo(id, name, changes);
  }

  /** The `if (responseData)` block: overwrite the path id and fill the name from a truthy payload. */
  method FromResponse(data: Json, pathId: Option<string>) returns (id: Option<string>, name: Json)
    requires Truthy(data)
    ensures id == FirstPresent(ResponseIds(data) + [pathId])
    ensures name == FirstTruthy(NameCandidates(data))
  {
    IdChain(ResponseIds(data) + [pathId]);
    NameChain(NameCandidates(data));
    id := pathId;
    if Truthy(Get(data, "_id")) {
      id := Some(ToStr(Get(data, "_id")));
    }
    if Truthy(Get(data, "id")) {
      id := Some(ToStr(Get(data, "id")));
    }
    assert id == Prefer(TruthyId(Get(data, "id")), Prefer(TruthyId(Get(data, "_id")), pathId));
    name := Or(Or(Or(Get(data, "name"), Get(data, "title")), Get(data, "email")), Null);
    var task := Get(data, "task");
    if Truthy(task) {
      var taskId := Get(task, "_id");
      if taskId != Null && ToStr(taskId) != "" {
        id := Some(ToStr(taskId));
      }
      name := Or(Get(task, "title"), name);
    }
    assert id == FirstPresent(ResponseIds(data) + [pathId]);
    assert name == Or(Get(task, "title"), Or(Get(data, "name"), Or(Get(data, "title"), Or(Get(data, "email"), Null))));
    var tasks := Get(data, "tasks");
    if tasks.Arr? {
      name := Str(NatToDecimal(|tasks.items|) + " tasks");
    }
    if data.Arr? && |data.items| > 0 {
      name := Str(NatToDecimal(|data.items|) + " records");
    }
  }

  /** `a ?? b` on optional strings: the first one present. */
  function Prefer(a: Option<string>, b: Option<string>): Option<string> {
    if a.Some? then a else b
  }

  /** The precedence list of ids, read as a chain of fallbacks. */
  lemma {:induction false} IdChain(c: seq<Option<string>>)
    requires |c| == 4
    ensures FirstPresent(c) == Prefer(c[0], Prefer(c[1], Prefer(c[2], c[3])))
  {
    SuffixesOf(c);
    FirstPresentCons(c[0], c[1..]);
    FirstPresentCons(c[1], c[2..]);
    FirstPresentCons(c[2], c[3..]);
    FirstPresentCons(c[3], []);
  }

  /** The precedence list of names, read as a chain of `||`. */
  lemma {:induction false} NameChain(c: seq<Json>)
    requires |c| == 6
    ensures FirstTruthy(c) == Or(c[0], Or(c[1], Or(c[2], Or(c[3], Or(c[4], Or(c[5], Null))))))
  {
    SuffixesOfNames(c);
    FirstTruthyCons(c[0], c[1..]);
    FirstTruthyCons(c[1], c[2..]);
    FirstTruthyCons(c[2], c[3..]);
    FirstTruthyCons(c[3], c[4..]);
    FirstTruthyCons(c[4], c[5..]);
    FirstTruthyCons(c[5], []);
  }

  lemma SuffixesOf(c: seq<Option<string>>)
    requires |c| == 4
    ensures c == [c[0]] + c[1..] && c[1..] == [c[1]] + c[2..] && c[2..] == [c[2]] + c[3..] && c[3..] == [c[3]] + []
  {
  }

  lemma SuffixesOfNames(c: seq<Json>)
    requires |c| == 6
    ensures c == [c[0]] + c[1..] && c[1..] == [c[1]] + c[2..] && c[2..] == [c[2]] + c[3..]
    ensures c[3..] == [c[3]] + c[4..] && c[4..] == [c[4]] + c[5..] && c[5..] == [c[5]] + []
  {
  }

  /** A falsy payload offers neither an id nor a name: only the path id can be found. */
  lemma NoResponseCandidates(req: Request, data: Json)
    requires !Truthy(data)
    ensures FirstPresent(IdCandidates(req, data)) == FirstPresent(IdCandidates(req, data)[3..])
    ensures FirstTruthy(NameCandidates(data)) == Null
  {
    var ids := IdCandidates(req, data);
    var names := NameCandidates(data);
    SuffixesOf(ids);
    SuffixesOfNames(names);
    FirstPresentCons(ids[0], ids[1..]);
    FirstPresentCons(ids[1], ids[2..]);
    FirstPresentCons(ids[2], ids[3..]);
    FirstTruthyCons(names[5], []);
    FirstTruthyCons(names[4], names[5..]);
    FirstTruthyCons(names[3], names[4..]);
    FirstTruthyCons(names[2], names[3..]);
    FirstTruthyCons(names[1], names[2..]);
    FirstTruthyCons(names[0], names[1..]);
  }

  /**
   * The id precedence: a wrapped task's non-empty `_id`, then a truthy `id`, then a truthy
   * `_id`, and the route's id only when the payload offers none of these: otherwise the
   * result is the same as for a route without an id.
   */
  lemma IdPrecedence(req: Request, data: Json)
    ensures TaskId(data).Some? ==> ResourceId(req, data) == TaskId(data)
    ensures TaskId(data).None? && Truthy(Get(data, "id")) ==>
      ResourceId(req, data) == Some(ToStr(Get(data, "id")))
    ensures TaskId(data).None? && !Truthy(Get(data, "id")) && Truthy(Get(data, "_id")) ==>
      ResourceId(req, data) == Some(ToStr(Get(data, "_id")))
    ensures TaskId(data).None? && !Truthy(Get(data, "id")) && !Truthy(Get(data, "_id")) ==>
      ResourceId(req, data) == PathId(req)
    ensures TaskId(data).Some? || Truthy(Get(data, "id")) || Truthy(Get(data, "_id")) ==>
      ResourceId(req, data).Some? && ResourceId(req, data) == ResourceId(req.(params := map[]), data)
  {
    IdChain(IdCandidates(req, data));
    IdChain(IdCandidates(req.(params := map[]), data));
  }

  /** A non-empty list response is named by its size; an empty list leaves the name null. */
  lemma ListNames(items: seq<Json>)
    ensures |items| > 0 ==> ResourceName(Arr(items)) == Str(NatToDecimal(|items|) + " records")
    ensures items == [] ==> ResourceName(Arr(items)) == Null
  {
    NameChain(NameCandidates(Arr(items)));
  }

  /** A payload carrying a `tasks` list is named by the list's size, whatever else it holds. */
  lemma TaskListName(data: Json)
    requires Get(data, "tasks").Arr?
    ensures ResourceName(data) == Str(NatToDecimal(|Get(data, "tasks").items|) + " tasks")
  {
    NameChain(NameCandidates(data));
  }

  /** Changes are recorded for PUT and PATCH only, and then they are the sanitised body. */
  lemma ChangesOnlyForUpdates(req: Request, data: Json)
    ensures ResourceInfoOf(req, data).changes.Some? ==> IsUpdateMethod(req.httpMethod)
    ensures IsUpdateMethod(req.httpMethod) ==> ResourceInfoOf(req, data).changes == Sanitized(req.body)
  {
  }

  // ---------------------------------------------------------------- the record

  /** `req.ip || req.connection.remoteAddress` */
  function IpAddress(req: Request): (r: Option<string>)
    ensures r.None? <==> req.ip == "" && req.remoteAddress.None?
    ensures req.ip != "" ==> r == Some(req.ip)
    ensures req.ip == "" ==> r == req.remoteAddress
  {
    if req.ip != "" then Some(req.ip) else req.remoteAddress
  }

  /** The attributes the interceptor builds for one emitted response, or None when no one is signed in. */
  function BuildAuditData(req: Request, statusCode: int, data: Json, responseTime: int): (r: Option<AuditData>)
    ensures r.Some? <==> Authenticated(req)
    ensures r.Some? ==> r.value.action in ActionNames && r.value.resourceType in ResourceTypeNames
    ensures r.Some? && r.value.changes.Some? ==>
      IsUpdateMethod(req.httpMethod) && DenyList !! r.value.changes.value.Keys
    ensures r.Some? && r.value.metadata.bodyParams.Some? ==> DenyList !! r.value.metadata.bodyParams.value.Keys
  {
    if !Authenticated(req) then None
    else
      var user := req.user.value;
      var info := ResourceInfoOf(req, data);
      Some(AuditData(
        user.id, OrElse(user.name, "Unknown"), OrElse(user.email, "Unknown"),
        DetermineAction(req.httpMethod, req.path), DetermineResourceType(req.path),
        info.id, info.name, req.httpMethod, req.path, IpAddress(req), req.userAgent, statusCode,
        info.changes, Metadata(responseTime, req.query, Sanitized(req.body))))
  }

  /**
   * The record holds the caller's identity (names falling back to 'Unknown'), the classifier's
   * action and type, the extractor's id, name and changes, the client address, and the
   * request's own method, path, query and sanitised body.
   */
  lemma RecordFields(req: Request, statusCode: int, data: Json, responseTime: int)
    requires Authenticated(req)
    ensures var d := BuildAuditData(req, statusCode, data, responseTime).value;
      && d.userId == req.user.value.id
      && (req.user.value.name == "" ==> d.userName == "Unknown")
      && (req.user.value.name != "" ==> d.userName == req.user.value.name)
      && (req.user.value.email == "" ==> d.userEmail == "Unknown")
      && (req.user.value.email != "" ==> d.userEmail == req.user.value.email)
      && d.action == DetermineAction(req.httpMethod, req.path)
      && d.resourceType == DetermineResourceType(req.path)
    ensures var d := BuildAuditData(req, statusCode, data, responseTime).value;
      && d.resourceId == ResourceInfoOf(req, data).id
      && d.resourceName == ResourceInfoOf(req, data).name
      && d.changes == ResourceInfoOf(req, data).changes
    ensures var d := BuildAuditData(req, statusCode, data, responseTime).value;
      && d.ipAddress == IpAddress(req) && d.userAgent == req.userAgent
      && d.endpoint == req.path && d.httpMethod == req.httpMethod && d.statusCode == statusCode
      && d.metadata.queryParams == req.query
      && d.metadata.bodyParams == Sanitized(req.body) && d.metadata.responseTime == responseTime
  {
  }

  /**
   * The schema accepts every record the interceptor builds unless the name it found is an
   * array or an object: the classifier's outputs always lie in the enumerations.
   */
  lemma BuiltRecordsAreAdmitted(req: Request, statusCode: int, data: Json, responseTime: int, id: string, createdAt: int)
    requires Authenticated(req)
    ensures var d := BuildAuditData(req, statusCode, data, responseTime).value;
      Admit(d, id, createdAt).Some? <==> StringColumnAccepts(ResourceInfoOf(req, data).name)
  {
  }

  /** The log after one emission: one more row when a record was built, admitted and written. */
  function Appended(logs: seq<AuditRecord>, d: Option<AuditData>, id: string, createdAt: int, reachable: bool): seq<AuditRecord> {
    if d.Some? && reachable && Admit(d.value, id, createdAt).Some? then logs + [Admit(d.value, id, createdAt).value]
    else logs
  }

  // ---------------------------------------------------------------- interception

  /** The response object: its status code and the payloads emitted through the original `json`. */
  class Response {
    var statusCode: int
    var sent: seq<Json>

    constructor (statusCode: int)
      ensures this.statusCode == statusCode && sent == []
    {
      this.statusCode := statusCode;
      sent := [];
    }

    /** The original, unwrapped emitter. */
    method Send(data: Json)
      modifies this
      ensures sent == old(sent) + [data] && statusCode == old(statusCode)
    {
      sent := sent + [data];
    }
  }

  /**
   * The replacement `res.json`. `startTime` and `now` are the clock readings taken when the
   * interceptor was installed and when the response is emitted; `id`, `createdAt` and
   * `reachable` are what the store generates and whether its write goes through.
   */
  method AuditedJson(req: Request, res: Response, store: AuditStore, data: Json,
                     startTime: int, now: int, id: string, createdAt: int, reachable: bool)
    modifies res, store
    ensures res.sent == old(res.sent) + [data] && res.statusCode == old(res.statusCode)
    ensures store.logs ==
      Appended(old(store.logs), BuildAuditData(req, old(res.statusCode), data, now - startTime), id, createdAt, reachable)
  {
    if Authenticated(req) {
      var user := req.user.value;
      var action := DetermineAction(req.httpMethod, req.path);
      var resourceType := DetermineResourceType(req.path);
      var info := ExtractResourceInfo(req, data);
      var bodyParams := SanitizeBody(req.body);
      var auditData := AuditData(
        user.id, OrElse(user.name, "Unknown"), OrElse(user.email, "Unknown"), action, resourceType,
        info.id, info.name, req.httpMethod, req.path, IpAddress(req), req.userAgent, res.statusCode,
        info.changes, Metadata(now - startTime, req.query, bodyParams));
      var written := store.Create(auditData, id, createdAt, reachable);
    }
    res.Send(data);
  }

  /** A call with no signed-in identity, such as a login attempt, leaves the log as it was. */
  lemma UnauthenticatedCallsAreNotLogged(logs: seq<AuditRecord>, req: Request, statusCode: int, data: Json,
                                         responseTime: int, id: string, createdAt: int, reachable: bool)
    requires !Authenticated(req)
    ensures Appended(logs, BuildAuditData(req, statusCode, data, responseTime), id, createdAt, reachable) == logs
  {
  }
}
