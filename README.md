# Audit trail of the employee-management backend

This project models the audit trail of the backend in Dafny. The audit trail has three parts:

- **The request interceptor** (`auditLogger`). It wraps every response's `json` emitter. When a signed-in user's request is answered, it does five things:
  - it classifies the call into an action and a resource type;
  - it extracts the affected resource's id and name from the route and the response payload;
  - it copies the request body without credentials;
  - it hands one record to the audit-log store;
  - it then emits the payload unchanged.
- **The audit-log schema** (`AuditLog`). It has nine actions and five resource types, required and nullable columns, and a generated id and creation time.
- **The audit controller.** It serves:
  - the filtered, searched and paginated listing;
  - one resource's history, one user's history and the caller's own history;
  - statistics over a window of days;
  - the CSV export.

The store is a sequence of rows in insertion order, and timestamps are integers in milliseconds. JavaScript values that reach the subsystem are modelled by the `Json` datatype. That datatype covers truthiness, property reads (a missing property reads as null), `||`, `toString` and the spread copy.

Files:
- `wrappers.dfy`: the Option type.
- `strings.dfy`: decimal rendering, substring and case-insensitive search, split/join, character replacement.
- `json.dfy`: the JavaScript values.
- `sorting.dfy`: a stable descending sort with its permutation proof.
- `pagination.dfy`: skip/limit pages and the `ceil` page count.
- `audit_log.dfy`: the schema and the store class.
- `audit_logger.dfy`: the interceptor.
- `audit_query.dfy`: the query object and the four listings.
- `audit_stats.dfy`: the statistics.
- `audit_export.dfy`: the CSV.

The model follows the source's form:
- The classifier is made of functions.
- `extractResourceInfo`, `sanitizeBody` and the replacement `json` emitter are methods that fill their results step by step. Each is proved equal to a specification function, and the properties are proved about that function.
- The controller's query objects are built member by member in methods. Each method is proved to select exactly the rows a filter predicate describes.
- The store and the response are classes whose methods append to their fields.

## Model

| member | source | states |
|---|---|---|
| AuditLog.ParseAction | ems-backend/models/AuditLog.js:26-39 | the `action` column accepts exactly the nine names, and each accepted name denotes the one value whose name it is |
| AuditLog.ParseResourceType | ems-backend/models/AuditLog.js:40-43 | the `resourceType` column accepts exactly USER, TASK, DEPARTMENT, AUTH and SYSTEM, each as its own value |
| AuditLog.EnumerationsClosed | ems-backend/models/AuditLog.js:26-43 | there are exactly nine action names and five resource-type names; every value is listed and none is listed twice |
| AuditLog.Admit | ems-backend/models/AuditLog.js:4-81 | a draft is stored iff both enumerated fields hold listed names and the name is string-compatible; the stored row keeps every required field, keeps the nullable ones as given, and carries the generated id and creation time |
| AuditLog.AuditStore.Create | ems-backend/middleware/auditLogger.js:48-50 | a create appends exactly the admitted row when the write goes through; otherwise the table is unchanged |
| AuditLogger.DetermineAction | ems-backend/middleware/auditLogger.js:62-79 | `/login` in the path gives LOGIN whatever the method; `/logout` gives LOGOUT unless `/login` is also present; otherwise GET, POST, PUT/PATCH and DELETE map to READ, CREATE, UPDATE and DELETE, and any other method gives ACCESS; the result is always an action name and never EXPORT or PERMISSION_CHANGE |
| AuditLogger.DetermineResourceType | ems-backend/middleware/auditLogger.js:84-90 | the result is the type of the first of `/user`, `/task`, `/department`, `/auth` that occurs in the path, is always one of the five type names, and is SYSTEM iff no marker occurs |
| AuditLogger.CollectionPaths | ems-backend/middleware/auditLogger.js:85-86 | `/users…` paths are USER, a user's task path is still USER, and `/tasks…` is TASK when no `/user` occurs |
| AuditLogger.Sanitized | ems-backend/middleware/auditLogger.js:145-156 | a falsy body gives null; otherwise the copy holds exactly the body's own properties other than `password`, `token` and `secret`, each with its value |
| AuditLogger.SanitizeBody | ems-backend/middleware/auditLogger.js:145-156 | copying and then deleting the three keys one by one yields the sanitised body; the caller's body is a value and stays as it was |
| AuditLogger.SanitizeIdempotent | ems-backend/middleware/auditLogger.js:145-156 | sanitising a sanitised body changes nothing |
| AuditLogger.SanitizeIsCaseSensitive | ems-backend/middleware/auditLogger.js:151-153 | keys are compared with their exact case: `Password` and `TOKEN` survive while `password` is removed |
| AuditLogger.ExtractResourceInfo | ems-backend/middleware/auditLogger.js:95-140 | the successive overwrites compute the ordered-rule specification: id from the first present candidate, name from the first truthy one, and changes for updates |
| AuditLogger.FromResponse | ems-backend/middleware/auditLogger.js:108-132 | for a truthy payload the overwrites leave the id as the first present of the wrapped task's `_id`, `id`, `_id` and the path id, and the name as the first truthy of the list size, the tasks size, the task title, `name`, `title` and `email` |
| AuditLogger.NoResponseCandidates | ems-backend/middleware/auditLogger.js:103-108 | with a falsy payload only the path id can be the resource id, and the name stays null |
| AuditLogger.IdPrecedence | ems-backend/middleware/auditLogger.js:103-121 | a wrapped task's non-empty `_id` beats every other source; without it a truthy `id` wins, then a truthy `_id`, then the route's id; whenever the payload offers one of those ids the route's id plays no part |
| AuditLogger.ListNames | ems-backend/middleware/auditLogger.js:117-131 | a non-empty array payload is named "<n> records"; an empty one leaves the name null |
| AuditLogger.TaskListName | ems-backend/middleware/auditLogger.js:126-128 | any payload whose `tasks` property is an array is named "<n> tasks", whatever its other properties |
| AuditLogger.ChangesOnlyForUpdates | ems-backend/middleware/auditLogger.js:135-137 | `changes` is present only for PUT and PATCH, and for them it is the sanitised request body |
| AuditLogger.BuildAuditData | ems-backend/middleware/auditLogger.js:17-45 | a draft is built iff a user with an id is signed in; its action and resource type always lie in the enumerations; its changes and logged body never hold a deny-listed key |
| AuditLogger.RecordFields | ems-backend/middleware/auditLogger.js:26-45 | the user id is the caller's; a non-empty name or email is kept and an empty one becomes `Unknown`; the action and resource type are the classifier's results; the resource id, name and changes are the extractor's; the address is `IpAddress`; user agent, method, path, status and query are copied; the logged body is the sanitised one; the response time is the one measured |
| AuditLogger.BuiltRecordsAreAdmitted | ems-backend/middleware/auditLogger.js:26-50 | the schema refuses a built draft only when the extracted name is an array or an object |
| AuditLogger.AuditedJson | ems-backend/middleware/auditLogger.js:15-54 | the payload reaches the original emitter unchanged and the status code stays the same; the store gains exactly the admitted record of the built draft, or nothing |
| AuditLogger.IpAddress | ems-backend/middleware/auditLogger.js:36 | the framework's address when it is non-empty, otherwise the socket's address; missing only when both are |
| JsValues.Truthy | ems-backend/middleware/auditLogger.js:108-109 | the falsy values are exactly null, `false`, 0 and the empty string; every array and object is truthy |
| AuditLogger.UnauthenticatedCallsAreNotLogged | ems-backend/middleware/auditLogger.js:17 | a call without a signed-in identity leaves the log as it was |
| JsValues.Or | ems-backend/middleware/auditLogger.js:117 | `a \|\| b` is truthy iff either operand is, and is one of them |
| JsValues.ToStr | ems-backend/middleware/auditLogger.js:110-113 | a string is itself; a number is its decimal form, which reads back as the number; an object is `[object Object]`; a one-element array is its element's text |
| JsValues.OwnProps | ems-backend/middleware/auditLogger.js:148 | the spread copies an object's properties, an array's elements or a string's characters under their decimal indexes and nothing else, and nothing from null, a boolean or a number |
| AuditQuery.Find | ems-backend/controllers/auditController.js:48-54 | the store returns each stored row that satisfies every present member of the query exactly as often as it is stored, and no other row, so its length is what `countDocuments` counts |
| AuditQuery.Matching | ems-backend/controllers/auditController.js:23-44 | a row is selected iff it is stored, satisfies every present filter, and matches the search, and then as often as it is stored |
| AuditQuery.BuildFilterQuery | ems-backend/controllers/auditController.js:23-34 | the query built member by member matches a row iff the row satisfies every present filter: exact user, type and action, and inclusive date bounds; an empty parameter imposes nothing |
| AuditQuery.SearchBranchesMatch | ems-backend/controllers/auditController.js:37-44 | one of the four `$or` branches matches iff the user name, email, resource name or endpoint contains the search case-insensitively |
| AuditQuery.BuildListingQuery | ems-backend/controllers/auditController.js:22-44 | the listing's query matches a row iff the row satisfies the filters and the search |
| AuditQuery.FindMatching | ems-backend/controllers/auditController.js:48-49 | a query equivalent to the filters and search returns exactly the matching rows in store order |
| AuditQuery.NoFiltersSelectAll | ems-backend/controllers/auditController.js:23-44 | with no filter and no search every stored row is selected |
| AuditQuery.NewestFirst | ems-backend/controllers/auditController.js:50 | the rows are reordered, as a permutation, by decreasing creation time |
| AuditQuery.Paginate | ems-backend/controllers/auditController.js:46-61 | `totalCount` counts every selected row whatever the page; a page holds at most `limit` rows; `totalPages` is the least page count that holds them all |
| AuditQuery.PageIsSkipThenLimit | ems-backend/controllers/auditController.js:46-52 | the page is `.skip((page-1)*limit).limit(limit)` of the newest-first rows |
| AuditQuery.PageRows | ems-backend/controllers/auditController.js:46-52 | row i of a page is row `(page-1)*limit + i` of the newest-first selection |
| AuditQuery.PaginatePartition | ems-backend/controllers/auditController.js:46-61 | pages 1 to `totalPages`, laid end to end, are exactly the newest-first selection |
| AuditQuery.PaginateBounds | ems-backend/controllers/auditController.js:46-61 | a page past `totalPages` is empty rather than an error, and every page up to it has rows |
| AuditQuery.GetAuditLogs | ems-backend/controllers/auditController.js:9-62 | the listing is the paginated, newest-first set of rows that satisfy the filters and the search |
| AuditQuery.ListingSound | ems-backend/controllers/auditController.js:48-57 | every listed row is a stored row that satisfies the filters and the search |
| AuditQuery.ForResource | ems-backend/controllers/auditController.js:79-82 | a resource's rows are exactly those whose type is the upper-cased route type and whose id is the route id, each as often as it is stored |
| AuditQuery.FindForResource | ems-backend/controllers/auditController.js:79-82 | the store query built from the route selects exactly the resource's rows |
| AuditQuery.GetResourceAuditLogs | ems-backend/controllers/auditController.js:74-92 | the history is the newest `limit` rows of the resource (50 by default); `totalCount` is the number returned; the route's type and id are echoed |
| AuditQuery.ResourceTypeCaseInsensitive | ems-backend/controllers/auditController.js:80 | route types that upper-case alike select the same history |
| AuditQuery.ResourceHistoryComplete | ems-backend/controllers/auditController.js:79-85 | when the resource has no more rows than the limit, every one of them is returned |
| AuditQuery.ByUser | ems-backend/controllers/auditController.js:112-116 | a user's rows are exactly the stored rows with that user id, each as often as it is stored, so their number is the user's `countDocuments` |
| AuditQuery.FindByUser | ems-backend/controllers/auditController.js:112-116 | the `{ userId }` query selects exactly the user's rows |
| AuditQuery.UserPage | ems-backend/controllers/auditController.js:109-116 | the user's rows are paginated like the listing |
| AuditQuery.GetUserAuditLogs | ems-backend/controllers/auditController.js:104-130 | the answer is not-found iff the user does not exist, never an empty page instead; otherwise it is the user's page together with the user |
| AuditQuery.GetMyAuditLogs | ems-backend/controllers/auditController.js:257-275 | the caller's history is the caller's rows paginated like every listing |
| AuditQuery.OwnHistoryIsUserFilter | ems-backend/controllers/auditController.js:263 | the caller's own rows are the listing with only the user filter set to the caller |
| AuditStats.Since | ems-backend/controllers/auditController.js:156 | the window holds exactly the stored rows created at or after its start, each as often as it is stored, so its length is the `countDocuments` of the window |
| AuditStats.WindowStart | ems-backend/controllers/auditController.js:145-146 | the window starts no later than now iff the period is non-negative, and at least a day back for a period of at least one day |
| AuditStats.WindowWidens | ems-backend/controllers/auditController.js:145-156 | a longer period starts earlier and its window holds every row of the shorter one, as often, so it counts at least as many rows |
| AuditStats.SinceMonotone | ems-backend/controllers/auditController.js:156-183 | a later window start never selects more rows |
| AuditStats.TallyInvariant | ems-backend/controllers/auditController.js:161 | grouping gives one group per distinct key, each with the number of rows carrying that key |
| AuditStats.TallySum | ems-backend/controllers/auditController.js:161 | the group counts add up to the number of rows grouped |
| AuditStats.Breakdown | ems-backend/controllers/auditController.js:159-170 | the breakdown is sorted by count, largest first; its counts sum to the rows in the window; each count is its key's number of rows; every key present is listed, and exactly once |
| AuditStats.FirstOf | ems-backend/controllers/auditController.js:175 | the position found is that of the first row of the user in the window |
| AuditStats.TopUsers | ems-backend/controllers/auditController.js:172-178 | at most ten distinct users, by decreasing activity, each with its true number of rows in the window |
| AuditStats.TopUserNames | ems-backend/controllers/auditController.js:175 | each listed name is the one on the user's first row in store order; `$first` itself follows no sort, which "## Left out" records |
| AuditStats.TopUsersAreTheMostActive | ems-backend/controllers/auditController.js:172-178 | a user who is left out was no more active than anyone listed, and then the list is full |
| AuditStats.GetAuditStats | ems-backend/controllers/auditController.js:142-193 | over the window of the last `days` days (30 by default): `totalLogs` is the window's size, `recentActivity` the number of rows of the last 24 hours, the breakdowns are the window's action and resource-type breakdowns and `topUsers` its top users; both breakdowns sum to `totalLogs` and are sorted by count; `recentActivity` ≤ `totalLogs` for a window of at least one day; at most ten top users |
| AuditStats.RecentWithinWindow | ems-backend/controllers/auditController.js:181-183 | with one `now`, the last 24 hours lie inside any window of at least one day |
| AuditExport.NameField | ems-backend/controllers/auditController.js:233 | the resource name never contributes a comma; a missing or empty name becomes `N/A`; otherwise every comma becomes `;` and every other character is kept in place |
| AuditExport.StatusField | ems-backend/controllers/auditController.js:236 | the status is `N/A` exactly when it is missing or 0; a positive status is written in decimal and reads back as itself |
| AuditExport.CsvFields | ems-backend/controllers/auditController.js:227-238 | every row has the nine fields of the header, each holding the record's own value: the ISO timestamp of its creation time; its user name and email when non-empty; the names of its action and resource type, which parse back to them; its resource-name field; its endpoint; its address when non-empty, `N/A` when empty; its status field |
| AuditExport.CsvDefaults | ems-backend/controllers/auditController.js:228-236 | a missing name or email becomes `Unknown`; a missing resource name, address or status (or status 0) becomes `N/A`; action and type are enumeration names |
| AuditExport.Csv | ems-backend/controllers/auditController.js:226-241 | the document always starts with the fixed header line |
| AuditExport.EmptyExportIsHeader | ems-backend/controllers/auditController.js:226-241 | with no row the export is exactly the header line |
| AuditExport.ExportRows | ems-backend/controllers/auditController.js:207-223 | the first 10,000 of the newest-first rows that satisfy the filters (no search); each is a stored row satisfying the filters, in decreasing creation time |
| AuditExport.ExportComplete | ems-backend/controllers/auditController.js:220-222 | with at most 10,000 matching rows every one is exported; a matching row left out means the export is full and the row is no newer than any exported one |
| AuditExport.ExportAuditLogs | ems-backend/controllers/auditController.js:205-241 | the export is the header followed by one line per capped, newest-first filtered row |
| AuditExport.FieldsArePlain | ems-backend/controllers/auditController.js:227-238 | for a record whose free-text fields hold no comma or line break, no field of its row does either |
| AuditExport.RowSplitsIntoFields | ems-backend/controllers/auditController.js:238 | such a row splits back on commas into exactly its nine fields and holds no line break |
| AuditExport.ExportLines | ems-backend/controllers/auditController.js:220-241 | after the header, an export of such records splits into one line per row, so it has at most 10,000 lines |
| Strings.Upper | ems-backend/controllers/auditController.js:80 | upper-casing keeps the length, maps each ASCII letter to its capital and leaves no lower-case ASCII letter |
| Strings.ContainsIsInfix | ems-backend/middleware/auditLogger.js:63-64 | `s.includes(part)` holds iff s is part with some text before and after it; then part is no longer than s; every string includes the empty string |
| Strings.Lower | ems-backend/controllers/auditController.js:39-42 | lower-casing keeps the length, maps each ASCII capital to its small letter and leaves no upper-case ASCII letter |
| Strings.CaseInsensitiveSearch | ems-backend/controllers/auditController.js:39-42 | the `i` search gives the same answer when text and pattern are upper- or lower-cased first, and finds every exact occurrence |
| Strings.IntToDecimal | ems-backend/controllers/auditController.js:187 | the decimal form of an integer reads back as the integer, with a leading `-` for a negative one |
| Strings.ReplaceAll | ems-backend/controllers/auditController.js:233 | replacing one character changes exactly its occurrences and leaves none behind |
| Strings.SplitJoin | ems-backend/controllers/auditController.js:238-239 | splitting a join gives back the parts when no part holds the separator |
| Pagination.TotalPages | ems-backend/controllers/auditController.js:61 | `ceil(count/limit)`: the least page count whose pages hold every row |
| Pagination.PagesPartition | ems-backend/controllers/auditController.js:46-52 | pages 1 to `totalPages` of any sequence, concatenated, are the sequence |
| Sorting.SortDesc | ems-backend/controllers/auditController.js:50 | the result is sorted by decreasing key and is a permutation of the input |
| Sorting.SumBySort | ems-backend/controllers/auditController.js:162 | sorting does not change a sum over the elements |

## Left out

- Persistence is not modelled. `find`, `countDocuments`, `aggregate` and `create` are functions over the row sequence, and the table's indexes are not modelled.
- `populate('userId', 'name email role')` is not modelled. The rows are returned without the joined user.
- The controller calls a document-store query API (`find`, `countDocuments`, `aggregate`, `$regex`) on a model defined with a relational schema. The model gives these calls their document-store meaning, and the same applies to `findById` on the user model.
- A store failure, and therefore every `500` response, is out of scope. The only failure path kept is the write failure, which is the `reachable` parameter of `AuditStore.Create`.
- The asynchronous, not-awaited `create` and its logged error are not modelled. The interceptor emits the payload whether the write succeeds or not, and the write's outcome is a parameter. `Promise.all` is read as sequential queries on one store state.
- `createAuditLog` (ems-backend/middleware/auditLogger.js:161-167) is not modelled. It only awaits the store's create and swallows its error, which `AuditStore.Create` already covers.
- Strings.Upper, AuditQuery.ForResource: the route's resource type is upper-cased with ASCII case mapping only. JavaScript's `toUpperCase` also maps characters such as 'ſ' to 'S' and 'ı' to 'I', so a route type like `taſk` selects TASK rows in the code and none in the model.
- Strings.Lower, Strings.CaseInsensitiveSearch: search matches case-insensitive substrings, with ASCII case mapping only. The search text is not read as a regular expression, so metacharacters are treated as plain characters.
- Query-string numbers are not parsed. `page`, `limit` and `days` reach the model as integers, and `GetAuditLogs`, `UserPage`, `GetUserAuditLogs` and `GetMyAuditLogs` require a page and limit of at least 1, and `GetResourceAuditLogs`, which has no page, requires a limit of at least 1. Because of this, `parseInt` of non-numeric text (NaN), `limit=0` and negative pages are out of scope. The stats period renders the parsed number.
- Dates are not parsed. `startDate` and `endDate` are given as the instant they denote, so invalid dates are out of scope.
- Day arithmetic is approximate. `setDate(getDate() - days)` is modelled as `days * 86,400,000` ms, which ignores daylight-saving shifts.
- All clock readings are parameters: `Date.now()` and `new Date()` in the interceptor and in the stats, where one `now` serves both windows.
- The export's timestamp rendering is a parameter. `toISOString` is `iso: int -> string`.
- Response headers are not modelled: `Content-Type`, and `Content-Disposition` with its clock-based file name.
- Numbers in payloads are integers, so the string form of a fractional number is not modelled. An id that is an object with its own `toString`, such as a document id, is represented by its string form.
- `req.get('user-agent')` and `req.connection.remoteAddress` are request fields. The unused third argument of `determineAction` (the response payload) is dropped.
- AuditLog.Admit: models validation only for the enumerated columns and for the `resourceName` string column. It does not model the database's length limits, UUID format checks or the foreign key on `userId`.
- Equal timestamps are ordered stably. Rows with equal `createdAt` keep their store order, whereas the database leaves their order unspecified. Groups of equal count likewise keep their order of first appearance. `$first` in the top-users group follows no sort, so the database does not fix which row's name it takes; the model (`AuditStats.FirstOf`, `AuditStats.TopUserNames`) takes the user's first row in store order.
- The frontend is not modelled.

Notes on the code's own behaviour, which the model keeps:
- The classifier's path is whatever `req.path` holds when `res.json` is called. The interceptor is mounted for the whole application while the routers are mounted under prefixes, so inside a router that path is relative to the router's mount point (`/123` for `GET /api/tasks/123`). `AuditLogger.DetermineResourceType` and `AuditLogger.CollectionPaths` take the path as given and hold for whichever form it has.
- `sanitizeBody` removes only the exact keys `password`, `token` and `secret`. Variants that differ only in case are kept, as `AuditLogger.SanitizeIsCaseSensitive` shows.
- The export protects only the resource name. Commas and line breaks in the user name, email, endpoint or address pass through, so `AuditExport.RowSplitsIntoFields` and `AuditExport.ExportLines` hold only for records whose other free-text fields are plain.
- The interceptor never records LOGIN for a login request. The login call carries no signed-in identity, so `AuditLogger.UnauthenticatedCallsAreNotLogged` applies to it.
- The resource history's `totalCount` is the number of rows returned, not the number of rows about the resource.
