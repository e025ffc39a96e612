/**
 * The read side of the audit trail: the query object the controller builds from the
 * request's query string, what the store returns for it, and the four listing
 * endpoints (all logs, one resource's history, one user's history, the caller's own).
 * The store is the sequence of rows in insertion order.
 */
module AuditQuery {
  import opened Wrappers
  import opened Strings
  import opened AuditLog
  import opened Sorting
  import opened Pagination

  // ---------------------------------------------------------------- the query object

  /** The `createdAt` condition: `$gte` and `$lte`, each optional. */
  datatype DateRange = DateRange(gte: Option<int>, lte: Option<int>)

  /** The four text columns the search looks in. */
  datatype TextField = UserNameField | UserEmailField | ResourceNameField | EndpointField

  /** One `{ field: { $regex: pattern, $options: 'i' } }` branch of `$or`. */
  datatype TextMatch = TextMatch(field: TextField, pattern: string)

  /** The query object; an absent member imposes no condition. */
  datatype Query = Query(
    userId: Option<string>,
    resourceType: Option<string>,
    resourceId: Option<string>,
    action: Option<string>,
    createdAt: Option<DateRange>,
    or: Option<seq<TextMatch>>)

  const EmptyQuery := Query(None, None, None, None, None, None)

  /** The value of a text column; a null column matches no pattern. */
  function FieldText(r: AuditRecord, field: TextField): Option<string> {
    match field
    case UserNameField => Some(r.userName)
    case UserEmailField => Some(r.userEmail)
    case ResourceNameField => r.resourceName
    case EndpointField => Some(r.endpoint)
  }

  /** A case-insensitive pattern without metacharacters matches where it occurs as a substring. */
  predicate TextMatches(m: TextMatch, r: AuditRecord) {
    FieldText(r, m.field).Some? && ContainsIgnoreCase(FieldText(r, m.field).value, m.pattern)
  }

  predicate InRange(range: DateRange, t: int) {
    (range.gte.None? || t >= range.gte.value) && (range.lte.None? || t <= range.lte.value)
  }

  /** How the store reads a query: every present member must hold, and one `$or` branch. */
  predicate Matches(q: Query, r: AuditRecord) {
    && (q.userId.None? || r.userId == q.userId.value)
    && (q.resourceType.None? || ResourceTypeName(r.resourceType) == q.resourceType.value)
    && (q.resourceId.None? || r.resourceId == q.resourceId)
    && (q.action.None? || ActionName(r.action) == q.action.value)
    && (q.createdAt.None? || InRange(q.createdAt.value, r.createdAt))
    && (q.or.None? || exists i :: 0 <= i < |q.or.value| && TextMatches(q.or.value[i], r))
  }

  /** `find(query)`: the matching rows, in store order. */
  function Find(logs: seq<AuditRecord>, q: Query): (r: seq<AuditRecord>)
    ensures |r| <= |logs|
    ensures forall x :: x in r <==> x in logs && Matches(q, x)
    ensures forall x :: multiset(r)[x] == if Matches(q, x) then multiset(logs)[x] else 0
  {
    assert logs != [] ==> logs == [logs[0]] + logs[1..];
    if logs == [] then []
    else if Matches(q, logs[0]) then [logs[0]] + Find(logs[1..], q)
    else Find(logs[1..], q)
  }

  // ---------------------------------------------------------------- what the filters mean

  /**
   * The query-string filters shared by the listing and the export. A string filter is
   * absent when it is missing or empty; a date is the instant the parameter denotes.
   */
  datatype Filters = Filters(
    userId: string,
    resourceType: string,
    action: string,
    startDate: Option<int>,
    endDate: Option<int>)

  const NoFilters := Filters("", "", "", None, None)

  /** Every present filter holds: exact matches, and inclusive bounds on `createdAt`. */
  predicate SatisfiesFilters(f: Filters, r: AuditRecord) {
    && (f.userId == "" || r.userId == f.userId)
    && (f.resourceType == "" || ResourceTypeName(r.resourceType) == f.resourceType)
    && (f.action == "" || ActionName(r.action) == f.action)
    && (f.startDate.None? || f.startDate.value <= r.createdAt)
    && (f.endDate.None? || r.createdAt <= f.endDate.value)
  }

  /** An empty search matches everything; otherwise the user name, email, resource name or endpoint contains it. */
  predicate MatchesSearch(search: string, r: AuditRecord) {
    || search == ""
    || ContainsIgnoreCase(r.userName, search)
    || ContainsIgnoreCase(r.userEmail, search)
    || (r.resourceName.Some? && ContainsIgnoreCase(r.resourceName.value, search))
    || ContainsIgnoreCase(r.endpoint, search)
  }

  /** The rows the listing selects, in store order. */
  function Matching(logs: seq<AuditRecord>, f: Filters, search: string): (r: seq<AuditRecord>)
    ensures forall x :: x in r <==> x in logs && SatisfiesFilters(f, x) && MatchesSearch(search, x)
    ensures forall x ::
              multiset(r)[x] == if SatisfiesFilters(f, x) && MatchesSearch(search, x) then multiset(logs)[x] else 0
  {
    assert logs != [] ==> logs == [logs[0]] + logs[1..];
    if logs == [] then []
    else if SatisfiesFilters(f, logs[0]) && MatchesSearch(search, logs[0]) then [logs[0]] + Matching(logs[1..], f, search)
    else Matching(logs[1..], f, search)
  }

  /** A query that selects exactly what the filters and search describe returns exactly those rows, in order. */
  lemma {:induction false} FindMatching(logs: seq<AuditRecord>, q: Query, f: Filters, search: string)
    requires forall r :: Matches(q, r) <==> SatisfiesFilters(f, r) && MatchesSearch(search, r)
    ensures Find(logs, q) == Matching(logs, f, search)
  {
    if logs != [] {
      FindMatching(logs[1..], q, f, search);
    }
  }

  /** With no filter and no search every row is selected. */
  lemma {:induction false} NoFiltersSelectAll(logs: seq<AuditRecord>)
    ensures Matching(logs, NoFilters, "") == logs
  {
    if logs != [] {
      NoFiltersSelectAll(logs[1..]);
      assert logs == [logs[0]] + logs[1..];
    }
  }

  /** Building the filter part of the query: one member per present parameter. */
  method BuildFilterQuery(f: Filters) returns (q: Query)
    ensures q.or.None? && q.resourceId.None?
    ensures forall r :: Matches(q, r) <==> SatisfiesFilters(f, r)
  {
    q := EmptyQuery;
    if f.userId != "" {
      q := q.(userId := Some(f.userId));
    }
    if f.resourceType != "" {
      q := q.(resourceType := Some(f.resourceType));
    }
    if f.action != "" {
      q := q.(action := Some(f.action));
    }
    if f.startDate.Some? || f.endDate.Some? {
      q := q.(createdAt := Some(DateRange(None, None)));
      if f.startDate.Some? {
        q := q.(createdAt := Some(q.createdAt.value.(gte := f.startDate)));
      }
      if f.endDate.Some? {
        q := q.(createdAt := Some(q.createdAt.value.(lte := f.endDate)));
      }
    }
  }

  /** The four `$or` branches of a search. */
  function SearchBranches(search: string): seq<TextMatch> {
    [ TextMatch(UserNameField, search), TextMatch(UserEmailField, search),
      TextMatch(ResourceNameField, search), TextMatch(EndpointField, search) ]
  }

  /** Some branch of a search matches exactly when the record matches the non-empty search. */
  lemma SearchBranchesMatch(search: string, r: AuditRecord)
    requires search != ""
    ensures (exists i :: 0 <= i < |SearchBranches(search)| && TextMatches(SearchBranches(search)[i], r))
      <==> MatchesSearch(search, r)
  {
    var b := SearchBranches(search);
    if MatchesSearch(search, r) {
      if ContainsIgnoreCase(r.userName, search) {
        assert TextMatches(b[0], r);
      } else if ContainsIgnoreCase(r.userEmail, search) {
        assert TextMatches(b[1], r);
      } else if r.resourceName.Some? && ContainsIgnoreCase(r.resourceName.value, search) {
        assert TextMatches(b[2], r);
      } else {
        assert TextMatches(b[3], r);
      }
    }
  }

  /** The listing's query: the filters, then `$or` over the four text columns when a search is given. */
  method BuildListingQuery(f: Filters, search: string) returns (q: Query)
    ensures forall r :: Matches(q, r) <==> SatisfiesFilters(f, r) && MatchesSearch(search, r)
  {
    q := BuildFilterQuery(f);
    if search != "" {
      q := q.(or := Some(SearchBranches(search)));
      forall r
        ensures Matches(q, r) <==> SatisfiesFilters(f, r) && MatchesSearch(search, r)
      {
        SearchBranchesMatch(search, r);
      }
    }
  }

  // ---------------------------------------------------------------- ordering and pages

  function CreatedAt(r: AuditRecord): int {
    r.createdAt
  }

  /** `.sort({ createdAt: -1 })`; rows with equal timestamps keep their store order. */
  function NewestFirst(logs: seq<AuditRecord>): (r: seq<AuditRecord>)
    ensures |r| == |logs|
    ensures forall i, j :: 0 <= i < j < |r| ==> r[i].createdAt >= r[j].createdAt
    ensures multiset(r) == multiset(logs)
  {
    var r := SortDesc(logs, CreatedAt);
    assert |r| == |multiset(r)| == |multiset(logs)| == |logs|;
    r
  }

  /** `page` and `limit` from the query string, absent when not given. */
  datatype Paging = Paging(page: Option<int>, limit: Option<int>)

  const DefaultLimit := 50

  function PageNumber(p: Paging): int {
    p.page.GetOr(1)
  }

  function PageLimit(p: Paging): int {
    p.limit.GetOr(DefaultLimit)
  }

  predicate ValidPaging(p: Paging) {
    PageNumber(p) >= 1 && PageLimit(p) >= 1
  }

  /** The paged listing body: `{ logs, totalCount, page, totalPages }`. */
  datatype LogPage = LogPage(logs: seq<AuditRecord>, totalCount: nat, page: int, totalPages: nat)

  /** The rows before the requested page: `(page - 1) * limit`. */
  function Skip(p: Paging): nat
    requires ValidPaging(p)
  {
    (PageNumber(p) - 1) * PageLimit(p)
  }

  /** Sort the selected rows, count them all, and cut out one page. */
  function Paginate(selected: seq<AuditRecord>, p: Paging): (r: LogPage)
    requires ValidPaging(p)
    ensures r.totalCount == |selected| && r.page == PageNumber(p)
    ensures |r.logs| <= PageLimit(p)
    ensures r.totalPages * PageLimit(p) >= r.totalCount
    ensures r.totalPages > 0 ==> (r.totalPages - 1) * PageLimit(p) < r.totalCount
  {
    LogPage(PageOf(NewestFirst(selected), PageNumber(p), PageLimit(p)), |selected|,
            PageNumber(p), TotalPages(|selected|, PageLimit(p)))
  }

  /** The i-th row of a page is the row `skip + i` of the sorted selection. */
  lemma PageRows(selected: seq<AuditRecord>, p: Paging, i: int)
    requires ValidPaging(p) && 0 <= i < |Paginate(selected, p).logs|
    ensures Skip(p) + i < |selected|
    ensures Paginate(selected, p).logs[i] == NewestFirst(selected)[Skip(p) + i]
  {
    PageIsSkipThenLimit(selected, p);
    var rest := Drop(NewestFirst(selected), Skip(p));
    assert Paginate(selected, p).logs[i] == rest[i];
  }

  /** The pages 1..totalPages of a listing, laid end to end, are the whole sorted selection. */
  lemma PaginatePartition(selected: seq<AuditRecord>, p: Paging)
    requires ValidPaging(p)
    ensures Pages(NewestFirst(selected), PageLimit(p), Paginate(selected, p).totalPages) == NewestFirst(selected)
  {
    PagesPartition(NewestFirst(selected), PageLimit(p));
  }

  /** A page past the last one is empty, not an error; every page up to the last has rows. */
  lemma PaginateBounds(selected: seq<AuditRecord>, p: Paging)
    requires ValidPaging(p)
    ensures PageNumber(p) > Paginate(selected, p).totalPages ==> Paginate(selected, p).logs == []
    ensures PageNumber(p) <= Paginate(selected, p).totalPages ==> Paginate(selected, p).logs != []
  {
    if PageNumber(p) > Paginate(selected, p).totalPages {
      PageBeyondLast(NewestFirst(selected), PageNumber(p), PageLimit(p));
    } else {
      PageWithinRangeNonEmpty(NewestFirst(selected), PageNumber(p), PageLimit(p));
    }
  }

  /** The page Paginate cuts out is `.skip(skip).limit(limit)` of the sorted rows. */
  lemma PageIsSkipThenLimit(selected: seq<AuditRecord>, p: Paging)
    requires ValidPaging(p)
    ensures Paginate(selected, p).logs == Take(Drop(NewestFirst(selected), Skip(p)), PageLimit(p))
  {
    PageOfSkip(NewestFirst(selected), PageNumber(p), PageLimit(p), Skip(p));
  }

  // ---------------------------------------------------------------- the endpoints

  /** GET /api/audit: filter, search, newest first, one page, and the total over all pages. */
  method GetAuditLogs(logs: seq<AuditRecord>, f: Filters, search: string, p: Paging) returns (res: LogPage)
    requires ValidPaging(p)
    ensures res == Paginate(Matching(logs, f, search), p)
  {
    var q := BuildListingQuery(f, search);
    var found := Find(logs, q);
    FindMatching(logs, q, f, search);
    assert found == Matching(logs, f, search);
    var totalCount := |found|;
    var page := Take(Drop(NewestFirst(found), Skip(p)), PageLimit(p));
    PageIsSkipThenLimit(found, p);
    res := LogPage(page, totalCount, PageNumber(p), TotalPages(totalCount, PageLimit(p)));
  }

  /** Every listed row is a stored row that satisfies the filters and the search. */
  lemma ListingSound(logs: seq<AuditRecord>, f: Filters, search: string, p: Paging, x: AuditRecord)
    requires ValidPaging(p)
    requires x in Paginate(Matching(logs, f, search), p).logs
    ensures x in logs && SatisfiesFilters(f, x) && MatchesSearch(search, x)
  {
    var selected := Matching(logs, f, search);
    var i :| 0 <= i < |Paginate(selected, p).logs| && Paginate(selected, p).logs[i] == x;
    PageRows(selected, p, i);
    assert x in multiset(NewestFirst(selected));
  }

  /** The resource-history body: `{ logs, totalCount, resourceType, resourceId }`. */
  datatype ResourceHistory = ResourceHistory(logs: seq<AuditRecord>, totalCount: nat, resourceType: string, resourceId: string)

  /** The rows about one resource; the type in the route is compared upper-cased. */
  function ForResource(logs: seq<AuditRecord>, resourceType: string, resourceId: string): (r: seq<AuditRecord>)
    ensures forall x :: x in r <==>
      x in logs && ResourceTypeName(x.resourceType) == Upper(resourceType) && x.resourceId == Some(resourceId)
    ensures forall x ::
              multiset(r)[x] == if ResourceTypeName(x.resourceType) == Upper(resourceType) && x.resourceId == Some(resourceId)
                                then multiset(logs)[x] else 0
  {
    assert logs != [] ==> logs == [logs[0]] + logs[1..];
    if logs == [] then []
    else if ResourceTypeName(logs[0].resourceType) == Upper(resourceType) && logs[0].resourceId == Some(resourceId)
    then [logs[0]] + ForResource(logs[1..], resourceType, resourceId)
    else ForResource(logs[1..], resourceType, resourceId)
  }

  /** The query `{ resourceType: type.toUpperCase(), resourceId }` selects the resource's rows. */
  lemma {:induction false} FindForResource(logs: seq<AuditRecord>, resourceType: string, resourceId: string)
    ensures Find(logs, EmptyQuery.(resourceType := Some(Upper(resourceType)), resourceId := Some(resourceId)))
         == ForResource(logs, resourceType, resourceId)
  {
    if logs != [] {
      FindForResource(logs[1..], resourceType, resourceId);
    }
  }

  /** GET /api/audit/resource/:type/:id: the newest `limit` rows; the count is of the rows returned. */
  method GetResourceAuditLogs(logs: seq<AuditRecord>, resourceType: string, resourceId: string, limit: Option<int>)
    returns (res: ResourceHistory)
    requires limit.GetOr(DefaultLimit) >= 1
    ensures res.logs == Take(NewestFirst(ForResource(logs, resourceType, resourceId)), limit.GetOr(DefaultLimit))
    ensures res.totalCount == |res.logs| <= limit.GetOr(DefaultLimit)
    ensures res.resourceType == resourceType && res.resourceId == resourceId
  {
    var q := EmptyQuery.(resourceType := Some(Upper(resourceType)), resourceId := Some(resourceId));
    FindForResource(logs, resourceType, resourceId);
    var found := Take(NewestFirst(Find(logs, q)), limit.GetOr(DefaultLimit));
    res := ResourceHistory(found, |found|, resourceType, resourceId);
  }

  /** The route's type is case-insensitive: `task`, `Task` and `TASK` name the same history. */
  lemma {:induction false} ResourceTypeCaseInsensitive(logs: seq<AuditRecord>, t1: string, t2: string, resourceId: string)
    requires Upper(t1) == Upper(t2)
    ensures ForResource(logs, t1, resourceId) == ForResource(logs, t2, resourceId)
  {
    if logs != [] {
      ResourceTypeCaseInsensitive(logs[1..], t1, t2, resourceId);
    }
  }

  /** When the history is shorter than the limit every row about the resource is returned. */
  lemma ResourceHistoryComplete(logs: seq<AuditRecord>, resourceType: string, resourceId: string, limit: int, x: AuditRecord)
    requires limit >= 1
    requires x in logs && ResourceTypeName(x.resourceType) == Upper(resourceType) && x.resourceId == Some(resourceId)
    requires |ForResource(logs, resourceType, resourceId)| <= limit
    ensures x in Take(NewestFirst(ForResource(logs, resourceType, resourceId)), limit)
  {
    var sorted := NewestFirst(ForResource(logs, resourceType, resourceId));
    assert x in multiset(sorted);
    assert Take(sorted, limit) == sorted;
  }

  /** The rows one user caused, in store order. */
  function ByUser(logs: seq<AuditRecord>, userId: string): (r: seq<AuditRecord>)
    ensures forall x :: x in r <==> x in logs && x.userId == userId
    ensures forall x :: multiset(r)[x] == if x.userId == userId then multiset(logs)[x] else 0
  {
    assert logs != [] ==> logs == [logs[0]] + logs[1..];
    if logs == [] then []
    else if logs[0].userId == userId then [logs[0]] + ByUser(logs[1..], userId)
    else ByUser(logs[1..], userId)
  }

  /** The query `{ userId }` selects the user's rows. */
  lemma {:induction false} FindByUser(logs: seq<AuditRecord>, userId: string)
    ensures Find(logs, EmptyQuery.(userId := Some(userId))) == ByUser(logs, userId)
  {
    if logs != [] {
      FindByUser(logs[1..], userId);
    }
  }

  /** The user profile returned with a user's history (`name email role`). */
  datatype UserProfile = UserProfile(name: string, email: string, role: string)

  /** The user-history outcome: 404 or the page together with the user. */
  datatype UserHistory = UserNotFound | UserHistory(page: LogPage, user: UserProfile)

  /** The paged rows of one user, as the user and self histories both compute them. */
  method UserPage(logs: seq<AuditRecord>, userId: string, p: Paging) returns (res: LogPage)
    requires ValidPaging(p)
    ensures res == Paginate(ByUser(logs, userId), p)
  {
    var q := EmptyQuery.(userId := Some(userId));
    FindByUser(logs, userId);
    var found := Find(logs, q);
    var page := Take(Drop(NewestFirst(found), Skip(p)), PageLimit(p));
    PageIsSkipThenLimit(found, p);
    res := LogPage(page, |found|, PageNumber(p), TotalPages(|found|, PageLimit(p)));
  }

  /** GET /api/audit/user/:userId: not found when the user does not exist, never an empty page instead. */
  method GetUserAuditLogs(logs: seq<AuditRecord>, users: map<string, UserProfile>, userId: string, p: Paging)
    returns (res: UserHistory)
    requires ValidPaging(p)
    ensures res.UserNotFound? <==> userId !in users
    ensures res.UserHistory? ==> res.page == Paginate(ByUser(logs, userId), p) && res.user == users[userId]
  {
    var page := UserPage(logs, userId, p);
    if userId !in users {
      return UserNotFound;
    }
    res := UserHistory(page, users[userId]);
  }

  /** GET /api/audit/me: the caller's own rows, paged like every other listing. */
  method GetMyAuditLogs(logs: seq<AuditRecord>, callerId: string, p: Paging) returns (res: LogPage)
    requires ValidPaging(p)
    ensures res == Paginate(ByUser(logs, callerId), p)
  {
    res := UserPage(logs, callerId, p);
  }

  /** The caller's own history is the listing filtered on their id alone. */
  lemma {:induction false} OwnHistoryIsUserFilter(logs: seq<AuditRecord>, callerId: string)
    requires callerId != ""
    ensures ByUser(logs, callerId) == Matching(logs, NoFilters.(userId := callerId), "")
  {
    if logs != [] {
      OwnHistoryIsUserFilter(logs[1..], callerId);
    }
  }
}
