/**
 * The statistics endpoint: how many rows fall in a window of days, how they break down by
 * action and by resource type, the ten most active users, and the rows of the last day.
 * A group-by is modelled as a tally of keys in order of first appearance, then a stable
 * sort by count, largest first.
 */
module AuditStats {
  import opened Wrappers
  import opened Strings
  import opened AuditLog
  import opened Sorting
  import opened Pagination

  const DayMs := 86_400_000
  const DefaultDays := 30
  const TopUserLimit := 10

  // ---------------------------------------------------------------- windows

  /** The rows created at or after `start`, in store order. */
  function Since(logs: seq<AuditRecord>, start: int): (r: seq<AuditRecord>)
    ensures |r| <= |logs|
    ensures forall x :: x in r <==> x in logs && x.createdAt >= start
    ensures forall x :: multiset(r)[x] == if x.createdAt >= start then multiset(logs)[x] else 0
  {
    assert logs != [] ==> logs == [logs[0]] + logs[1..];
    if logs == [] then []
    else if logs[0].createdAt >= start then [logs[0]] + Since(logs[1..], start)
    else Since(logs[1..], start)
  }

  /** A later window start never selects more rows. */
  lemma {:induction false} SinceMonotone(logs: seq<AuditRecord>, early: int, late: int)
    requires early <= late
    ensures |Since(logs, late)| <= |Since(logs, early)|
  {
    if logs != [] {
      SinceMonotone(logs[1..], early, late);
    }
  }

  /** `now` minus `days` whole days: never after `now` for a non-negative period. */
  function WindowStart(now: int, days: int): (start: int)
    ensures start <= now <==> days >= 0
    ensures days >= 1 ==> start <= now - DayMs
  {
    now - days * DayMs
  }

  /** A longer period starts earlier, so its window holds every row of the shorter one. */
  lemma WindowWidens(logs: seq<AuditRecord>, now: int, shorter: int, longer: int)
    requires shorter <= longer
    ensures WindowStart(now, longer) <= WindowStart(now, shorter)
    ensures multiset(Since(logs, WindowStart(now, shorter))) <= multiset(Since(logs, WindowStart(now, longer)))
    ensures |Since(logs, WindowStart(now, shorter))| <= |Since(logs, WindowStart(now, longer))|
  {
    SinceMonotone(logs, WindowStart(now, longer), WindowStart(now, shorter));
  }

  // ---------------------------------------------------------------- group-by

  /** One `{ _id, count }` group. */
  datatype Bucket<K> = Bucket(key: K, count: nat)

  function CountOf<K>(b: Bucket<K>): int {
    b.count
  }

  /** How many times k occurs in keys. */
  function Occurrences<K(==)>(keys: seq<K>, k: K): nat {
    if keys == [] then 0
    else Occurrences(keys[..|keys| - 1], k) + (if keys[|keys| - 1] == k then 1 else 0)
  }

  lemma {:induction false} OccurrencesAbsent<K>(keys: seq<K>, k: K)
    requires k !in keys
    ensures Occurrences(keys, k) == 0
  {
    if keys != [] {
      assert forall j :: 0 <= j < |keys| - 1 ==> keys[..|keys| - 1][j] == keys[j];
      OccurrencesAbsent(keys[..|keys| - 1], k);
    }
  }

  /** Adds one occurrence of x: its bucket's count grows, or a new bucket is appended. */
  function Bump<K(==)>(bs: seq<Bucket<K>>, x: K): (r: seq<Bucket<K>>)
    ensures |r| == |bs| || |r| == |bs| + 1
  {
    if bs == [] then [Bucket(x, 1)]
    else if bs[0].key == x then [Bucket(x, bs[0].count + 1)] + bs[1..]
    else [bs[0]] + Bump(bs[1..], x)
  }

  /** The groups of keys, in order of first appearance, each with its size. */
  function Tally<K(==)>(keys: seq<K>): seq<Bucket<K>> {
    if keys == [] then [] else Bump(Tally(keys[..|keys| - 1]), keys[|keys| - 1])
  }

  predicate HasKey<K(==)>(bs: seq<Bucket<K>>, k: K) {
    exists i :: 0 <= i < |bs| && bs[i].key == k
  }

  predicate DistinctKeys<K(==)>(bs: seq<Bucket<K>>) {
    forall i, j :: 0 <= i < j < |bs| ==> bs[i].key != bs[j].key
  }

  /** Each group's count is the number of occurrences of its key. */
  predicate CountsMatch<K(==)>(bs: seq<Bucket<K>>, keys: seq<K>) {
    forall i :: 0 <= i < |bs| ==> bs[i].count == Occurrences(keys, bs[i].key)
  }

  lemma {:induction false} BumpSum<K>(bs: seq<Bucket<K>>, x: K)
    ensures SumBy(Bump(bs, x), CountOf) == SumBy(bs, CountOf) + 1
  {
    if bs != [] {
      if bs[0].key == x {
        assert ([Bucket(x, bs[0].count + 1)] + bs[1..])[1..] == bs[1..];
      } else {
        BumpSum(bs[1..], x);
        assert ([bs[0]] + Bump(bs[1..], x))[1..] == Bump(bs[1..], x);
      }
    }
  }

  lemma HasKeyCons<K>(b: Bucket<K>, bs: seq<Bucket<K>>, k: K)
    ensures HasKey([b] + bs, k) <==> b.key == k || HasKey(bs, k)
  {
    if HasKey([b] + bs, k) && b.key != k {
      var i :| 0 <= i < |[b] + bs| && ([b] + bs)[i].key == k;
      assert bs[i - 1].key == k;
    }
    if HasKey(bs, k) {
      var i :| 0 <= i < |bs| && bs[i].key == k;
      assert ([b] + bs)[i + 1].key == k;
    }
    if b.key == k {
      assert ([b] + bs)[0].key == k;
    }
  }

  /** The keys after a bump are the old keys and x. */
  lemma {:induction false} BumpKeys<K>(bs: seq<Bucket<K>>, x: K, k: K)
    ensures HasKey(Bump(bs, x), k) <==> HasKey(bs, k) || k == x
  {
    if bs == [] {
      HasKeyCons(Bucket(x, 1), [], k);
    } else {
      assert bs == [bs[0]] + bs[1..];
      HasKeyCons(bs[0], bs[1..], k);
      if bs[0].key == x {
        HasKeyCons(Bucket(x, bs[0].count + 1), bs[1..], k);
      } else {
        BumpKeys(bs[1..], x, k);
        HasKeyCons(bs[0], Bump(bs[1..], x), k);
      }
    }
  }

  /** A bump keeps the keys distinct and moves the counts from keys to keys + [x]. */
  lemma {:induction false} BumpCounts<K>(bs: seq<Bucket<K>>, keys: seq<K>, x: K)
    requires DistinctKeys(bs) && CountsMatch(bs, keys)
    requires x in keys ==> HasKey(bs, x)
    ensures DistinctKeys(Bump(bs, x)) && CountsMatch(Bump(bs, x), keys + [x])
  {
    var r := Bump(bs, x);
    assert (keys + [x])[..|keys|] == keys;
    if bs == [] {
      OccurrencesAbsent(keys, x);
    } else if bs[0].key == x {
      assert forall i :: 1 <= i < |r| ==> r[i] == bs[i];
    } else {
      var tail := bs[1..];
      assert forall i :: 0 <= i < |tail| ==> tail[i] == bs[i + 1];
      if x in keys {
        var i :| 0 <= i < |bs| && bs[i].key == x;
        assert tail[i - 1].key == x;
      }
      BumpCounts(tail, keys, x);
      assert forall i :: 1 <= i < |r| ==> r[i] == Bump(tail, x)[i - 1];
      forall j | 0 < j < |r|
        ensures r[0].key != r[j].key
      {
        var k := r[j].key;
        BumpKeys(tail, x, k);
        assert HasKey(Bump(tail, x), k);
        if HasKey(tail, k) {
          var m :| 0 <= m < |tail| && tail[m].key == k;
          assert bs[m + 1].key == k;
        }
      }
    }
  }

  lemma {:induction false} TallyInvariant<K>(keys: seq<K>)
    ensures DistinctKeys(Tally(keys)) && CountsMatch(Tally(keys), keys)
    ensures forall k :: HasKey(Tally(keys), k) <==> k in keys
  {
    if keys != [] {
      var init := keys[..|keys| - 1];
      var x := keys[|keys| - 1];
      TallyInvariant(init);
      assert init + [x] == keys;
      BumpCounts(Tally(init), init, x);
      forall k
        ensures HasKey(Tally(keys), k) <==> k in keys
      {
        BumpKeys(Tally(init), x, k);
      }
    }
  }

  lemma {:induction false} TallySum<K>(keys: seq<K>)
    ensures SumBy(Tally(keys), CountOf) == |keys|
  {
    if keys != [] {
      TallySum(keys[..|keys| - 1]);
      BumpSum(Tally(keys[..|keys| - 1]), keys[|keys| - 1]);
    }
  }

  /** `$group` then `$sort: { count: -1 }`: the groups of keys, largest first. */
  function Breakdown<K(==)>(keys: seq<K>): (r: seq<Bucket<K>>)
    ensures SortedDesc(r, CountOf)
    ensures SumBy(r, CountOf) == |keys|
    ensures forall i :: 0 <= i < |r| ==> r[i].count == Occurrences(keys, r[i].key) && r[i].key in keys
    ensures forall k :: k in keys ==> HasKey(r, k)
    ensures DistinctKeys(r)
  {
    var t := Tally(keys);
    TallyInvariant(keys);
    TallySum(keys);
    SumBySort(t, CountOf, CountOf);
    PermutedBuckets(t, SortDesc(t, CountOf), keys);
    PermutedDistinct(t, SortDesc(t, CountOf));
    SortDesc(t, CountOf)
  }

  /** Groups with distinct keys are distinct, so each occurs at most once. */
  lemma {:induction false} DistinctOnce<K>(t: seq<Bucket<K>>, x: Bucket<K>)
    requires DistinctKeys(t)
    ensures multiset(t)[x] <= 1
  {
    if t != [] {
      assert t == [t[0]] + t[1..];
      DistinctOnce(t[1..], x);
      if t[0] == x {
        assert x !in t[1..];
      }
    }
  }

  /** An element at two positions occurs at least twice. */
  lemma Twice<T>(r: seq<T>, i: int, j: int)
    requires 0 <= i < j < |r| && r[i] == r[j]
    ensures multiset(r)[r[i]] >= 2
  {
    assert r == r[..j] + [r[j]] + r[j + 1..];
    assert r[i] in r[..j];
  }

  /** A reordering of groups with distinct keys still has distinct keys. */
  lemma PermutedDistinct<K>(t: seq<Bucket<K>>, r: seq<Bucket<K>>)
    requires multiset(r) == multiset(t) && DistinctKeys(t)
    ensures DistinctKeys(r)
  {
    forall i, j | 0 <= i < j < |r|
      ensures r[i].key != r[j].key
    {
      assert r[i] in multiset(t) && r[j] in multiset(t);
      var p :| 0 <= p < |t| && t[p] == r[i];
      var q :| 0 <= q < |t| && t[q] == r[j];
      if r[i] == r[j] {
        Twice(r, i, j);
        DistinctOnce(t, r[i]);
      } else {
        assert p != q;
      }
    }
  }

  /** A reordering of the tally keeps every group's count and every key. */
  lemma PermutedBuckets<K>(t: seq<Bucket<K>>, r: seq<Bucket<K>>, keys: seq<K>)
    requires multiset(r) == multiset(t)
    requires CountsMatch(t, keys) && forall k :: HasKey(t, k) <==> k in keys
    ensures forall i :: 0 <= i < |r| ==> r[i].count == Occurrences(keys, r[i].key) && r[i].key in keys
    ensures forall k :: k in keys ==> HasKey(r, k)
  {
    forall i | 0 <= i < |r|
      ensures r[i].count == Occurrences(keys, r[i].key) && r[i].key in keys
    {
      assert r[i] in multiset(t);
      var j :| 0 <= j < |t| && t[j] == r[i];
    }
    forall k | k in keys
      ensures HasKey(r, k)
    {
      var j :| 0 <= j < |t| && t[j].key == k;
      assert t[j] in multiset(r);
      var i :| 0 <= i < |r| && r[i] == t[j];
    }
  }

  // ---------------------------------------------------------------- the endpoint

  function ActionKeys(window: seq<AuditRecord>): seq<string> {
    seq(|window|, i requires 0 <= i < |window| => ActionName(window[i].action))
  }

  function ResourceKeys(window: seq<AuditRecord>): seq<string> {
    seq(|window|, i requires 0 <= i < |window| => ResourceTypeName(window[i].resourceType))
  }

  function UserIds(window: seq<AuditRecord>): seq<string> {
    seq(|window|, i requires 0 <= i < |window| => window[i].userId)
  }

  /** The position of the first row of a user (`$first` follows the rows' order), or |window|. */
  function FirstOf(window: seq<AuditRecord>, userId: string): (i: nat)
    ensures i <= |window|
    ensures i < |window| ==> window[i].userId == userId
    ensures forall j :: 0 <= j < i ==> window[j].userId != userId
  {
    if window == [] then 0
    else if window[0].userId == userId then 0
    else 1 + FirstOf(window[1..], userId)
  }

  /** `{ userId, userName, activityCount }` */
  datatype UserActivity = UserActivity(userId: string, userName: string, activityCount: nat)

  /** One user's group as reported: the id, the name on the user's first row, the count. */
  function Activity(window: seq<AuditRecord>, b: Bucket<string>): (u: UserActivity)
    ensures u.userId == b.key && u.activityCount == b.count
  {
    var f := FirstOf(window, b.key);
    UserActivity(b.key, if f < |window| then window[f].userName else "", b.count)
  }

  /** Group by user with the first row's name, largest count first, at most ten. */
  function TopUsers(window: seq<AuditRecord>): (r: seq<UserActivity>)
    ensures |r| <= TopUserLimit
    ensures forall i, j :: 0 <= i < j < |r| ==> r[i].activityCount >= r[j].activityCount
    ensures forall i :: 0 <= i < |r| ==>
      r[i].userId in UserIds(window) && r[i].activityCount == Occurrences(UserIds(window), r[i].userId)
    ensures forall i, j :: 0 <= i < j < |r| ==> r[i].userId != r[j].userId
  {
    var b := Breakdown(UserIds(window));
    var top := Take(b, TopUserLimit);
    assert forall i :: 0 <= i < |top| ==> top[i] == b[i];
    seq(|top|, i requires 0 <= i < |top| => Activity(window, top[i]))
  }

  /** Each listed name is the one on that user's first row in the window. */
  lemma TopUserNames(window: seq<AuditRecord>, i: int)
    requires 0 <= i < |TopUsers(window)|
    ensures var f := FirstOf(window, TopUsers(window)[i].userId);
      f < |window| && TopUsers(window)[i].userName == window[f].userName
  {
    var u := TopUsers(window)[i].userId;
    var k :| 0 <= k < |UserIds(window)| && UserIds(window)[k] == u;
    assert window[k].userId == u;
  }

  /** The first ten groups of the user breakdown are the ones listed. */
  lemma TopUserAt(window: seq<AuditRecord>, j: int)
    requires 0 <= j < TopUserLimit && j < |Breakdown(UserIds(window))|
    ensures j < |TopUsers(window)| && TopUsers(window)[j].userId == Breakdown(UserIds(window))[j].key
    ensures TopUsers(window)[j].activityCount == Breakdown(UserIds(window))[j].count
  {
  }

  /** A user left out of the top list was no more active than anyone listed, and the list is full. */
  lemma TopUsersAreTheMostActive(window: seq<AuditRecord>, userId: string)
    requires userId in UserIds(window)
    requires forall i :: 0 <= i < |TopUsers(window)| ==> TopUsers(window)[i].userId != userId
    ensures |TopUsers(window)| == TopUserLimit
    ensures forall i :: 0 <= i < |TopUsers(window)| ==>
      Occurrences(UserIds(window), userId) <= TopUsers(window)[i].activityCount
  {
    var b := Breakdown(UserIds(window));
    var top := TopUsers(window);
    var j :| 0 <= j < |b| && b[j].key == userId;
    if j < TopUserLimit {
      TopUserAt(window, j);
      assert false;
    }
    assert |top| == TopUserLimit;
    forall i | 0 <= i < |top|
      ensures Occurrences(UserIds(window), userId) <= top[i].activityCount
    {
      TopUserAt(window, i);
      assert b[i].count >= b[j].count;
    }
  }

  /** The statistics body. */
  datatype Stats = Stats(
    period: string,
    totalLogs: nat,
    recentActivity: nat,
    actionBreakdown: seq<Bucket<string>>,
    resourceBreakdown: seq<Bucket<string>>,
    topUsers: seq<UserActivity>)

  /**
   * GET /api/audit/stats over the window of the last `days` days (30 when absent), with
   * the last 24 hours counted against the same `now`.
   */
  function GetAuditStats(logs: seq<AuditRecord>, now: int, days: Option<int>): (s: Stats)
    ensures s.totalLogs <= |logs| && s.recentActivity <= |logs|
    ensures SumBy(s.actionBreakdown, CountOf) == s.totalLogs
    ensures SumBy(s.resourceBreakdown, CountOf) == s.totalLogs
    ensures SortedDesc(s.actionBreakdown, CountOf) && SortedDesc(s.resourceBreakdown, CountOf)
    ensures days.GetOr(DefaultDays) >= 1 ==> s.recentActivity <= s.totalLogs
    ensures |s.topUsers| <= TopUserLimit
    ensures var window := Since(logs, WindowStart(now, days.GetOr(DefaultDays)));
      && s.totalLogs == |window| && s.recentActivity == |Since(logs, now - DayMs)|
      && s.actionBreakdown == Breakdown(ActionKeys(window))
      && s.resourceBreakdown == Breakdown(ResourceKeys(window))
      && s.topUsers == TopUsers(window)
  {
    var d := days.GetOr(DefaultDays);
    var window := Since(logs, WindowStart(now, d));
    var recent := Since(logs, now - DayMs);
    RecentWithinWindow(logs, now, d);
    Stats("Last " + IntToDecimal(d) + " days", |window|, |recent|,
          Breakdown(ActionKeys(window)), Breakdown(ResourceKeys(window)), TopUsers(window))
  }

  /** With one `now`, the last day lies inside any window of at least one day. */
  lemma RecentWithinWindow(logs: seq<AuditRecord>, now: int, days: int)
    ensures days >= 1 ==> |Since(logs, now - DayMs)| <= |Since(logs, WindowStart(now, days))|
  {
    if days >= 1 {
      SinceMonotone(logs, WindowStart(now, days), now - DayMs);
    }
  }
}
