/** The `scan_history` collection: one record per agent run, with its status,
    start and completion times, counters and owner. */
module ScanHistoryRepository {
  import opened Wrappers
  import opened Values
  import opened Sorting
  import opened DocStore
  import BaseRepository

  /** The record start_scan inserts (before create adds its `_id`). */
  function ScanRecord(userId: string, sources: seq<string>, now: int): (r: Document)
    ensures r.Keys == {"status", "started_at", "jobs_found", "jobs_matched", "avg_score", "user_id", "sources"}
    ensures r["status"] == Str("running") && r["started_at"] == Date(now)
    ensures r["jobs_found"] == Int(0) && r["jobs_matched"] == Int(0) && r["avg_score"] == Real(0.0)
    ensures r["user_id"] == Str(userId) && "_id" !in r
    ensures r["sources"].List? && |r["sources"].items| == |sources|
    ensures forall i :: 0 <= i < |sources| ==> r["sources"].items[i] == Str(sources[i])
  {
    map[
      "status" := Str("running"),
      "started_at" := Date(now),
      "jobs_found" := Int(0),
      "jobs_matched" := Int(0),
      "avg_score" := Real(0.0),
      "user_id" := Str(userId),
      "sources" := List(StrList(sources))
    ]
  }

  function StrList(xs: seq<string>): (r: seq<Value>)
    ensures |r| == |xs| && forall i :: 0 <= i < |xs| ==> r[i] == Str(xs[i])
  {
    if xs == [] then [] else [Str(xs[0])] + StrList(xs[1..])
  }

  /** `start_scan(user_id, sources)`: a missing `sources` is the empty list. */
  method StartScan(c: FakeCollection, userId: string, sources: seq<string>, now: int, freshId: string)
    returns (id: Value)
    modifies c
    ensures c.documents == old(c.documents) + [ScanRecord(userId, sources, now)["_id" := Str(freshId)]]
    ensures id == Str(freshId)
  {
    var stored;
    id, stored := BaseRepository.Create(c, ScanRecord(userId, sources, now), freshId);
  }

  /** The fields end_scan sets: status and completion time, overridden by `stats`. */
  function EndFields(status: string, now: int, stats: Document): (r: Document)
    ensures r.Keys == stats.Keys + {"status", "completed_at"}
    ensures "status" !in stats ==> r["status"] == Str(status)
    ensures "completed_at" !in stats ==> r["completed_at"] == Date(now)
    ensures forall k :: k in stats ==> r[k] == stats[k]
  {
    Merge(map["status" := Str(status), "completed_at" := Date(now)], stats)
  }

  /** `end_scan(scan_id, stats, status)`; callers that omit `status` pass "completed". */
  method EndScan(c: FakeCollection, scanId: Value, stats: Document, status: string, now: int)
    modifies c
    ensures c.documents == UpdateFirst(old(c.documents), BaseRepository.ById(scanId), EndFields(status, now, stats))
  {
    BaseRepository.Update(c, scanId, EndFields(status, now, stats));
  }

  function UserQuery(userId: string): Document {
    map["user_id" := Str(userId)]
  }

  /** `list_scans(user_id, limit, sort_by, sort_order)`: the user's scans, newest
      first, at most `limit`; `sortBy` and `sortOrder` take no part. */
  method ListScans(c: FakeCollection, userId: string, limit: int, sortBy: string, sortOrder: int)
    returns (r: seq<Document>)
    ensures r == BaseRepository.FindAllResult(c.documents, UserQuery(userId), limit, [SortSpec("started_at", -1)], map[])
    ensures limit >= 0 ==> |r| <= limit
    ensures forall x :: x in r ==> x in c.documents && Lookup(x, "user_id") == Str(userId)
    ensures forall i, j :: 0 <= i < j < |r| ==> Le(Lookup(r[j], "started_at"), Lookup(r[i], "started_at"))
  {
    r := BaseRepository.FindAll(c, UserQuery(userId), limit, [SortSpec("started_at", -1)], map[]);
    ListScansOwned(c.documents, userId, limit);
    ListScansNewestFirst(c.documents, userId, limit);
  }

  lemma ListScansOwned(s: seq<Document>, userId: string, limit: int)
    ensures var r := BaseRepository.FindAllResult(s, UserQuery(userId), limit, [SortSpec("started_at", -1)], map[]);
      forall x :: x in r ==> x in s && Lookup(x, "user_id") == Str(userId)
  {
    var q := UserQuery(userId);
    var r := BaseRepository.FindAllResult(s, q, limit, [SortSpec("started_at", -1)], map[]);
    BaseRepository.FindAllFacts(s, q, limit, [SortSpec("started_at", -1)], map[]);
    forall x | x in r
      ensures x in s && Lookup(x, "user_id") == Str(userId)
    {
      var d :| d in s && Matches(d, q) && x == Project(d, map[]);
      OwnedScan(d, userId);
    }
  }

  /** A scan the user query matches belongs to that user. */
  lemma OwnedScan(d: Document, userId: string)
    requires Matches(d, UserQuery(userId))
    ensures Project(d, map[]) == d && Lookup(d, "user_id") == Str(userId)
  {
    var q := UserQuery(userId);
    assert "user_id" in q && q["user_id"] == Str(userId);
    MatchedValue(d, q, "user_id");
  }

  lemma ListScansNewestFirst(s: seq<Document>, userId: string, limit: int)
    ensures var r := BaseRepository.FindAllResult(s, UserQuery(userId), limit, [SortSpec("started_at", -1)], map[]);
      forall i, j :: 0 <= i < j < |r| ==> Le(Lookup(r[j], "started_at"), Lookup(r[i], "started_at"))
  {
    var r := BaseRepository.FindAllResult(s, UserQuery(userId), limit, [SortSpec("started_at", -1)], map[]);
    BaseRepository.FindAllFacts(s, UserQuery(userId), limit, [SortSpec("started_at", -1)], map[]);
    assert Orders([SortSpec("started_at", -1)])[1..] == [];
    forall i, j | 0 <= i < j < |r|
      ensures Le(Lookup(r[j], "started_at"), Lookup(r[i], "started_at"))
    {
      assert LexLe(Orders([SortSpec("started_at", -1)]), r[i], r[j]);
    }
  }

  function CompletedQuery(userId: string): Document {
    map["user_id" := Str(userId), "status" := Str("completed")]
  }

  /** `get_last_completed_scan(user_id)`: the user's completed scan started last, or None. */
  method GetLastCompletedScan(c: FakeCollection, userId: string) returns (r: Option<Document>)
    ensures r == FindOneResult(c.documents, CompletedQuery(userId), [SortSpec("started_at", -1)], map[])
    ensures r.None? <==> forall d :: d in c.documents ==> !Matches(d, CompletedQuery(userId))
    ensures r.Some? ==>
      r.value in c.documents &&
      Lookup(r.value, "user_id") == Str(userId) && Lookup(r.value, "status") == Str("completed") &&
      forall e :: e in c.documents && Matches(e, CompletedQuery(userId)) ==>
        Le(Lookup(e, "started_at"), Lookup(r.value, "started_at"))
  {
    r := BaseRepository.FindOne(c, CompletedQuery(userId), [SortSpec("started_at", -1)], map[]);
    FindOneByKey(c.documents, CompletedQuery(userId), "started_at", -1);
    if r.Some? {
      MatchedValue(r.value, CompletedQuery(userId), "user_id");
      MatchedValue(r.value, CompletedQuery(userId), "status");
    }
  }

  /** The get_last_run / get_recent_runs filter: status and user only when given (truthy). */
  function RunQuery(status: string, userId: string): (q: Document)
    ensures "status" in q <==> status != ""
    ensures "user_id" in q <==> userId != ""
    ensures "status" in q ==> q["status"] == Str(status)
    ensures "user_id" in q ==> q["user_id"] == Str(userId)
    ensures q.Keys <= {"status", "user_id"}
  {
    var q := map[];
    var q := if status != "" then q["status" := Str(status)] else q;
    if userId != "" then q["user_id" := Str(userId)] else q
  }

  /** `get_last_run(status, user_id, sort_by, sort_order)`; "" stands for None. */
  method GetLastRun(c: FakeCollection, status: string, userId: string, sortBy: string, sortOrder: int)
    returns (r: Option<Document>)
    ensures r == FindOneResult(c.documents, RunQuery(status, userId), [SortSpec(sortBy, sortOrder)], map[])
    ensures r.None? <==> forall d :: d in c.documents ==> !Matches(d, RunQuery(status, userId))
    ensures r.Some? ==>
      r.value in c.documents && Matches(r.value, RunQuery(status, userId)) &&
      forall e :: e in c.documents && Matches(e, RunQuery(status, userId)) ==>
        if sortOrder == -1 then Le(Lookup(e, sortBy), Lookup(r.value, sortBy))
        else Le(Lookup(r.value, sortBy), Lookup(e, sortBy))
  {
    var query: Document := map[];
    if status != "" {
      query := query["status" := Str(status)];
    }
    if userId != "" {
      query := query["user_id" := Str(userId)];
    }
    assert query == RunQuery(status, userId);
    r := BaseRepository.FindOne(c, query, [SortSpec(sortBy, sortOrder)], map[]);
    FindOneByKey(c.documents, query, sortBy, sortOrder);
  }

  /** `get_recent_runs(limit, user_id, sort_by, sort_order)`. */
  method GetRecentRuns(c: FakeCollection, limit: int, userId: string, sortBy: string, sortOrder: int)
    returns (r: seq<Document>)
    ensures r == Prefix(Prefix(StableSort(Order(Field(sortBy), sortOrder == -1),
                   Filter(c.documents, RunQuery("", userId))), limit), limit)
    ensures userId != "" ==> forall x :: x in r ==> Lookup(x, "user_id") == Str(userId)
    ensures limit >= 0 ==> |r| <= limit
  {
    var query: Document := map[];
    if userId != "" {
      query := query["user_id" := Str(userId)];
    }
    assert query == RunQuery("", userId);
    r := FindSortedLimited(c, query, sortBy, sortOrder, limit);
    SortedLimitedMatch(c.documents, query, Order(Field(sortBy), sortOrder == -1), limit);
    forall x | x in r
      ensures userId != "" ==> Lookup(x, "user_id") == Str(userId)
    {
      if userId != "" {
        MatchedValue(x, query, "user_id");
      }
    }
  }

  /** `$sum` of `jobs_found`: integer values add up, others count as 0. */
  function JobsFoundSum(s: seq<Document>): int {
    if s == [] then 0
    else
      var v := Lookup(s[0], "jobs_found");
      (if v.Int? then v.i else 0) + JobsFoundSum(s[1..])
  }

  /** `get_total_scanned(user_id)`: the sum over completed runs (of that user when
      given); 0 when there are none. */
  function TotalScanned(s: seq<Document>, userId: string): int {
    JobsFoundSum(Filter(s, TotalQuery(userId)))
  }

  /** With no completed run (of that user, when a user is given) the total is 0. */
  lemma TotalScannedNone(s: seq<Document>, userId: string)
    ensures (forall d :: d in s ==> !Matches(d, TotalQuery(userId))) ==> TotalScanned(s, userId) == 0
  {
    if forall d :: d in s ==> !Matches(d, TotalQuery(userId)) {
      FilterNone(s, TotalQuery(userId));
    }
  }

  function TotalQuery(userId: string): Document {
    if userId != "" then map["status" := Str("completed"), "user_id" := Str(userId)]
    else map["status" := Str("completed")]
  }

  lemma {:induction false} JobsFoundSumAppend(a: seq<Document>, b: seq<Document>)
    ensures JobsFoundSum(a + b) == JobsFoundSum(a) + JobsFoundSum(b)
  {
    if a != [] {
      assert (a + b)[1..] == a[1..] + b;
      JobsFoundSumAppend(a[1..], b);
    } else {
      assert a + b == b;
    }
  }

  /** Recording a run adds its jobs_found to the total exactly when the run counts
      (completed, and the user's when a user is given); no runs total 0. */
  lemma TotalScannedAppend(s: seq<Document>, userId: string, run: Document)
    ensures TotalScanned([], userId) == 0
    ensures TotalScanned(s + [run], userId) ==
      TotalScanned(s, userId) +
      (if Matches(run, TotalQuery(userId)) && Lookup(run, "jobs_found").Int?
       then Lookup(run, "jobs_found").i else 0)
  {
    FilterAppend(s, [run], TotalQuery(userId));
    JobsFoundSumAppend(Filter(s, TotalQuery(userId)), Filter([run], TotalQuery(userId)));
  }
}
