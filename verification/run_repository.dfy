/** The `scan_runs` collection the job-scan service records runs in, and the
    `run_logs` collection of timeline entries. */
module RunRepository {
  import opened Wrappers
  import opened Values
  import opened Sorting
  import opened DocStore
  import BaseRepository
  import ScanHistoryRepository

  /** `get_recent_runs(limit)`: newest started_at first, at most `limit`. */
  method GetRecentRuns(c: FakeCollection, limit: int) returns (r: seq<Document>)
    ensures r == Latest(c.documents, map[], "started_at", limit)
    ensures limit >= 0 ==> |r| <= limit
    ensures forall d :: d in r ==> d in c.documents
    ensures forall i, j :: 0 <= i < j < |r| ==> Le(Lookup(r[j], "started_at"), Lookup(r[i], "started_at"))
  {
    r := FindSortedLimited(c, map[], "started_at", -1, limit);
    LatestIsTop(c.documents, map[], "started_at", limit);
  }

  /** `get_total_scanned()`: jobs_found summed over every completed run. */
  function TotalScanned(s: seq<Document>): int {
    ScanHistoryRepository.TotalScanned(s, "")
  }

  /** With no completed run the total is 0. */
  lemma TotalScannedNone(s: seq<Document>)
    ensures (forall d :: d in s ==> Lookup(d, "status") != Str("completed")) ==> TotalScanned(s) == 0
  {
    SingleKeyQuery("status", Str("completed"));
    assert ScanHistoryRepository.TotalQuery("") == map["status" := Str("completed")];
    ScanHistoryRepository.TotalScannedNone(s, "");
  }

  /** Recording a run adds its jobs_found to the total exactly when the run is
      completed and its count is an integer. */
  lemma TotalScannedAppend(s: seq<Document>, run: Document)
    ensures TotalScanned(s + [run]) ==
      TotalScanned(s) +
      (if Lookup(run, "status") == Str("completed") && Lookup(run, "jobs_found").Int?
       then Lookup(run, "jobs_found").i else 0)
  {
    ScanHistoryRepository.TotalScannedAppend(s, "", run);
    SingleKeyQuery("status", Str("completed"));
    assert ScanHistoryRepository.TotalQuery("") == map["status" := Str("completed")];
  }

  const CompletedOnly: Document := map["status" := Str("completed")]

  /** `get_last_completed_run()`: the first completed run in stored order (no sort
      is requested), or None when no run completed. */
  method GetLastCompletedRun(c: FakeCollection) returns (r: Option<Document>)
    ensures r.None? <==> forall d :: d in c.documents ==> Lookup(d, "status") != Str("completed")
    ensures r.Some? ==>
      r.value == c.documents[FirstMatch(c.documents, CompletedOnly)] &&
      Lookup(r.value, "status") == Str("completed")
  {
    r := BaseRepository.FindOne(c, CompletedOnly, [], map[]);
    SingleKeyQuery("status", Str("completed"));
    if r.Some? {
      FindOneUnsorted(c.documents, CompletedOnly);
    }
  }

  /** `get_last_run()`: the run with the greatest started_at, or None when there are none. */
  method GetLastRun(c: FakeCollection) returns (r: Option<Document>)
    ensures r.None? <==> c.documents == []
    ensures r.Some? ==>
      r.value in c.documents &&
      forall e :: e in c.documents ==> Le(Lookup(e, "started_at"), Lookup(r.value, "started_at"))
  {
    var results := FindSortedLimited(c, map[], "started_at", -1, 1);
    LatestIsTop(c.documents, map[], "started_at", 1);
    assert results == Latest(c.documents, map[], "started_at", 1);
    assert Filter(c.documents, map[]) == c.documents by {
      FilterAll(c.documents);
    }
    if results != [] {
      r := Some(results[0]);
      forall e | e in c.documents
        ensures Le(Lookup(e, "started_at"), Lookup(results[0], "started_at"))
      {
        if e == results[0] {
          LeRefl(Lookup(e, "started_at"));
        } else {
          assert e !in results;
        }
      }
    } else {
      r := None;
    }
  }

  /** `get_recent_logs(limit)`: newest timestamp first, at most `limit`. */
  method GetRecentLogs(c: FakeCollection, limit: int) returns (r: seq<Document>)
    ensures r == Latest(c.documents, map[], "timestamp", limit)
    ensures limit >= 0 ==> |r| <= limit
    ensures forall i, j :: 0 <= i < j < |r| ==> Le(Lookup(r[j], "timestamp"), Lookup(r[i], "timestamp"))
  {
    r := FindSortedLimited(c, map[], "timestamp", -1, limit);
    LatestIsTop(c.documents, map[], "timestamp", limit);
  }

  /** The entry add_log stores (before create adds its `_id`). */
  function LogEntry(step: string, runId: Value, metadata: Document, now: int): (r: Document)
    ensures r.Keys == {"step", "run_id", "timestamp", "metadata"}
    ensures r["step"] == Str(step) && r["run_id"] == runId && r["timestamp"] == Date(now)
    ensures r["metadata"] == Doc(metadata)
  {
    map["step" := Str(step), "run_id" := runId, "timestamp" := Date(now), "metadata" := Doc(metadata)]
  }

  /** `add_log(step, run_id, metadata)`: a missing `metadata` is `{}`, and `Null` stands for no run id. */
  method AddLog(c: FakeCollection, step: string, runId: Value, metadata: Document, now: int, freshId: string)
    modifies c
    ensures c.documents == old(c.documents) + [LogEntry(step, runId, metadata, now)["_id" := Str(freshId)]]
  {
    var id, stored := BaseRepository.Create(c, LogEntry(step, runId, metadata, now), freshId);
  }
}
