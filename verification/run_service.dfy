/** The agent's run lifecycle over the `scan_history` collection (one record per
    run) and the `run_logs` timeline: the reported status, starting a run, stopping
    it, and reading the timeline back. Time is whole seconds, passed in as `now`. */
module RunService {
  import opened Wrappers
  import opened Values
  import opened Sorting
  import opened DocStore
  import BaseRepository
  import ScanHistoryRepository
  import TimelineRepository

  /** A running run older than this many seconds is stale. */
  const StaleAfter := 3600

  const StaleError := "Run timed out (stale)"
  const AlreadyRunning := "Agent is already running"
  const NoActiveRun := "No active run to stop"
  const StoppedByUser := "Stopped by user"
  const StartedStep := "Agent started manually"
  const InitializingStep := "Initializing search parameters..."
  const StoppedStep := "Agent stopped by user"

  /** `get_last_run()`: the run with the latest started_at, whatever its status. */
  function LastRun(s: seq<Document>): Option<Document> {
    FindOneResult(s, ScanHistoryRepository.RunQuery("", ""), [SortSpec("started_at", -1)], map[])
  }

  /** `get_last_run(status="running")`. */
  function ActiveRun(s: seq<Document>): Option<Document> {
    FindOneResult(s, ScanHistoryRepository.RunQuery("running", ""), [SortSpec("started_at", -1)], map[])
  }

  predicate IsRunning(last: Option<Document>) {
    last.Some? && Get(last.value, "status", Null) == Str("running")
  }

  /** Seconds since the run started, when it carries a start time. */
  function Age(run: Document, now: int): Option<int> {
    var started := Get(run, "started_at", Null);
    if started.Date? then Some(now - started.t) else None
  }

  /** get_status's test: running, with a start time more than an hour ago. */
  predicate StatusSeesStale(last: Option<Document>, now: int) {
    IsRunning(last) && Age(last.value, now).Some? && Age(last.value, now).value > StaleAfter
  }

  /** start_run's test: running, with a start time less than an hour ago. */
  predicate StartBlocked(last: Option<Document>, now: int) {
    IsRunning(last) && Age(last.value, now).Some? && Age(last.value, now).value < StaleAfter
  }

  /** The status get_status reports for the latest run. */
  function StatusOf(last: Option<Document>, now: int): (status: string)
    ensures status == "running" || status == "idle"
    ensures status == "running" ==> IsRunning(last)
  {
    if IsRunning(last) && !StatusSeesStale(last, now) then "running" else "idle"
  }

  const StaleFields: Document := map["status" := Str("failed"), "error" := Str(StaleError)]

  /** The runs after the given run is rewritten as failed and stale. */
  function MarkStale(s: seq<Document>, run: Document): seq<Document> {
    UpdateFirst(s, BaseRepository.ById(Lookup(run, "_id")), StaleFields)
  }

  /** The stats stop_run passes to end_scan: the stop reason and the run's counters. */
  function StopStats(run: Document): (r: Document)
    ensures r.Keys == {"error", "jobs_found", "jobs_matched", "avg_score"}
    ensures r["error"] == Str(StoppedByUser)
    ensures r["jobs_found"] == Get(run, "jobs_found", Int(0))
    ensures r["jobs_matched"] == Get(run, "jobs_matched", Int(0))
    ensures r["avg_score"] == Get(run, "avg_score", Int(0))
  {
    map[
      "error" := Str(StoppedByUser),
      "jobs_found" := Get(run, "jobs_found", Int(0)),
      "jobs_matched" := Get(run, "jobs_matched", Int(0)),
      "avg_score" := Get(run, "avg_score", Int(0))
    ]
  }

  /** The user a stop is logged under: whatever the run stores under `user_id`
      (null included), or "system" when it has no such field. */
  function StopUser(run: Document): (user: Value)
    ensures "user_id" in run ==> user == run["user_id"]
    ensures "user_id" !in run ==> user == Str("system")
  {
    Get(run, "user_id", Str("system"))
  }

  /** One timeline item: the log's step, timestamp and metadata, null when absent. */
  function TimelineItem(log: Document): (item: Document)
    ensures item.Keys == {"step", "timestamp", "metadata"}
    ensures forall k :: k in item && k in log ==> item[k] == log[k]
    ensures forall k :: k in item && k !in log ==> item[k] == Null
  {
    map["step" := Get(log, "step", Null), "timestamp" := Get(log, "timestamp", Null),
        "metadata" := Get(log, "metadata", Null)]
  }

  class RunService {
    const history: FakeCollection
    const timeline: FakeCollection

    /** The two collections are distinct. */
    predicate Valid()
      reads this
    {
      history != timeline
    }

    constructor(history: FakeCollection, timeline: FakeCollection)
      requires history != timeline
      ensures this.history == history && this.timeline == timeline
      ensures Valid()
    {
      this.history := history;
      this.timeline := timeline;
    }

    /** `get_status()`: a stale running run is rewritten as failed first. */
    method GetStatus(now: int) returns (status: string)
      modifies history
      ensures status == StatusOf(LastRun(old(history.documents)), now)
      ensures var last := LastRun(old(history.documents));
        history.documents ==
          if StatusSeesStale(last, now) then MarkStale(old(history.documents), last.value)
          else old(history.documents)
    {
      ghost var runs := history.documents;
      var last := ScanHistoryRepository.GetLastRun(history, "", "", "started_at", -1);
      assert last == LastRun(runs);
      status := "idle";
      if last.Some? && Get(last.value, "status", Null) == Str("running") {
        var started := Get(last.value, "started_at", Null);
        if started.Date? && now - started.t > StaleAfter {
          assert StatusSeesStale(last, now);
          BaseRepository.Update(history, Lookup(last.value, "_id"), StaleFields);
          status := "idle";
        } else {
          assert !StatusSeesStale(last, now);
          status := "running";
        }
      } else {
        assert !IsRunning(last);
      }
    }

    /** `start_run(clerk_user_id, sources)`: refused while a fresh run is going;
        otherwise a running latest run is marked stale, a new run is recorded and
        two steps are logged for it. The fresh ids stand for the generated ones. */
    method StartRun(userId: string, sources: seq<string>, now: int,
                    runId: string, startedLogId: string, initLogId: string)
      returns (r: Result<Value>)
      requires Valid()
      modifies history, timeline
      ensures var last := LastRun(old(history.documents));
        StartBlocked(last, now) <==> r == Err(AlreadyRunning)
      ensures r.Err? ==> r == Err(AlreadyRunning)
      ensures r.Err? ==> history.documents == old(history.documents) && timeline.documents == old(timeline.documents)
      ensures r.Ok? ==> r.value == Str(runId)
      ensures r.Ok? ==>
        var last := LastRun(old(history.documents));
        var kept := if IsRunning(last) then MarkStale(old(history.documents), last.value) else old(history.documents);
        history.documents == kept + [NewRun(userId, sources, now, runId)]
      ensures r.Ok? ==>
        timeline.documents == old(timeline.documents) +
          [TimelineRepository.StepEntry(Str(userId), StartedStep, Str(runId), None, now)["_id" := Str(startedLogId)],
           TimelineRepository.StepEntry(Str(userId), InitializingStep, Str(runId), None, now)["_id" := Str(initLogId)]]
    {
      var last := ScanHistoryRepository.GetLastRun(history, "", "", "started_at", -1);
      if last.Some? && Get(last.value, "status", Null) == Str("running") {
        var started := Get(last.value, "started_at", Null);
        if started.Date? && now - started.t < StaleAfter {
          return Err(AlreadyRunning);
        }
        BaseRepository.Update(history, Lookup(last.value, "_id"), StaleFields);
      }
      var id := ScanHistoryRepository.StartScan(history, userId, sources, now, runId);
      LogStart(userId, id, now, startedLogId, initLogId);
      r := Ok(id);
    }

    /** The two steps start_run logs for a new run: started, then initializing. */
    method LogStart(userId: string, id: Value, now: int, startedLogId: string, initLogId: string)
      modifies timeline
      ensures timeline.documents == old(timeline.documents) +
        [TimelineRepository.StepEntry(Str(userId), StartedStep, id, None, now)["_id" := Str(startedLogId)],
         TimelineRepository.StepEntry(Str(userId), InitializingStep, id, None, now)["_id" := Str(initLogId)]]
    {
      ghost var logs := timeline.documents;
      ghost var started := TimelineRepository.StepEntry(Str(userId), StartedStep, id, None, now)["_id" := Str(startedLogId)];
      ghost var initializing := TimelineRepository.StepEntry(Str(userId), InitializingStep, id, None, now)["_id" := Str(initLogId)];
      TimelineRepository.AddStep(timeline, Str(userId), StartedStep, id, None, now, startedLogId);
      TimelineRepository.AddStep(timeline, Str(userId), InitializingStep, id, None, now, initLogId);
      assert timeline.documents == logs + [started] + [initializing] == logs + [started, initializing];
    }

    /** `stop_run()`: the latest running run becomes failed, "Stopped by user", with
        its counters kept, and the stop is logged under its user. */
    method StopRun(now: int, logId: string) returns (r: Result<()>)
      requires Valid()
      modifies history, timeline
      ensures ActiveRun(old(history.documents)).None? <==> r == Err(NoActiveRun)
      ensures r.Err? ==> r == Err(NoActiveRun)
      ensures r.Err? ==> history.documents == old(history.documents) && timeline.documents == old(timeline.documents)
      ensures r.Ok? ==>
        var run := ActiveRun(old(history.documents)).value;
        history.documents == UpdateFirst(old(history.documents), BaseRepository.ById(Lookup(run, "_id")),
                                         ScanHistoryRepository.EndFields("failed", now, StopStats(run))) &&
        timeline.documents == old(timeline.documents) +
          [TimelineRepository.StepEntry(StopUser(run), StoppedStep, Lookup(run, "_id"), None, now)["_id" := Str(logId)]]
    {
      var last := ScanHistoryRepository.GetLastRun(history, "running", "", "started_at", -1);
      if last.None? {
        return Err(NoActiveRun);
      }
      var run := last.value;
      ScanHistoryRepository.EndScan(history, Lookup(run, "_id"), StopStats(run), "failed", now);
      TimelineRepository.AddStep(timeline, StopUser(run), StoppedStep, Lookup(run, "_id"), None, now, logId);
      r := Ok(());
    }

    /** `get_last_completed_run()`: the completed run with the latest started_at. */
    method GetLastCompletedRun() returns (r: Option<Document>)
      ensures r.None? <==> forall d :: d in history.documents ==> !Matches(d, ScanHistoryRepository.RunQuery("completed", ""))
      ensures r.Some? ==>
        r.value in history.documents && Lookup(r.value, "status") == Str("completed") &&
        forall e :: e in history.documents && Lookup(e, "status") == Str("completed") ==>
          Le(Lookup(e, "started_at"), Lookup(r.value, "started_at"))
    {
      r := ScanHistoryRepository.GetLastRun(history, "completed", "", "started_at", -1);
      SingleKeyQuery("status", Str("completed"));
      assert ScanHistoryRepository.RunQuery("completed", "") == map["status" := Str("completed")];
    }

    /** `get_recent_runs(limit)`: newest started_at first, at most `limit`. */
    method GetRecentRuns(limit: int) returns (r: seq<Document>)
      ensures limit >= 0 ==> |r| <= limit
      ensures r == Prefix(Prefix(StableSort(Order(Field("started_at"), true),
                     Filter(history.documents, ScanHistoryRepository.RunQuery("", ""))), limit), limit)
    {
      r := ScanHistoryRepository.GetRecentRuns(history, limit, "", "started_at", -1);
    }
  }

  /** The run record start_run creates. */
  function NewRun(userId: string, sources: seq<string>, now: int, runId: string): Document {
    ScanHistoryRepository.ScanRecord(userId, sources, now)["_id" := Str(runId)]
  }

  /** `get_timeline(logs)`: one item per log, in the order the logs come. */
  method GetTimeline(logs: seq<Document>) returns (items: seq<Document>)
    ensures |items| == |logs|
    ensures forall i :: 0 <= i < |logs| ==> items[i] == TimelineItem(logs[i])
  {
    items := [];
    for i := 0 to |logs|
      invariant |items| == i
      invariant forall j :: 0 <= j < i ==> items[j] == TimelineItem(logs[j])
    {
      items := items + [TimelineItem(logs[i])];
    }
  }

  // ---- Properties of the lifecycle ----

  /** get_status reports "running" exactly for a running latest run that has no
      start time or started at most an hour ago. */
  lemma StatusRunningIff(last: Option<Document>, now: int)
    ensures StatusOf(last, now) == "running" <==>
      IsRunning(last) && (Age(last.value, now).None? || Age(last.value, now).value <= StaleAfter)
  {
  }

  /** Away from the boundary both tests agree: start_run is refused exactly when
      get_status would report "running". */
  lemma StartAgreesWithStatus(last: Option<Document>, now: int)
    requires last.Some? ==> Age(last.value, now).Some? && Age(last.value, now).value != StaleAfter
    ensures StartBlocked(last, now) <==> StatusOf(last, now) == "running"
  {
  }

  /** At exactly an hour, and for a running run with no start time, get_status
      says "running" while start_run goes ahead and overwrites the run. */
  lemma StatusAndStartDisagree(run: Document, now: int)
    requires IsRunning(Some(run))
    requires Age(run, now).None? || Age(run, now).value == StaleAfter
    ensures StatusOf(Some(run), now) == "running"
    ensures !StartBlocked(Some(run), now)
  {
  }

  /** Merging fields that do not name `key` leaves the value at `key` alone. */
  lemma MergeKeepsLookup(d: Document, fields: Document, key: string)
    requires key !in fields && '.' !in key
    ensures Lookup(Merge(d, fields), key) == Lookup(d, key)
  {
    if key in d {
      assert Merge(d, fields)[key] == d[key];
    } else {
      assert key !in Merge(d, fields);
    }
  }

  /** The stale rewrite keeps the run's start time and every other run. */
  lemma MarkStaleKeepsStart(s: seq<Document>, run: Document)
    ensures |MarkStale(s, run)| == |s|
    ensures forall j :: 0 <= j < |s| ==> Lookup(MarkStale(s, run)[j], "started_at") == Lookup(s[j], "started_at")
    ensures forall j :: 0 <= j < |s| && j != FirstMatch(s, BaseRepository.ById(Lookup(run, "_id"))) ==>
      MarkStale(s, run)[j] == s[j]
  {
    var q := BaseRepository.ById(Lookup(run, "_id"));
    var m := MarkStale(s, run);
    UpdateFirstOnlyFirst(s, q, StaleFields);
    var i := FirstMatch(s, q);
    if i >= 0 {
      StartNotStale();
      MergeKeepsLookup(s[i], StaleFields, "started_at");
    }
  }

  /** The stale rewrite does not touch the start time. */
  lemma StartNotStale()
    ensures "started_at" !in StaleFields && '.' !in "started_at"
  {
  }

  /** A run started after every recorded start is the latest run, and get_status
      then reports it as running. */
  lemma StartedRunIsReported(kept: seq<Document>, userId: string, sources: seq<string>, now: int, runId: string)
    requires forall d :: d in kept ==> !Le(Date(now), Lookup(d, "started_at"))
    ensures LastRun(kept + [NewRun(userId, sources, now, runId)]) == Some(NewRun(userId, sources, now, runId))
    ensures StatusOf(LastRun(kept + [NewRun(userId, sources, now, runId)]), now) == "running"
  {
    var e := NewRun(userId, sources, now, runId);
    NewRunFacts(userId, sources, now, runId);
    assert ScanHistoryRepository.RunQuery("", "") == map[];
    LatestAppended(kept, e);
  }

  /** A new run is running and started `now`. */
  lemma NewRunFacts(userId: string, sources: seq<string>, now: int, runId: string)
    ensures var e := NewRun(userId, sources, now, runId);
      Lookup(e, "started_at") == Date(now) && IsRunning(Some(e)) && !StatusSeesStale(Some(e), now)
  {
    var e := NewRun(userId, sources, now, runId);
    assert "started_at" in e && e["started_at"] == Date(now);
    assert "status" in e && e["status"] == Str("running");
  }

  /** A document appended after everything that started later than it is the
      one the newest-first find_one returns. */
  lemma LatestAppended(kept: seq<Document>, e: Document)
    requires forall d :: d in kept ==> !Le(Lookup(e, "started_at"), Lookup(d, "started_at"))
    ensures FindOneResult(kept + [e], map[], [SortSpec("started_at", -1)], map[]) == Some(e)
  {
    var s := kept + [e];
    EmptyQueryMatchesAll(e);
    FindOneByKey(s, map[], "started_at", -1);
    assert e in s;
    var r := FindOneResult(s, map[], [SortSpec("started_at", -1)], map[]);
    assert r.value in kept || r.value == e;
  }

  /** A successful start that had to clear a stale run leaves a latest run that is
      the new one, when the new start time is later than every recorded one. */
  lemma StartAfterStaleIsReported(s: seq<Document>, stale: Document, userId: string, sources: seq<string>,
                                  now: int, runId: string)
    requires forall d :: d in s ==> !Le(Date(now), Lookup(d, "started_at"))
    ensures StatusOf(LastRun(MarkStale(s, stale) + [NewRun(userId, sources, now, runId)]), now) == "running"
  {
    var m := MarkStale(s, stale);
    MarkStaleKeepsStart(s, stale);
    forall d | d in m
      ensures !Le(Date(now), Lookup(d, "started_at"))
    {
      var j :| 0 <= j < |m| && m[j] == d;
      assert s[j] in s;
    }
    StartedRunIsReported(m, userId, sources, now, runId);
  }

  /** What end_scan writes when a run is stopped: failed, the stop reason, and the
      run's own counters (0 when absent). */
  lemma StopFieldsFacts(run: Document, now: int)
    ensures var f := ScanHistoryRepository.EndFields("failed", now, StopStats(run));
      f["status"] == Str("failed") && f["error"] == Str(StoppedByUser) &&
      f["completed_at"] == Date(now) &&
      f["jobs_found"] == Get(run, "jobs_found", Int(0)) &&
      f["jobs_matched"] == Get(run, "jobs_matched", Int(0)) &&
      f["avg_score"] == Get(run, "avg_score", Int(0))
  {
  }
}
