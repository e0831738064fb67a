/** The dashboard service: how long ago something happened, in words, and the
    dashboard's statistics with its feed of recent activity. */
module DashboardService {
  import opened Wrappers
  import opened Values
  import opened Text
  import opened Sorting
  import opened DocStore
  import JobRepository
  import ScanHistoryRepository

  const SecondsPerDay := 86400
  const SecondsPerHour := 3600
  const SecondsPerMinute := 60

  // ---- format_relative_time ----

  /** How long ago, in words, for a difference of `diff` seconds (now minus then),
      split as a `timedelta` splits it: whole days rounded down, and the seconds
      left within the day. */
  function RelativeTime(diff: int): (r: string)
    ensures 0 <= diff < 60 ==> r == "Just now"
    ensures 60 <= diff < 3600 ==> r == NatToString(diff / 60) + "m ago"
    ensures 3600 <= diff < 86400 ==> r == NatToString(diff / 3600) + "h ago"
    ensures diff >= 86400 ==> r == NatToString(diff / 86400) + "d ago"
  {
    var days := diff / SecondsPerDay;
    var seconds := diff % SecondsPerDay;
    if days > 0 then NatToString(days) + "d ago"
    else if seconds >= SecondsPerHour then NatToString(seconds / SecondsPerHour) + "h ago"
    else if seconds >= SecondsPerMinute then NatToString(seconds / SecondsPerMinute) + "m ago"
    else "Just now"
  }

  /** "Just now" is said exactly of a past or present time less than a minute ago,
      and of a future time less than a minute short of a whole number of days
      ahead; every other answer counts units "ago". */
  lemma JustNowExactly(diff: int)
    ensures RelativeTime(diff) == "Just now" <==> diff < SecondsPerDay && diff % SecondsPerDay < SecondsPerMinute
    ensures RelativeTime(diff) != "Just now" ==>
      |RelativeTime(diff)| > 4 && RelativeTime(diff)[|RelativeTime(diff)| - 4..] == " ago"
  {
    var r := RelativeTime(diff);
    if diff / SecondsPerDay > 0 || diff % SecondsPerDay >= SecondsPerMinute {
      var unit := if diff / SecondsPerDay > 0 then "d ago"
        else if diff % SecondsPerDay >= SecondsPerHour then "h ago" else "m ago";
      var n := if diff / SecondsPerDay > 0 then diff / SecondsPerDay
        else if diff % SecondsPerDay >= SecondsPerHour then diff % SecondsPerDay / SecondsPerHour
        else diff % SecondsPerDay / SecondsPerMinute;
      assert r == NatToString(n) + unit;
      assert r[|r| - 1] == 'o' != "Just now"[7];
      assert r[|r| - 4..] == unit[1..];
    }
  }

  /** A future time has a negative number of days, so it is described by the
      seconds left within its day: ten seconds ahead reads "23h ago". */
  lemma FutureTime(diff: int)
    requires diff < 0
    ensures RelativeTime(diff) == RelativeTime(diff % SecondsPerDay)
    ensures RelativeTime(-10) == "23h ago"
  {
    assert -10 % SecondsPerDay == 86390 && 86390 / SecondsPerHour == 23;
    assert NatToString(23) == "23" by {
      assert NatToString(2) == "2";
    }
  }

  /** `format_relative_time(timestamp)` at time `now`: "Unknown" for a falsy
      timestamp or a string the date parser rejects; a date or a parsed string is
      described by its distance from `now` (its offset is dropped, so the parser
      gives wall-clock seconds); any other value raises when its time zone is read. */
  function FormatRelativeTime(timestamp: Value, now: int, parseDate: string -> Option<int>): (r: Result<string>)
    ensures r.Err? <==> Truthy(timestamp) && !timestamp.Str? && !timestamp.Date?
    ensures r == Ok("Unknown") <==> !Truthy(timestamp) || (timestamp.Str? && IsoDate(timestamp, parseDate).None?)
    ensures timestamp.Date? ==> r == Ok(RelativeTime(now - timestamp.t))
    ensures Truthy(timestamp) && IsoDate(timestamp, parseDate).Some? ==>
      r == Ok(RelativeTime(now - IsoDate(timestamp, parseDate).value))
  {
    if !Truthy(timestamp) then Ok("Unknown")
    else if timestamp.Str? then
      var parsed := IsoDate(timestamp, parseDate);
      if parsed.None? then Ok("Unknown")
      else
        JustNowExactly(now - parsed.value);
        Ok(RelativeTime(now - parsed.value))
    else if timestamp.Date? then
      JustNowExactly(now - timestamp.t);
      Ok(RelativeTime(now - timestamp.t))
    else Err("'" + TypeName(timestamp) + "' object has no attribute 'tzinfo'")
  }

  /** Python's name for the type of a value. */
  function TypeName(v: Value): string {
    match v
    case Null => "NoneType"
    case Bool(_) => "bool"
    case Int(_) => "int"
    case Real(_) => "float"
    case Str(_) => "str"
    case Date(_) => "datetime"
    case List(_) => "list"
    case Doc(_) => "dict"
  }

  // ---- The activity feed ----

  /** The score from which a recent job appears in the feed. */
  const FeedMatchScore: real := 0.7
  /** How many recent jobs the feed looks at, and how many entries it keeps. */
  const FeedJobs := 3
  const FeedLength := 10

  /** One entry of the feed. */
  function Activity(kind: string, message: string, details: string, timestamp: Value, relativeTime: string): (a: Document)
    ensures "type" in a && a["type"] == Str(kind)
    ensures "timestamp" in a && a["timestamp"] == timestamp
  {
    map["type" := Str(kind), "message" := Str(message), "details" := Str(details),
        "timestamp" := timestamp, "relative_time" := Str(relativeTime)]
  }

  predicate Completed(run: Document) {
    Get(run, "status", Null) == Str("completed")
  }

  /** When a run happened: `completed_at`, or else `started_at`. */
  function RunTime(run: Document): Value {
    Or(Get(run, "completed_at", Null), Get(run, "started_at", Null))
  }

  /** The feed entry of a completed run. */
  function RunActivity(run: Document, now: int, parseDate: string -> Option<int>): (r: Result<Document>)
    ensures r.Ok? <==> FormatRelativeTime(RunTime(run), now, parseDate).Ok?
    ensures r.Ok? ==>
      "type" in r.value && r.value["type"] == Str("scan_completed") &&
      "timestamp" in r.value && r.value["timestamp"] == RunTime(run)
  {
    var relative :- FormatRelativeTime(RunTime(run), now, parseDate);
    Ok(Activity("scan_completed", "Job scan completed",
      "Found " + Display(Get(run, "jobs_found", Int(0))) + " jobs, matched " + Display(Get(run, "jobs_matched", Int(0))),
      RunTime(run), relative))
  }

  /** `job.get("match_score") and job.get("match_score") >= 0.7`: a boolean counts
      as 0 or 1, and comparing any other value that is not a number raises. */
  function IsHighMatch(job: Document): (r: Result<bool>)
    ensures var score := Get(job, "match_score", Null);
      (r.Err? <==> Truthy(score) && !IsNumber(score) && !score.Bool?) &&
      (r == Ok(true) <==> Truthy(score) && (score.Bool? || (IsNumber(score) && Num(score) >= FeedMatchScore)))
  {
    var score := Get(job, "match_score", Null);
    if !Truthy(score) then Ok(false)
    else if score.Bool? then Ok(true)
    else if IsNumber(score) then Ok(Num(score) >= FeedMatchScore)
    else Err("'>=' not supported between instances of '" + TypeName(score) + "' and 'float'")
  }

  /** `int(score * 100)`: truncated toward zero. */
  function Percent(score: Value): (p: int)
    requires IsNumber(score) || score.Bool?
    ensures IsNumber(score) && Num(score) >= 0.0 ==> p as real <= Num(score) * 100.0 < p as real + 1.0
  {
    if score.Bool? then (if score.b then 100 else 0)
    else if score.Int? then score.i * 100
    else if score.r >= 0.0 then (score.r * 100.0).Floor
    else -((-score.r * 100.0).Floor)
  }

  /** The feed entry of a recent job that scores high. */
  function JobActivity(job: Document, now: int, parseDate: string -> Option<int>): (r: Result<Document>)
    requires var score := Get(job, "match_score", Null); IsNumber(score) || score.Bool?
    ensures r.Ok? <==> FormatRelativeTime(Get(job, "created_at", Null), now, parseDate).Ok?
    ensures r.Ok? ==>
      "type" in r.value && r.value["type"] == Str("job_matched") &&
      "timestamp" in r.value && r.value["timestamp"] == Get(job, "created_at", Null)
  {
    var created := Get(job, "created_at", Null);
    var relative :- FormatRelativeTime(created, now, parseDate);
    Ok(Activity("job_matched", "New job match found",
      Display(Get(job, "title", Str("Unknown"))) + " at " + Display(Get(job, "company", Str("Unknown"))) +
        " (" + IntToString(Percent(Get(job, "match_score", Int(0)))) + "% match)",
      created, relative))
  }

  /** Where a feed entry comes from: a recent run or a recent job. */
  datatype Feeder = FromRuns | FromJobs

  /** The entry one run or job adds to the feed, if any. */
  function Entry(from: Feeder, item: Document, now: int, parseDate: string -> Option<int>): (r: Result<Option<Document>>)
    ensures from.FromRuns? ==>
      (r == Ok(None) <==> !Completed(item)) &&
      (r.Ok? && r.value.Some? ==>
        "type" in r.value.value && r.value.value["type"] == Str("scan_completed") &&
        "timestamp" in r.value.value && r.value.value["timestamp"] == RunTime(item))
    ensures from.FromJobs? ==>
      (r == Ok(None) <==> IsHighMatch(item) == Ok(false)) &&
      (r.Ok? && r.value.Some? ==>
        IsHighMatch(item) == Ok(true) &&
        "type" in r.value.value && r.value.value["type"] == Str("job_matched") &&
        "timestamp" in r.value.value && r.value.value["timestamp"] == Get(item, "created_at", Null))
  {
    match from
    case FromRuns =>
      if Completed(item) then
        var a :- RunActivity(item, now, parseDate);
        Ok(Some(a))
      else Ok(None)
    case FromJobs =>
      var high :- IsHighMatch(item);
      if high then
        var a :- JobActivity(item, now, parseDate);
        Ok(Some(a))
      else Ok(None)
  }

  /** The entries of a run of items, in their order; the first item whose entry
      raises makes the whole feed raise. */
  function Activities(from: Feeder, items: seq<Document>, now: int, parseDate: string -> Option<int>)
    : (r: Result<seq<Document>>)
  {
    if items == [] then Ok([])
    else
      var earlier :- Activities(from, items[..|items| - 1], now, parseDate);
      var entry :- Entry(from, items[|items| - 1], now, parseDate);
      Ok(if entry.Some? then earlier + [entry.value] else earlier)
  }

  /** The entries grow one item at a time. */
  lemma ActivitiesPrefix(from: Feeder, items: seq<Document>, k: nat, now: int, parseDate: string -> Option<int>)
    requires k <= |items|
    ensures k < |items| ==>
      var before := Activities(from, items[..k], now, parseDate);
      var entry := Entry(from, items[k], now, parseDate);
      Activities(from, items[..k + 1], now, parseDate) ==
        if before.Err? then before
        else if entry.Err? then Err(entry.error)
        else Ok(if entry.value.Some? then before.value + [entry.value.value] else before.value)
    ensures k == |items| ==> Activities(from, items[..k], now, parseDate) == Activities(from, items, now, parseDate)
  {
    if k < |items| {
      SliceStep(items, k, k + 1);
    } else {
      assert items[..k] == items;
    }
  }

  /** Once an entry raises, the rest of the items are not looked at. */
  lemma {:induction false} ActivitiesFailFast(from: Feeder, items: seq<Document>, k: nat, now: int,
                                              parseDate: string -> Option<int>)
    requires k <= |items| && Activities(from, items[..k], now, parseDate).Err?
    ensures Activities(from, items, now, parseDate) == Activities(from, items[..k], now, parseDate)
    decreases |items|
  {
    if k == |items| {
      assert items[..k] == items;
    } else {
      var init := items[..|items| - 1];
      assert init[..k] == items[..k];
      ActivitiesFailFast(from, init, k, now, parseDate);
    }
  }

  /** The entries raise exactly when some item's entry does, and then with the
      error of the first such item. */
  lemma {:induction false} ActivitiesErr(from: Feeder, items: seq<Document>, now: int, parseDate: string -> Option<int>)
    ensures var r := Activities(from, items, now, parseDate);
      r.Err? <==> exists i :: 0 <= i < |items| && Entry(from, items[i], now, parseDate).Err?
    ensures var r := Activities(from, items, now, parseDate);
      r.Err? ==> exists i :: FirstFailure(from, items, i, now, parseDate) && Entry(from, items[i], now, parseDate) == Err(r.error)
  {
    if items != [] {
      var m := |items| - 1;
      ActivitiesErr(from, items[..m], now, parseDate);
      ActivitiesErrStep(from, items, m, now, parseDate);
    }
  }

  lemma ActivitiesErrStep(from: Feeder, items: seq<Document>, m: nat, now: int, parseDate: string -> Option<int>)
    requires m + 1 == |items|
    requires var b := Activities(from, items[..m], now, parseDate);
      (b.Err? <==> exists i :: 0 <= i < m && Entry(from, items[..m][i], now, parseDate).Err?) &&
      (b.Err? ==> exists i :: FirstFailure(from, items[..m], i, now, parseDate) && Entry(from, items[..m][i], now, parseDate) == Err(b.error))
    ensures var r := Activities(from, items, now, parseDate);
      r.Err? <==> exists i :: 0 <= i < |items| && Entry(from, items[i], now, parseDate).Err?
    ensures var r := Activities(from, items, now, parseDate);
      r.Err? ==> exists i :: FirstFailure(from, items, i, now, parseDate) && Entry(from, items[i], now, parseDate) == Err(r.error)
  {
    assert |items| - 1 == m;
    var before := Activities(from, items[..m], now, parseDate);
    var r := Activities(from, items, now, parseDate);
    ErrGrow(from, items, m, before, r, now, parseDate);
  }

  /** The failure of the entries, one item later. */
  lemma ErrGrow(from: Feeder, items: seq<Document>, m: nat, before: Result<seq<Document>>, r: Result<seq<Document>>,
                now: int, parseDate: string -> Option<int>)
    requires m + 1 == |items|
    requires before.Err? ==> r == before
    requires before.Ok? ==> (r.Err? <==> Entry(from, items[m], now, parseDate).Err?)
    requires before.Ok? && r.Err? ==> r.error == Entry(from, items[m], now, parseDate).error
    requires before.Err? <==> exists i :: 0 <= i < m && Entry(from, items[..m][i], now, parseDate).Err?
    requires before.Err? ==> exists i :: FirstFailure(from, items[..m], i, now, parseDate) && Entry(from, items[..m][i], now, parseDate) == Err(before.error)
    ensures r.Err? <==> exists i :: 0 <= i < |items| && Entry(from, items[i], now, parseDate).Err?
    ensures r.Err? ==> exists i :: FirstFailure(from, items, i, now, parseDate) && Entry(from, items[i], now, parseDate) == Err(r.error)
  {
    var init := items[..m];
    assert forall i :: 0 <= i < m ==> init[i] == items[i];
    if before.Err? {
      var i :| FirstFailure(from, init, i, now, parseDate) && Entry(from, init[i], now, parseDate) == Err(before.error);
      assert FirstFailure(from, items, i, now, parseDate);
    } else if r.Err? {
      assert FirstFailure(from, items, m, now, parseDate);
    }
  }

  /** Item `i` is the first whose entry raises. */
  predicate FirstFailure(from: Feeder, items: seq<Document>, i: int, now: int, parseDate: string -> Option<int>) {
    0 <= i < |items| && Entry(from, items[i], now, parseDate).Err? &&
    forall j :: 0 <= j < i ==> Entry(from, items[j], now, parseDate).Ok?
  }

  /** Item `i` adds entry `a`. */
  predicate Adds(from: Feeder, items: seq<Document>, i: int, a: Document, now: int, parseDate: string -> Option<int>) {
    0 <= i < |items| && Entry(from, items[i], now, parseDate) == Ok(Some(a))
  }

  /** Without an error, the entries are those of the items that have one, and
      nothing else. */
  lemma {:induction false} ActivitiesOk(from: Feeder, items: seq<Document>, now: int, parseDate: string -> Option<int>)
    ensures var r := Activities(from, items, now, parseDate);
      r.Ok? ==> |r.value| <= |items| && forall a :: a in r.value <==> exists i :: Adds(from, items, i, a, now, parseDate)
  {
    if items != [] {
      var m := |items| - 1;
      ActivitiesOk(from, items[..m], now, parseDate);
      ActivitiesOkStep(from, items, m, now, parseDate);
    }
  }

  lemma ActivitiesOkStep(from: Feeder, items: seq<Document>, m: nat, now: int, parseDate: string -> Option<int>)
    requires m + 1 == |items|
    requires var b := Activities(from, items[..m], now, parseDate);
      b.Ok? ==> |b.value| <= m && forall a :: a in b.value <==> exists i :: Adds(from, items[..m], i, a, now, parseDate)
    ensures var r := Activities(from, items, now, parseDate);
      r.Ok? ==> |r.value| <= |items| && forall a :: a in r.value <==> exists i :: Adds(from, items, i, a, now, parseDate)
  {
    var init := items[..m];
    assert |items| - 1 == m;
    var before := Activities(from, init, now, parseDate);
    var entry := Entry(from, items[m], now, parseDate);
    var r := Activities(from, items, now, parseDate);
    if r.Ok? {
      assert before.Ok? && entry.Ok?;
      AddsGrow(from, items, m, before.value, entry.value, r.value, now, parseDate);
    }
  }

  /** The items that add an entry, one item later. */
  lemma AddsGrow(from: Feeder, items: seq<Document>, m: nat, before: seq<Document>, entry: Option<Document>,
                 after: seq<Document>, now: int, parseDate: string -> Option<int>)
    requires m + 1 == |items| && Entry(from, items[m], now, parseDate) == Ok(entry)
    requires after == if entry.Some? then before + [entry.value] else before
    requires forall a :: a in before <==> exists i :: Adds(from, items[..m], i, a, now, parseDate)
    ensures forall a :: a in after <==> exists i :: Adds(from, items, i, a, now, parseDate)
  {
    forall a | a in after
      ensures exists i :: Adds(from, items, i, a, now, parseDate)
    {
      AddedBySome(from, items, m, before, entry, after, a, now, parseDate);
    }
    forall a, i | Adds(from, items, i, a, now, parseDate)
      ensures a in after
    {
      AddedIn(from, items, m, before, entry, after, a, i, now, parseDate);
    }
  }

  lemma AddedBySome(from: Feeder, items: seq<Document>, m: nat, before: seq<Document>, entry: Option<Document>,
                    after: seq<Document>, a: Document, now: int, parseDate: string -> Option<int>)
    requires m + 1 == |items| && Entry(from, items[m], now, parseDate) == Ok(entry)
    requires after == if entry.Some? then before + [entry.value] else before
    requires a in before ==> exists i :: Adds(from, items[..m], i, a, now, parseDate)
    requires a in after
    ensures exists i :: Adds(from, items, i, a, now, parseDate)
  {
    if a in before {
      var i :| Adds(from, items[..m], i, a, now, parseDate);
      assert items[..m][i] == items[i];
      assert Adds(from, items, i, a, now, parseDate);
    } else {
      assert Adds(from, items, m, a, now, parseDate);
    }
  }

  lemma AddedIn(from: Feeder, items: seq<Document>, m: nat, before: seq<Document>, entry: Option<Document>,
                after: seq<Document>, a: Document, i: int, now: int, parseDate: string -> Option<int>)
    requires m + 1 == |items| && Entry(from, items[m], now, parseDate) == Ok(entry)
    requires after == if entry.Some? then before + [entry.value] else before
    requires Adds(from, items[..m], i, a, now, parseDate) ==> a in before
    requires Adds(from, items, i, a, now, parseDate)
    ensures a in after
  {
    if i < m {
      assert items[..m][i] == items[i];
      assert Adds(from, items[..m], i, a, now, parseDate);
    }
  }

  /** The feed order: newest timestamp first, a missing timestamp counting as the
      earliest date. */
  const FeedOrder := Order(FirstTruthy(["timestamp"], Null), true)

  /** The feed built from the recent runs and the recent jobs: the completed runs'
      entries, then those of the first three jobs that score high, sorted newest
      first (a stable sort) and cut to ten. */
  function Feed(runs: seq<Document>, jobs: seq<Document>, now: int, parseDate: string -> Option<int>)
    : Result<seq<Document>>
  {
    var fromRuns :- Activities(FromRuns, runs, now, parseDate);
    var fromJobs :- Activities(FromJobs, Prefix(jobs, FeedJobs), now, parseDate);
    Ok(Prefix(StableSort(FeedOrder, fromRuns + fromJobs), FeedLength))
  }

  /** The activity part of `get_stats`, on the recent runs and jobs it fetched. */
  method ActivityFeed(recentRuns: seq<Document>, recentJobs: seq<Document>, now: int, parseDate: string -> Option<int>)
    returns (r: Result<seq<Document>>)
    ensures r == Feed(recentRuns, recentJobs, now, parseDate)
  {
    var fromRuns := RunEntries(recentRuns, now, parseDate);
    if fromRuns.Err? {
      return Err(fromRuns.error);
    }
    var fromJobs := JobEntries(Prefix(recentJobs, FeedJobs), now, parseDate);
    if fromJobs.Err? {
      return Err(fromJobs.error);
    }
    var activity := fromRuns.value + fromJobs.value;
    activity := StableSort(FeedOrder, activity);
    activity := Prefix(activity, FeedLength);
    r := Ok(activity);
  }

  /** The loop over the recent runs: one entry per completed run. */
  method RunEntries(recentRuns: seq<Document>, now: int, parseDate: string -> Option<int>)
    returns (r: Result<seq<Document>>)
    ensures r == Activities(FromRuns, recentRuns, now, parseDate)
  {
    var activity: seq<Document> := [];
    for i := 0 to |recentRuns|
      invariant Activities(FromRuns, recentRuns[..i], now, parseDate) == Ok(activity)
    {
      ActivitiesPrefix(FromRuns, recentRuns, i, now, parseDate);
      var run := recentRuns[i];
      if Get(run, "status", Null) == Str("completed") {
        var entry := RunActivity(run, now, parseDate);
        if entry.Err? {
          ActivitiesFailFast(FromRuns, recentRuns, i + 1, now, parseDate);
          return Err(entry.error);
        }
        activity := activity + [entry.value];
      }
    }
    ActivitiesPrefix(FromRuns, recentRuns, |recentRuns|, now, parseDate);
    r := Ok(activity);
  }

  /** The loop over the first recent jobs: one entry per high-scoring job. */
  method JobEntries(jobs: seq<Document>, now: int, parseDate: string -> Option<int>)
    returns (r: Result<seq<Document>>)
    ensures r == Activities(FromJobs, jobs, now, parseDate)
  {
    var activity: seq<Document> := [];
    for j := 0 to |jobs|
      invariant Activities(FromJobs, jobs[..j], now, parseDate) == Ok(activity)
    {
      ActivitiesPrefix(FromJobs, jobs, j, now, parseDate);
      var job := jobs[j];
      var high := IsHighMatch(job);
      if high.Err? {
        ActivitiesFailFast(FromJobs, jobs, j + 1, now, parseDate);
        return Err(high.error);
      }
      if high.value {
        var entry := JobActivity(job, now, parseDate);
        if entry.Err? {
          ActivitiesFailFast(FromJobs, jobs, j + 1, now, parseDate);
          return Err(entry.error);
        }
        activity := activity + [entry.value];
      }
    }
    ActivitiesPrefix(FromJobs, jobs, |jobs|, now, parseDate);
    r := Ok(activity);
  }

  /** Every entry the feed could show: those of the completed runs, then those
      of the first three jobs. */
  function AllActivities(runs: seq<Document>, jobs: seq<Document>, now: int, parseDate: string -> Option<int>)
    : seq<Document>
    requires Feed(runs, jobs, now, parseDate).Ok?
  {
    Activities(FromRuns, runs, now, parseDate).value + Activities(FromJobs, Prefix(jobs, FeedJobs), now, parseDate).value
  }

  /** The feed holds at most ten entries, newest first, and an entry left out is
      no newer than any entry kept. */
  lemma FeedIsTop(runs: seq<Document>, jobs: seq<Document>, now: int, parseDate: string -> Option<int>)
    requires Feed(runs, jobs, now, parseDate).Ok?
    ensures var feed := Feed(runs, jobs, now, parseDate).value;
      |feed| <= FeedLength && SortedBy([FeedOrder], feed) &&
      forall a, x :: a in AllActivities(runs, jobs, now, parseDate) && a !in feed && x in feed ==> KeyLe(FeedOrder, x, a)
  {
    var all := AllActivities(runs, jobs, now, parseDate);
    var sorted := StableSort(FeedOrder, all);
    var feed := Prefix(sorted, FeedLength);
    assert feed == Feed(runs, jobs, now, parseDate).value;
    SortByOne(FeedOrder, all);
    SortByAllSorted([FeedOrder], all);
    TopOfSortedBy(FeedOrder, sorted, feed);
    forall a | a in all
      ensures a in sorted
    {
      assert a in multiset(sorted);
    }
  }

  /** Each feed entry is the entry of a completed recent run or of one of the
      first three recent jobs; with ten entries or fewer in all, every one is shown. */
  lemma FeedEntries(runs: seq<Document>, jobs: seq<Document>, now: int, parseDate: string -> Option<int>)
    requires Feed(runs, jobs, now, parseDate).Ok?
    ensures forall a :: a in Feed(runs, jobs, now, parseDate).value ==>
      (exists i :: Adds(FromRuns, runs, i, a, now, parseDate)) ||
      (exists i :: i < FeedJobs && Adds(FromJobs, jobs, i, a, now, parseDate))
    ensures |AllActivities(runs, jobs, now, parseDate)| <= FeedLength ==>
      multiset(Feed(runs, jobs, now, parseDate).value) == multiset(AllActivities(runs, jobs, now, parseDate))
  {
    var firstJobs := Prefix(jobs, FeedJobs);
    var fromRuns := Activities(FromRuns, runs, now, parseDate).value;
    var all := AllActivities(runs, jobs, now, parseDate);
    var sorted := StableSort(FeedOrder, all);
    var feed := Feed(runs, jobs, now, parseDate).value;
    assert feed == Prefix(sorted, FeedLength);
    ActivitiesOk(FromRuns, runs, now, parseDate);
    ActivitiesOk(FromJobs, firstJobs, now, parseDate);
    forall a | a in feed
      ensures (exists i :: Adds(FromRuns, runs, i, a, now, parseDate)) ||
        (exists i :: i < FeedJobs && Adds(FromJobs, jobs, i, a, now, parseDate))
    {
      assert a in multiset(sorted);
      assert a in all;
      if a !in fromRuns {
        var i :| Adds(FromJobs, firstJobs, i, a, now, parseDate);
        assert firstJobs[i] == jobs[i];
        assert Adds(FromJobs, jobs, i, a, now, parseDate);
      }
    }
  }

  // ---- get_stats ----

  datatype Stats = Stats(
    totalJobsScanned: int,
    matchedJobs: nat,
    applicationsSent: nat,
    pendingReviews: nat,
    averageMatchScore: Value,
    highMatchJobs: int)

  datatype Dashboard = Dashboard(
    stats: Stats,
    recentActivity: seq<Document>,
    topSources: seq<Document>,
    statusBreakdown: map<Value, Value>)

  /** The five most recently started runs, and the five most recently created jobs. */
  function RecentRuns(runs: seq<Document>): seq<Document> {
    Prefix(Prefix(StableSort(Order(Field("started_at"), true), Filter(runs, ScanHistoryRepository.RunQuery("", ""))), 5), 5)
  }

  function RecentJobs(jobs: seq<Document>): seq<Document> {
    Latest(jobs, map[], "created_at", 5)
  }

  /** The feed over the five latest runs and the five latest jobs. */
  method RecentActivity(jobs: FakeCollection, runs: FakeCollection, now: int, parseDate: string -> Option<int>)
    returns (r: Result<seq<Document>>)
    ensures r == Feed(RecentRuns(runs.documents), RecentJobs(jobs.documents), now, parseDate)
  {
    var recentRuns := ScanHistoryRepository.GetRecentRuns(runs, 5, "", "started_at", -1);
    var recentJobs := JobRepository.GetRecentJobs(jobs, 5);
    r := ActivityFeed(recentRuns, recentJobs, now, parseDate);
  }

  /** Rounding the average fails when the store reports it as null. */
  const RoundNullError := "type NoneType doesn't define __round__ method"

  /** `get_stats()` over the job collection and the run collection at time `now`.
      Pending reviews are the jobs still to look at: those matched plus those new.
      It fails when the feed fails, and otherwise when the average match score is null. */
  method GetStats(jobs: FakeCollection, runs: FakeCollection, now: int, parseDate: string -> Option<int>)
    returns (r: Result<Dashboard>)
    ensures var feed := Feed(RecentRuns(runs.documents), RecentJobs(jobs.documents), now, parseDate);
      var average := JobRepository.MatchScoreStats(jobs.documents).average;
      (r.Ok? <==> feed.Ok? && !average.Null?) &&
      (feed.Err? ==> r == Err(feed.error)) &&
      (feed.Ok? && average.Null? ==> r == Err(RoundNullError))
    ensures r.Ok? ==>
      var matched := JobRepository.CountByStatus(jobs.documents, "matched");
      var newJobs := JobRepository.CountByStatus(jobs.documents, "new");
      var scores := JobRepository.MatchScoreStats(jobs.documents);
      r.value.stats == Stats(ScanHistoryRepository.TotalScanned(runs.documents, ""), matched,
        JobRepository.CountByStatus(jobs.documents, "applied"), matched + newJobs, scores.average, scores.highMatchCount) &&
      r.value.recentActivity == Feed(RecentRuns(runs.documents), RecentJobs(jobs.documents), now, parseDate).value &&
      r.value.topSources == JobRepository.CountBySource(jobs.documents)
    ensures r.Ok? ==> forall k :: k in r.value.statusBreakdown <==>
      k in Prefix(JobRepository.GroupKeys(jobs.documents, "status"), 10)
    ensures r.Ok? ==> forall k :: k in r.value.statusBreakdown ==>
      r.value.statusBreakdown[k] == Int(JobRepository.CountWhere(jobs.documents, "status", k))
    ensures r.Ok? ==> |r.value.statusBreakdown.Keys| <= 10
  {
    var matchedCount := JobRepository.CountByStatus(jobs.documents, "matched");
    var appliedCount := JobRepository.CountByStatus(jobs.documents, "applied");
    var newCount := JobRepository.CountByStatus(jobs.documents, "new");
    var pendingReviews := matchedCount + newCount;
    var totalScanned := ScanHistoryRepository.TotalScanned(runs.documents, "");
    var scoreStats := JobRepository.MatchScoreStats(jobs.documents);
    var statusBreakdown := JobRepository.GetStatusBreakdown(jobs);
    var topSources := JobRepository.CountBySource(jobs.documents);
    var activity := RecentActivity(jobs, runs, now, parseDate);
    if activity.Err? {
      return Err(activity.error);
    }
    if scoreStats.average.Null? {
      return Err(RoundNullError);
    }
    var stats := Stats(totalScanned, matchedCount, appliedCount, pendingReviews, scoreStats.average, scoreStats.highMatchCount);
    r := Ok(Dashboard(stats, activity.value, topSources, statusBreakdown));
  }
}
