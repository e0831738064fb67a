/** The job service: the set-up and bookkeeping of a job scan around the agent
    pipeline (which is a parameter here), the job listing with its query, date
    filters and sorting, and the not-found path of outreach generation. */
module JobService {
  import opened Wrappers
  import opened Values
  import opened Text
  import opened Sorting
  import opened DocStore
  import BaseRepository
  import JobRepository

  // ---- run_job_scan: keywords, sources, location ----

  const DefaultSources: seq<string> := ["google_jobs", "yc"]
  const DefaultLocation := "Remote"

  /** The items of a list value; any other value gives none. */
  function Items(v: Value): seq<Value> {
    if v.List? then v.items else []
  }

  /** The search keywords, and the caller's keyword list after the call: a
      non-empty list passed in is the very list that gets extended. */
  datatype KeywordSetup = KeywordSetup(search: seq<Value>, callerKeywords: Option<seq<Value>>)

  /** `keywords or []`, extended with the profile's keywords, and with its skills
      only when no keywords were passed, then de-duplicated. */
  function SearchKeywords(keywords: Option<seq<Value>>, profile: Document): (r: KeywordSetup)
    ensures var explicit := keywords.Some? && keywords.value != [];
      forall x :: x in r.search <==>
        (explicit && x in keywords.value) ||
        (Truthy(Get(profile, "keywords", Null)) && x in Items(profile["keywords"])) ||
        (!explicit && Truthy(Get(profile, "skills", Null)) && x in Items(profile["skills"]))
    ensures forall i, j :: 0 <= i < j < |r.search| ==> r.search[i] != r.search[j]
    ensures var explicit := keywords.Some? && keywords.value != [];
      (explicit ==> r.callerKeywords == Some(
        if Truthy(Get(profile, "keywords", Null)) then keywords.value + Items(profile["keywords"]) else keywords.value)) &&
      (!explicit ==> r.callerKeywords == keywords)
  {
    var explicit := keywords.Some? && keywords.value != [];
    var base := if explicit then keywords.value else [];
    var withKeywords := if Truthy(Get(profile, "keywords", Null)) then base + Items(profile["keywords"]) else base;
    var withSkills :=
      if Truthy(Get(profile, "skills", Null)) && !explicit then withKeywords + Items(profile["skills"])
      else withKeywords;
    KeywordSetup(Dedup(withSkills), if explicit then Some(withKeywords) else keywords)
  }

  /** `sources or ["google_jobs", "yc"]`. */
  function ScanSources(sources: seq<string>): (r: seq<string>)
    ensures r != []
    ensures sources != [] ==> r == sources
  {
    if sources == [] then DefaultSources else sources
  }

  /** `location or profile.get("preferences", {}).get("location", "Remote")`; the
      lookup raises when the preferences are not a dictionary. */
  function ScanLocation(location: Option<string>, profile: Document): (r: Result<Value>)
    ensures location.Some? && location.value != "" ==> r == Ok(Str(location.value))
    ensures !(location.Some? && location.value != "") ==>
      (r.Ok? <==> Get(profile, "preferences", Doc(map[])).Doc?) &&
      (r.Ok? ==> r.value == Get(Get(profile, "preferences", Doc(map[])).fields, "location", Str(DefaultLocation)))
  {
    if location.Some? && location.value != "" then Ok(Str(location.value))
    else
      var preferences := Get(profile, "preferences", Doc(map[]));
      if preferences.Doc? then Ok(Get(preferences.fields, "location", Str(DefaultLocation)))
      else Err("'preferences' object has no attribute 'get'")
  }

  /** The initial pipeline state the scan builds. */
  datatype ScanSetup = ScanSetup(
    userProfile: Document,
    userId: string,
    sourcesUsed: seq<string>,
    matchThreshold: real,
    scanRunId: Option<string>,
    keywords: seq<Value>,
    location: Value)

  /** What the pipeline did: the numbers of raw and of matched jobs, or the message
      of the exception it raised. */
  datatype PipelineOutcome = Completed(rawJobs: nat, matchedJobs: nat) | Failed(message: string)

  /** The fields written to the run record once the pipeline is over. */
  function RunFields(outcome: PipelineOutcome, now: int): (fields: Document)
    ensures "completed_at" in fields && fields["completed_at"] == Date(now)
    ensures outcome.Completed? ==>
      fields == map["status" := Str("completed"), "completed_at" := Date(now),
        "jobs_found" := Int(outcome.rawJobs), "jobs_matched" := Int(outcome.matchedJobs)]
    ensures outcome.Failed? ==>
      fields == map["status" := Str("failed"), "completed_at" := Date(now), "error" := Str(outcome.message)]
  {
    match outcome
    case Completed(raw, matched) =>
      map["status" := Str("completed"), "completed_at" := Date(now),
        "jobs_found" := Int(raw), "jobs_matched" := Int(matched)]
    case Failed(message) =>
      map["status" := Str("failed"), "completed_at" := Date(now), "error" := Str(message)]
  }

  /** The run record is written only with a database and a run id. */
  predicate Recorded(hasDb: bool, scanRunId: Option<string>) {
    hasDb && scanRunId.Some? && scanRunId.value != ""
  }

  /** `run_job_scan`: `runs` is the run collection, `hasDb` whether the service has
      a database, `pipeline` the agent pipeline run on the initial state. The
      set-up fails (raising before the pipeline starts) only when the location
      lookup does; otherwise the pipeline's outcome is recorded on the run, and
      its error, if any, is the state's only error. */
  method RunJobScan(runs: FakeCollection, hasDb: bool, profile: Document, userId: string, sources: seq<string>,
                    threshold: real, keywords: Option<seq<Value>>, location: Option<string>, scanRunId: Option<string>,
                    pipeline: ScanSetup -> PipelineOutcome, now: int)
    returns (setup: Result<ScanSetup>, errors: seq<string>)
    modifies runs
    ensures setup.Err? <==> ScanLocation(location, profile).Err?
    ensures setup.Ok? ==>
      setup.value == ScanSetup(profile, userId, ScanSources(sources), threshold, scanRunId,
        SearchKeywords(keywords, profile).search, ScanLocation(location, profile).value)
    ensures setup.Ok? && pipeline(setup.value).Failed? ==> errors == [pipeline(setup.value).message]
    ensures setup.Err? || pipeline(setup.value).Completed? ==> errors == []
    ensures setup.Ok? && Recorded(hasDb, scanRunId) ==>
      runs.documents == UpdateFirst(old(runs.documents),
        BaseRepository.ById(Str(scanRunId.value)), RunFields(pipeline(setup.value), now))
    ensures setup.Err? || !Recorded(hasDb, scanRunId) ==> runs.documents == old(runs.documents)
  {
    var search := SearchKeywords(keywords, profile);
    var place := ScanLocation(location, profile);
    if place.Err? {
      return Err(place.error), [];
    }
    var state := ScanSetup(profile, userId, ScanSources(sources), threshold, scanRunId, search.search, place.value);
    setup := Ok(state);
    var outcome := pipeline(state);
    errors := if outcome.Failed? then [outcome.message] else [];
    if hasDb && scanRunId.Some? && scanRunId.value != "" {
      BaseRepository.Update(runs, Str(scanRunId.value), RunFields(outcome, now));
    }
  }

  /** A recorded run ends completed with the pipeline's counts, or failed with its
      error; its other fields and every other run are kept. */
  lemma RecordedRun(s: seq<Document>, id: string, outcome: PipelineOutcome, now: int, k: nat)
    requires k < |s| && Lookup(s[k], "_id") == Str(id)
    ensures var r := UpdateFirst(s, BaseRepository.ById(Str(id)), RunFields(outcome, now));
      var i := FirstMatch(s, BaseRepository.ById(Str(id)));
      0 <= i <= k && |r| == |s| && Lookup(s[i], "_id") == Str(id) &&
      r[i] == Merge(s[i], RunFields(outcome, now)) &&
      (forall j :: 0 <= j < |s| && j != i ==> r[j] == s[j])
  {
    SingleKeyQuery("_id", Str(id));
    assert Matches(s[k], BaseRepository.ById(Str(id)));
    UpdateFirstOnlyFirst(s, BaseRepository.ById(Str(id)), RunFields(outcome, now));
  }

  /** The merged record holds the status and, on success, the counts, on failure the error. */
  lemma RunFieldsStatus(d: Document, outcome: PipelineOutcome, now: int)
    ensures var r := Merge(d, RunFields(outcome, now));
      "status" in r && r["status"] == Str(if outcome.Completed? then "completed" else "failed") &&
      (outcome.Completed? ==>
        "jobs_found" in r && r["jobs_found"] == Int(outcome.rawJobs) &&
        "jobs_matched" in r && r["jobs_matched"] == Int(outcome.matchedJobs)) &&
      (outcome.Failed? ==> "error" in r && r["error"] == Str(outcome.message)) &&
      (forall key :: key in d && key !in RunFields(outcome, now) ==> key in r && r[key] == d[key])
  {
  }

  // ---- list_jobs ----

  /** The last second of the day of `t`: 23:59:59 on that date. */
  function EndOfDay(t: int): (e: int)
    ensures t <= e < t + 86400 && e % 86400 == 86399
  {
    t - t % 86400 + 86399
  }

  /** The `posted_at` condition: `$gte` the parsed start date and `$lte` the end of
      the parsed end date; unparseable dates are dropped. */
  function DateQuery(filters: Document, parseDate: string -> Option<int>): (q: Document)
    ensures var from := Get(filters, "date_from", Null);
      "$gte" in q <==> Truthy(from) && IsoDate(from, parseDate).Some?
    ensures var from := Get(filters, "date_from", Null);
      "$gte" in q ==> q["$gte"] == Date(IsoDate(from, parseDate).value)
    ensures var to := Get(filters, "date_to", Null);
      "$lte" in q <==> Truthy(to) && IsoDate(to, parseDate).Some?
    ensures var to := Get(filters, "date_to", Null);
      "$lte" in q ==> q["$lte"] == Date(EndOfDay(IsoDate(to, parseDate).value))
    ensures q.Keys <= {"$gte", "$lte"}
  {
    var from := Get(filters, "date_from", Null);
    var to := Get(filters, "date_to", Null);
    var lower: Document :=
      if Truthy(from) && IsoDate(from, parseDate).Some? then map["$gte" := Date(IsoDate(from, parseDate).value)]
      else map[];
    if Truthy(to) && IsoDate(to, parseDate).Some? then lower["$lte" := Date(EndOfDay(IsoDate(to, parseDate).value))]
    else lower
  }

  /** The query `list_jobs` runs: status, run and source only when given and
      truthy, the minimum score whenever it is not null (so 0 counts), and the
      date condition when any date parsed. */
  function ListJobsQuery(filters: Document, parseDate: string -> Option<int>): (q: Document)
    ensures ("status" in q <==> Truthy(Get(filters, "status", Null))) &&
      ("status" in q ==> q["status"] == filters["status"])
    ensures ("metadata.scan_run_id" in q <==> Truthy(Get(filters, "scan_run_id", Null))) &&
      ("metadata.scan_run_id" in q ==> q["metadata.scan_run_id"] == filters["scan_run_id"])
    ensures ("source" in q <==> Truthy(Get(filters, "source", Null))) &&
      ("source" in q ==> q["source"] == filters["source"])
    ensures ("match_score" in q <==> !Get(filters, "min_match_score", Null).Null?) &&
      ("match_score" in q ==> q["match_score"] == Doc(map["$gte" := filters["min_match_score"]]))
    ensures ("posted_at" in q <==> DateQuery(filters, parseDate) != map[]) &&
      ("posted_at" in q ==> q["posted_at"] == Doc(DateQuery(filters, parseDate)))
    ensures q.Keys <= {"status", "metadata.scan_run_id", "source", "match_score", "posted_at"}
  {
    var withStatus: Document := if Truthy(Get(filters, "status", Null)) then map["status" := filters["status"]] else map[];
    var withRun := if Truthy(Get(filters, "scan_run_id", Null)) then withStatus["metadata.scan_run_id" := filters["scan_run_id"]] else withStatus;
    var withSource := if Truthy(Get(filters, "source", Null)) then withRun["source" := filters["source"]] else withRun;
    var withScore :=
      if !Get(filters, "min_match_score", Null).Null? then withSource["match_score" := Doc(map["$gte" := filters["min_match_score"]])]
      else withSource;
    var dates := DateQuery(filters, parseDate);
    if dates != map[] then withScore["posted_at" := Doc(dates)] else withScore
  }

  /** The order `list_jobs` sorts by, if `sort_by` names one: a missing or falsy
      value counts as the earliest date (null here), or as a score of 0; the
      creation date falls back to the collection date. */
  function ListOrder(sortBy: string, sortOrder: string): (o: Option<Order>)
    ensures o.Some? <==> sortBy in ["posted_at", "match_score", "created_at"]
    ensures o.Some? ==> (o.value.descending <==> sortOrder == "desc")
  {
    var descending := sortOrder == "desc";
    if sortBy == "posted_at" then Some(Order(FirstTruthy(["posted_at"], Null), descending))
    else if sortBy == "match_score" then Some(Order(FirstTruthy(["match_score"], Int(0)), descending))
    else if sortBy == "created_at" then Some(Order(FirstTruthy(["created_at", "metadata.collected_at"], Null), descending))
    else None
  }

  /** The jobs in the order `sort_by` and `sort_order` ask for (a stable sort), or
      as found for any other `sort_by`. */
  function SortJobs(jobs: seq<Document>, sortBy: string, sortOrder: string): (r: seq<Document>)
    ensures multiset(r) == multiset(jobs)
    ensures ListOrder(sortBy, sortOrder).None? ==> r == jobs
  {
    var o := ListOrder(sortBy, sortOrder);
    if o.Some? then StableSort(o.value, jobs) else jobs
  }

  /** The sorted jobs are in order. */
  lemma SortJobsSorted(jobs: seq<Document>, sortBy: string, sortOrder: string)
    requires ListOrder(sortBy, sortOrder).Some?
    ensures SortedBy([ListOrder(sortBy, sortOrder).value], SortJobs(jobs, sortBy, sortOrder))
  {
    var o := ListOrder(sortBy, sortOrder).value;
    SortByAllSorted([o], jobs);
    assert SortByAll([o], jobs) == StableSort(o, SortByAll([], jobs));
  }

  /** `list_jobs(filters, limit, sort_by, sort_order)` on the job collection `c`. */
  method ListJobs(c: FakeCollection, filters: Document, limit: int, sortBy: string, sortOrder: string,
                  parseDate: string -> Option<int>) returns (jobs: seq<Document>)
    ensures jobs == SortJobs(BaseRepository.FindAllResult(c.documents, ListJobsQuery(filters, parseDate), limit, [], map[]),
                             sortBy, sortOrder)
  {
    var query := ListJobsQuery(filters, parseDate);
    jobs := BaseRepository.FindAll(c, query, limit, [], map[]);
    jobs := SortJobs(jobs, sortBy, sortOrder);
  }

  /** Every listed job is a stored job matching the query, at most `limit` of them. */
  lemma ListedJobsMatch(s: seq<Document>, filters: Document, limit: int, sortBy: string, sortOrder: string,
                        parseDate: string -> Option<int>)
    ensures var q := ListJobsQuery(filters, parseDate);
      var jobs := SortJobs(BaseRepository.FindAllResult(s, q, limit, [], map[]), sortBy, sortOrder);
      (limit >= 0 ==> |jobs| <= limit) && forall j :: j in jobs ==> j in s && Matches(j, q)
  {
    var q := ListJobsQuery(filters, parseDate);
    var found := BaseRepository.FindAllResult(s, q, limit, [], map[]);
    BaseRepository.FindAllFacts(s, q, limit, [], map[]);
    var jobs := SortJobs(found, sortBy, sortOrder);
    forall j | j in jobs
      ensures j in s && Matches(j, q)
    {
      assert j in multiset(jobs);
      assert j in found;
    }
  }

  /** A zero minimum score still filters: the query then asks for `match_score >= 0`. */
  lemma ZeroMinimumScoreKept(filters: Document, parseDate: string -> Option<int>)
    requires Get(filters, "min_match_score", Null) == Int(0)
    ensures ListJobsQuery(filters, parseDate)["match_score"] == Doc(map["$gte" := Int(0)])
  {
  }

  // ---- generate_outreach ----

  /** `generate_outreach(job_id, profile)`: None when no job has that id; otherwise
      what the outreach writer (a parameter) produces for the stored job. */
  method GenerateOutreach(c: FakeCollection, jobId: string, write: Document -> Value) returns (r: Option<Value>)
    ensures r.None? <==> forall d :: d in c.documents ==> Lookup(d, "_id") != Str(jobId)
    ensures r.Some? ==> exists d :: d in c.documents && Lookup(d, "_id") == Str(jobId) && r.value == write(d)
  {
    var job := JobRepository.FindById(c, jobId);
    if job.None? {
      return None;
    }
    r := Some(write(job.value));
  }
}
