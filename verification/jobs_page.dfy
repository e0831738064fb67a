/** The jobs page: the jobs from the job store, filtered by status, each with a
    coloured match badge and a button that asks the server for outreach
    messages. */
module JobsPage {
  import opened Wrappers
  import opened Values
  import JobStore
  import DashboardService

  /** `job.status === status` */
  predicate HasStatus(job: Document, status: string) {
    Get(job, "status", Null) == Str(status)
  }

  /** The jobs with that status, in their order. */
  function WithStatus(jobs: seq<Document>, status: string): (r: seq<Document>)
    ensures |r| <= |jobs|
    ensures forall j :: j in r <==> j in jobs && HasStatus(j, status)
  {
    if jobs == [] then []
    else (if HasStatus(jobs[0], status) then [jobs[0]] else []) + WithStatus(jobs[1..], status)
  }

  /** Filtering a list made of two parts filters each part, so the jobs shown
      keep the store's order. */
  lemma {:induction false} WithStatusAppend(a: seq<Document>, b: seq<Document>, status: string)
    ensures WithStatus(a + b, status) == WithStatus(a, status) + WithStatus(b, status)
  {
    if a == [] {
      assert a + b == b;
    } else {
      assert (a + b)[1..] == a[1..] + b;
      WithStatusAppend(a[1..], b, status);
    }
  }

  /** `filteredJobs`: every job under "all", otherwise exactly the jobs with the
      chosen status. */
  function FilteredJobs(jobs: seq<Document>, filter: string): (r: seq<Document>)
    ensures filter == "all" ==> r == jobs
    ensures filter != "all" ==> forall j :: j in r <==> j in jobs && HasStatus(j, filter)
    ensures filter != "all" ==> r == WithStatus(jobs, filter)
    ensures |r| <= |jobs|
  {
    if filter == "all" then jobs else WithStatus(jobs, filter)
  }

  const Green := "text-green-600 bg-green-50"
  const Blue := "text-blue-600 bg-blue-50"
  const Orange := "text-orange-600 bg-orange-50"

  /** `getMatchColor(score)`: green from 0.9, blue from 0.7, orange below. */
  function MatchColor(score: real): (c: string)
    ensures c == Green <==> score >= 0.9
    ensures c == Blue <==> 0.7 <= score < 0.9
    ensures c == Orange <==> score < 0.7
  {
    if score >= 0.9 then Green
    else if score >= 0.7 then Blue
    else Orange
  }

  /** The colours in increasing order of match. */
  function Tier(c: string): nat {
    if c == Green then 2 else if c == Blue then 1 else 0
  }

  /** A better score never gets a worse colour. */
  lemma MatchColorMonotone(a: real, b: real)
    requires a <= b
    ensures Tier(MatchColor(a)) <= Tier(MatchColor(b))
  {
  }

  /** A job the dashboard's feed reports as a high match never shows orange. */
  lemma HighMatchNotOrange(score: real)
    requires score >= DashboardService.FeedMatchScore
    ensures MatchColor(score) != Orange
  {
  }

  /** `job.match_score && <badge>`: the badge shows only for a truthy score. */
  predicate ShowsBadge(job: Document) {
    JsTruthy(Get(job, "match_score", Null))
  }

  /** A score of zero, or no score at all, shows no badge. */
  lemma ZeroScoreNoBadge(job: Document)
    requires "match_score" !in job || job["match_score"] in {Null, Int(0), Real(0.0)}
    ensures !ShowsBadge(job)
  {
  }

  /** One request for outreach messages: the job, the user, and the job the
      page showed as busy while it ran. */
  datatype OutreachCall = OutreachCall(jobId: Value, userId: string, busyWith: Value)

  /** The state of the jobs page. */
  class Page {
    var filter: string
    var generatingOutreach: Value
    var calls: seq<OutreachCall>

    /** The page opens on all jobs, busy with none. */
    constructor()
      ensures filter == "all" && generatingOutreach == Null && calls == []
    {
      filter := "all";
      generatingOutreach := Null;
      calls := [];
    }

    /** The filter buttons. */
    method SetFilter(value: string)
      modifies this
      ensures filter == value
      ensures generatingOutreach == old(generatingOutreach) && calls == old(calls)
    {
      filter := value;
    }

    /** `handleGenerateOutreach(job)`: without a user nothing happens; otherwise
        the page shows the job as busy while the request for it runs, and busy
        with none once it has ended, however it ended. */
    method HandleGenerateOutreach(userId: Option<string>, job: Document)
      modifies this
      ensures userId.None? ==> generatingOutreach == old(generatingOutreach) && calls == old(calls)
      ensures userId.Some? ==> calls == old(calls) + [OutreachCall(Get(job, "_id", Null), userId.value, Get(job, "_id", Null))]
      ensures userId.Some? ==> generatingOutreach == Null
      ensures filter == old(filter)
    {
      if userId.None? {
        return;
      }
      generatingOutreach := Get(job, "_id", Null);
      calls := calls + [OutreachCall(Get(job, "_id", Null), userId.value, generatingOutreach)];
      generatingOutreach := Null;
    }
  }

  /** `loadJobs()`: without a user nothing happens; otherwise `response` is the
      `jobs` field of the list request's data (None when it is absent) or the
      request's failure. The store gets those jobs, or none when the field is
      absent, keeps its jobs on a failure, and stops loading either way. */
  method LoadJobs(store: JobStore.Store, userId: Option<string>, response: Result<Option<seq<Document>>>)
    modifies store
    ensures userId.None? ==> store.jobs == old(store.jobs) && store.loading == old(store.loading)
    ensures userId.Some? ==> !store.loading
    ensures userId.Some? && response.Ok? ==> store.jobs == response.value.GetOr([])
    ensures userId.Some? && response.Err? ==> store.jobs == old(store.jobs)
    ensures store.error == old(store.error) && store.scanning == old(store.scanning)
  {
    if userId.None? {
      return;
    }
    store.SetLoading(true);
    if response.Ok? {
      store.SetJobs(response.value.GetOr([]));
    }
    store.SetLoading(false);
  }
}
