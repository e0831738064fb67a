/** The front end's job store: the jobs on screen, the loading and scanning
    flags and the last error, each replaced by its own setter. */
module JobStore {
  import opened Values
  import opened DocStore

  /** `job.id === jobId` */
  predicate HasId(job: Document, jobId: Value) {
    Get(job, "id", Null) == jobId
  }

  /** The list `updateJob(jobId, updates)` leaves: each job with that id gets the
      updates overlaid on it, and every other job stays as it was, in place. */
  function UpdatedJobs(jobs: seq<Document>, jobId: Value, updates: Document): (r: seq<Document>)
    ensures |r| == |jobs|
    ensures forall i :: 0 <= i < |jobs| && HasId(jobs[i], jobId) ==> r[i] == Merge(jobs[i], updates)
    ensures forall i :: 0 <= i < |jobs| && !HasId(jobs[i], jobId) ==> r[i] == jobs[i]
  {
    if jobs == [] then []
    else
      [if HasId(jobs[0], jobId) then Merge(jobs[0], updates) else jobs[0]] +
      UpdatedJobs(jobs[1..], jobId, updates)
  }

  /** An update that does not touch `id` keeps every job's id, so applying it a
      second time changes nothing more. */
  lemma {:induction false} UpdateJobIdempotent(jobs: seq<Document>, jobId: Value, updates: Document)
    requires "id" !in updates
    ensures forall i :: 0 <= i < |jobs| ==>
      (HasId(UpdatedJobs(jobs, jobId, updates)[i], jobId) <==> HasId(jobs[i], jobId))
    ensures UpdatedJobs(UpdatedJobs(jobs, jobId, updates), jobId, updates) == UpdatedJobs(jobs, jobId, updates)
  {
    var once := UpdatedJobs(jobs, jobId, updates);
    var twice := UpdatedJobs(once, jobId, updates);
    forall i | 0 <= i < |jobs|
      ensures HasId(once[i], jobId) <==> HasId(jobs[i], jobId)
      ensures twice[i] == once[i]
    {
      if HasId(jobs[i], jobId) {
        MergeTwice(jobs[i], jobId, updates);
      }
    }
  }

  /** Overlaying updates without an `id` keeps the job's id, and overlaying them
      again changes nothing. */
  lemma MergeTwice(job: Document, jobId: Value, updates: Document)
    requires "id" !in updates
    ensures HasId(Merge(job, updates), jobId) <==> HasId(job, jobId)
    ensures Merge(Merge(job, updates), updates) == Merge(job, updates)
  {
    var once := Merge(job, updates);
    assert Get(once, "id", Null) == Get(job, "id", Null);
    assert Merge(once, updates) == once;
  }

  /** A job added with a fresh id is the only one an update to that id reaches. */
  lemma AddedJobUpdated(jobs: seq<Document>, job: Document, updates: Document)
    requires "id" in job && forall i :: 0 <= i < |jobs| ==> !HasId(jobs[i], job["id"])
    ensures UpdatedJobs([job] + jobs, job["id"], updates) == [Merge(job, updates)] + jobs
  {
    var r := UpdatedJobs([job] + jobs, job["id"], updates);
    assert r[0] == Merge(job, updates);
    assert forall i :: 1 <= i < |r| ==> r[i] == ([job] + jobs)[i];
  }

  class Store {
    var jobs: seq<Document>
    var loading: bool
    var error: Value
    var scanning: bool

    /** The initial state: no jobs, not loading, no error, not scanning. */
    constructor()
      ensures jobs == [] && !loading && error == Null && !scanning
    {
      jobs := [];
      loading := false;
      error := Null;
      scanning := false;
    }

    /** `setJobs(jobs)` */
    method SetJobs(newJobs: seq<Document>)
      modifies this
      ensures jobs == newJobs
      ensures loading == old(loading) && error == old(error) && scanning == old(scanning)
    {
      jobs := newJobs;
    }

    /** `setLoading(loading)` */
    method SetLoading(value: bool)
      modifies this
      ensures loading == value
      ensures jobs == old(jobs) && error == old(error) && scanning == old(scanning)
    {
      loading := value;
    }

    /** `setError(error)` */
    method SetError(value: Value)
      modifies this
      ensures error == value
      ensures jobs == old(jobs) && loading == old(loading) && scanning == old(scanning)
    {
      error := value;
    }

    /** `setScanning(scanning)` */
    method SetScanning(value: bool)
      modifies this
      ensures scanning == value
      ensures jobs == old(jobs) && loading == old(loading) && error == old(error)
    {
      scanning := value;
    }

    /** `addJob(job)`: the job goes in front of the others. */
    method AddJob(job: Document)
      modifies this
      ensures jobs == [job] + old(jobs)
      ensures loading == old(loading) && error == old(error) && scanning == old(scanning)
    {
      jobs := [job] + jobs;
    }

    /** `updateJob(jobId, updates)` */
    method UpdateJob(jobId: Value, updates: Document)
      modifies this
      ensures jobs == UpdatedJobs(old(jobs), jobId, updates)
      ensures loading == old(loading) && error == old(error) && scanning == old(scanning)
    {
      jobs := UpdatedJobs(jobs, jobId, updates);
    }

    /** `clearJobs()` */
    method ClearJobs()
      modifies this
      ensures jobs == []
      ensures loading == old(loading) && error == old(error) && scanning == old(scanning)
    {
      jobs := [];
    }
  }
}
