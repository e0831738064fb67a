/** The reviewer stage of the pipeline: each matched job is saved to the job store
    unless a stored job already carries its fingerprint, and the saved jobs are
    the stage's output. */
module Reviewer {
  import opened Values
  import opened Models
  import opened DocStore
  import opened Text
  import JobRepository
  import BaseRepository

  function Fingerprint(job: Job): string {
    job.metadata.fingerprint
  }

  /** Some document of the store carries fingerprint `fp`. */
  predicate Stored(store: seq<Document>, fp: string) {
    exists d :: d in store && Lookup(d, "metadata.fingerprint") == Str(fp)
  }

  /** The documents saved for a run of kept jobs, in order. */
  function Documents(jobs: seq<Job>): (docs: seq<Document>)
    ensures |docs| == |jobs| && forall i :: 0 <= i < |jobs| ==> docs[i] == JobDocument(jobs[i])
  {
    if jobs == [] then [] else [JobDocument(jobs[0])] + Documents(jobs[1..])
  }

  /** The review of `jobs` against the store `store`: the jobs kept and the store
      afterwards. Each job is checked against the store as it is at that moment,
      so a job saved earlier in the run counts. */
  function Review(store: seq<Document>, jobs: seq<Job>): (r: (seq<Job>, seq<Document>))
    decreases |jobs|
  {
    if jobs == [] then ([], store)
    else if Stored(store, Fingerprint(jobs[0])) then Review(store, jobs[1..])
    else
      var rest := Review(store + [JobDocument(jobs[0])], jobs[1..]);
      ([jobs[0]] + rest.0, rest.1)
  }

  /** `reviewer_node`: `c` is the job store. */
  method ReviewerNode(c: FakeCollection, jobs: seq<Job>) returns (finalJobs: seq<Job>)
    modifies c
    ensures (finalJobs, c.documents) == Review(old(c.documents), jobs)
  {
    if jobs == [] {
      return [];
    }
    finalJobs := [];
    ghost var review := Review(c.documents, jobs);
    assert jobs[0..] == jobs;
    for i := 0 to |jobs|
      invariant Continues(review, finalJobs, c.documents, jobs[i..])
    {
      var job := jobs[i];
      ReviewLoopStep(review, finalJobs, c.documents, jobs, i);
      var existing := JobRepository.FindByFingerprint(c, job.metadata.fingerprint);
      if existing.None? {
        var _, _ := BaseRepository.Create(c, JobDocument(job), "");
        finalJobs := finalJobs + [job];
      }
    }
    assert jobs[|jobs|..] == [] && finalJobs + [] == finalJobs;
  }

  /** The review of the remaining `jobs` from `store` finishes the whole review,
      `kept` being the jobs kept so far. */
  predicate Continues(review: (seq<Job>, seq<Document>), kept: seq<Job>, store: seq<Document>, jobs: seq<Job>) {
    review.0 == kept + Review(store, jobs).0 && review.1 == Review(store, jobs).1
  }

  /** One turn of the reviewer's loop keeps the review on course: a stored job is
      skipped, a new one is saved and kept. */
  lemma ReviewLoopStep(review: (seq<Job>, seq<Document>), kept: seq<Job>, store: seq<Document>, jobs: seq<Job>, i: nat)
    requires i < |jobs| && Continues(review, kept, store, jobs[i..])
    ensures Stored(store, Fingerprint(jobs[i])) ==> Continues(review, kept, store, jobs[i + 1..])
    ensures !Stored(store, Fingerprint(jobs[i])) ==>
      Continues(review, kept + [jobs[i]], store + [BaseRepository.WithId(JobDocument(jobs[i]), "")], jobs[i + 1..])
  {
    DropStep(jobs, i);
    ReviewStep(store, jobs[i], jobs[i + 1..]);
    var doc := JobDocument(jobs[i]);
    assert BaseRepository.WithId(doc, "") == doc;
    if !Stored(store, Fingerprint(jobs[i])) {
      var rest := Review(store + [doc], jobs[i + 1..]);
      AppendAssoc(kept, [jobs[i]], rest.0);
    }
  }

  // ---- Properties of the review ----

  /** The store with one more document holds a fingerprint exactly when the store
      did or the new document carries it. */
  lemma StoredAppend(store: seq<Document>, doc: Document, fp: string)
    ensures Stored(store + [doc], fp) <==> Stored(store, fp) || Lookup(doc, "metadata.fingerprint") == Str(fp)
  {
    if Stored(store, fp) {
      var d :| d in store && Lookup(d, "metadata.fingerprint") == Str(fp);
      assert d in store + [doc];
    }
    if Lookup(doc, "metadata.fingerprint") == Str(fp) {
      assert doc in store + [doc];
    }
  }

  /** The review of a job that is already stored, and of one that is not. */
  lemma ReviewStep(store: seq<Document>, job: Job, jobs: seq<Job>)
    ensures Stored(store, Fingerprint(job)) ==> Review(store, [job] + jobs) == Review(store, jobs)
    ensures !Stored(store, Fingerprint(job)) ==>
      var rest := Review(store + [JobDocument(job)], jobs);
      Review(store, [job] + jobs) == ([job] + rest.0, rest.1)
  {
    assert ([job] + jobs)[0] == job && ([job] + jobs)[1..] == jobs;
  }

  lemma DocumentsCons(job: Job, rest: seq<Job>)
    ensures Documents([job] + rest) == [JobDocument(job)] + Documents(rest)
  {
    assert ([job] + rest)[1..] == rest;
  }

  /** The store grows by exactly the documents of the kept jobs, in order: one insert
      per kept job, and nothing else is written. */
  lemma {:induction false} ReviewStore(store: seq<Document>, jobs: seq<Job>)
    ensures Review(store, jobs).1 == store + Documents(Review(store, jobs).0)
    decreases |jobs|
  {
    if jobs != [] {
      var job := jobs[0];
      assert jobs == [job] + jobs[1..];
      ReviewStep(store, job, jobs[1..]);
      if Stored(store, Fingerprint(job)) {
        ReviewStore(store, jobs[1..]);
      } else {
        var doc := JobDocument(job);
        ReviewStore(store + [doc], jobs[1..]);
        var rest := Review(store + [doc], jobs[1..]).0;
        DocumentsCons(job, rest);
        AppendAssoc(store, [doc], Documents(rest));
      }
    }
  }

  /** `sub` is `s` with some elements left out, the rest in their order. */
  predicate Subsequence<T(==)>(sub: seq<T>, s: seq<T>)
    decreases |s|
  {
    if sub == [] then true
    else if s == [] then false
    else if sub[0] == s[0] then Subsequence(sub[1..], s[1..])
    else Subsequence(sub, s[1..])
  }

  /** A subsequence of `s` is one of `[x] + s`. */
  lemma {:induction false} SubsequenceSkip<T>(sub: seq<T>, x: T, s: seq<T>)
    requires Subsequence(sub, s)
    ensures Subsequence(sub, [x] + s)
    decreases |s|, 1
  {
    assert ([x] + s)[1..] == s;
    if sub != [] && sub[0] == x {
      SubsequenceDrop(sub, s);
    }
  }

  /** Dropping the head of a subsequence keeps it a subsequence. */
  lemma {:induction false} SubsequenceDrop<T>(sub: seq<T>, s: seq<T>)
    requires sub != [] && Subsequence(sub, s)
    ensures Subsequence(sub[1..], s)
    decreases |s|, 0
  {
    assert s == [s[0]] + s[1..];
    if sub[0] != s[0] {
      SubsequenceDrop(sub, s[1..]);
    }
    SubsequenceSkip(sub[1..], s[0], s[1..]);
  }

  /** The kept jobs are input jobs, in their input order. */
  lemma {:induction false} ReviewKeepsOrder(store: seq<Document>, jobs: seq<Job>)
    ensures Subsequence(Review(store, jobs).0, jobs)
    decreases |jobs|
  {
    if jobs != [] {
      var job := jobs[0];
      assert jobs == [job] + jobs[1..];
      ReviewStep(store, job, jobs[1..]);
      if Stored(store, Fingerprint(job)) {
        ReviewKeepsOrder(store, jobs[1..]);
        SubsequenceSkip(Review(store, jobs[1..]).0, job, jobs[1..]);
      } else {
        var rest := Review(store + [JobDocument(job)], jobs[1..]).0;
        ReviewKeepsOrder(store + [JobDocument(job)], jobs[1..]);
        assert ([job] + rest)[1..] == rest;
      }
    }
  }

  /** A stored fingerprint stays stored: the review only adds documents. */
  lemma ReviewOnlyAdds(store: seq<Document>, jobs: seq<Job>, fp: string)
    requires Stored(store, fp)
    ensures Stored(Review(store, jobs).1, fp)
  {
    ReviewStore(store, jobs);
    var d :| d in store && Lookup(d, "metadata.fingerprint") == Str(fp);
    assert d in Review(store, jobs).1;
  }

  /** No two jobs of `jobs` share a fingerprint. */
  predicate DistinctFingerprints(jobs: seq<Job>) {
    forall i, j :: 0 <= i < j < |jobs| ==> Fingerprint(jobs[i]) != Fingerprint(jobs[j])
  }

  lemma DistinctCons(job: Job, rest: seq<Job>)
    requires DistinctFingerprints(rest)
    requires forall other :: other in rest ==> Fingerprint(other) != Fingerprint(job)
    ensures DistinctFingerprints([job] + rest)
  {
    var kept := [job] + rest;
    forall i, j | 0 <= i < j < |kept|
      ensures Fingerprint(kept[i]) != Fingerprint(kept[j])
    {
      assert kept[j] == rest[j - 1];
      if i > 0 {
        assert kept[i] == rest[i - 1];
      }
    }
  }

  /** Every kept job was new: no document of the store had its fingerprint, and no
      two kept jobs share one, so at most one job per fingerprint survives. */
  lemma {:induction false} ReviewKeepsNew(store: seq<Document>, jobs: seq<Job>)
    ensures var kept := Review(store, jobs).0;
      (forall job :: job in kept ==> !Stored(store, Fingerprint(job))) &&
      DistinctFingerprints(kept)
    decreases |jobs|
  {
    if jobs != [] {
      var job := jobs[0];
      assert jobs == [job] + jobs[1..];
      ReviewStep(store, job, jobs[1..]);
      if Stored(store, Fingerprint(job)) {
        ReviewKeepsNew(store, jobs[1..]);
      } else {
        var next := store + [JobDocument(job)];
        ReviewKeepsNew(next, jobs[1..]);
        JobDocumentFingerprint(job);
        var rest := Review(next, jobs[1..]).0;
        forall other | other in rest
          ensures !Stored(store, Fingerprint(other)) && Fingerprint(other) != Fingerprint(job)
        {
          StoredAppend(store, JobDocument(job), Fingerprint(other));
        }
        DistinctCons(job, rest);
      }
    }
  }

  /** After the review every input job's fingerprint is in the store: either it was
      there already or the job was saved. */
  lemma {:induction false} ReviewCovers(store: seq<Document>, jobs: seq<Job>)
    ensures forall job :: job in jobs ==> Stored(Review(store, jobs).1, Fingerprint(job))
    decreases |jobs|
  {
    if jobs != [] {
      var job := jobs[0];
      assert jobs == [job] + jobs[1..];
      ReviewStep(store, job, jobs[1..]);
      var next := if Stored(store, Fingerprint(job)) then store else store + [JobDocument(job)];
      assert Review(store, jobs).1 == Review(next, jobs[1..]).1;
      ReviewCovers(next, jobs[1..]);
      JobDocumentFingerprint(job);
      StoredAppend(store, JobDocument(job), Fingerprint(job));
      ReviewOnlyAdds(next, jobs[1..], Fingerprint(job));
    }
  }

  /** A job whose fingerprint is neither in the store nor on an earlier job of the
      run is kept. */
  lemma {:induction false} ReviewKeepsFirstNew(store: seq<Document>, jobs: seq<Job>, i: nat)
    requires i < |jobs| && !Stored(store, Fingerprint(jobs[i]))
    requires forall k :: 0 <= k < i ==> Fingerprint(jobs[k]) != Fingerprint(jobs[i])
    ensures jobs[i] in Review(store, jobs).0
    decreases |jobs|
  {
    ReviewHead(store, jobs);
    if i > 0 {
      NextStillNew(store, jobs[0], Fingerprint(jobs[i]));
      ShiftFirst(jobs, i);
      ReviewKeepsFirstNew(NextStore(store, jobs[0]), jobs[1..], i - 1);
    }
  }

  /** The store after the review of `job`: with the job saved when it is new. */
  function NextStore(store: seq<Document>, job: Job): (next: seq<Document>)
    ensures Stored(store, Fingerprint(job)) ==> next == store
    ensures !Stored(store, Fingerprint(job)) ==> next == store + [JobDocument(job)]
  {
    if Stored(store, Fingerprint(job)) then store else store + [JobDocument(job)]
  }

  /** What the review of the first job contributes: the jobs kept from the rest
      are kept, and so is the first job when it is new. */
  lemma ReviewHead(store: seq<Document>, jobs: seq<Job>)
    requires jobs != []
    ensures forall x :: x in Review(NextStore(store, jobs[0]), jobs[1..]).0 ==> x in Review(store, jobs).0
    ensures !Stored(store, Fingerprint(jobs[0])) ==> jobs[0] in Review(store, jobs).0
  {
  }

  /** Saving a job with another fingerprint leaves a missing fingerprint missing. */
  lemma NextStillNew(store: seq<Document>, job: Job, fp: string)
    requires !Stored(store, fp) && Fingerprint(job) != fp
    ensures !Stored(NextStore(store, job), fp)
  {
    JobDocumentFingerprint(job);
    StoredAppend(store, JobDocument(job), fp);
  }

  /** Dropping the first job keeps a later job first with its fingerprint. */
  lemma ShiftFirst(jobs: seq<Job>, i: nat)
    requires 0 < i < |jobs|
    requires forall k :: 0 <= k < i ==> Fingerprint(jobs[k]) != Fingerprint(jobs[i])
    ensures jobs[1..][i - 1] == jobs[i]
    ensures forall k :: 0 <= k < i - 1 ==> Fingerprint(jobs[1..][k]) != Fingerprint(jobs[1..][i - 1])
  {
    forall k | 0 <= k < i - 1
      ensures Fingerprint(jobs[1..][k]) != Fingerprint(jobs[i])
    {
      assert jobs[1..][k] == jobs[k + 1];
    }
  }
}
