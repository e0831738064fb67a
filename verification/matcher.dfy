/** The matcher stage of the pipeline: the language model scores each normalised
    job against the user's profile (its answer is a parameter here), the score
    sets the job's status, and the jobs scoring at least the run's threshold go on. */
module Matcher {
  import opened Wrappers
  import opened Values
  import opened Models

  /** The score from which a job counts as matched, and the default threshold. */
  const MatchCutoff: real := 0.7

  /** The message of the exception raised when an unscored job meets the threshold comparison. */
  const UnscoredError := "'>=' not supported between instances of 'NoneType' and 'float'"

  // ---- The profile sent to the model ----

  /** The profile the model sees: a copy of the user's profile whose keywords fall
      back to its skills (or []) when they are missing or empty. */
  function ProfileForMatching(profile: Document): (p: Document)
    ensures "keywords" in p
    ensures Truthy(Get(profile, "keywords", Null)) ==> p["keywords"] == profile["keywords"]
    ensures !Truthy(Get(profile, "keywords", Null)) ==> p["keywords"] == Get(profile, "skills", List([]))
    ensures forall key :: key != "keywords" ==> (key in p <==> key in profile)
    ensures forall key :: key != "keywords" && key in profile ==> p[key] == profile[key]
  {
    if !Truthy(Get(profile, "keywords", Null)) then profile["keywords" := Get(profile, "skills", List([]))]
    else profile
  }

  /** Falling back twice changes nothing more: the copy already has its keywords
      whenever the profile has skills. */
  lemma ProfileForMatchingStable(profile: Document)
    requires Truthy(Get(profile, "skills", List([])))
    ensures ProfileForMatching(ProfileForMatching(profile)) == ProfileForMatching(profile)
  {
  }

  // ---- match_job ----

  /** The model's answer as read from its JSON: `Unparseable` when it is not a JSON
      object or when its score is a value `>=` cannot compare with a float (the
      source then records it and the comparison raises inside the handler),
      otherwise its three fields. A `None` score is an explicit JSON null. */
  datatype MatchAnswer =
    | Unparseable
    | Scored(score: Option<real>, reasoning: Option<string>, missingSkills: seq<string>)

  /** Strings of a JSON list, or `None` when an item is not a string. */
  function StringItems(items: seq<Value>): (r: Option<seq<string>>)
    ensures r.Some? ==> |r.value| == |items| && forall i :: 0 <= i < |items| ==> items[i] == Str(r.value[i])
    ensures r.None? ==> exists i :: 0 <= i < |items| && !items[i].Str?
  {
    if items == [] then Some([])
    else if !items[0].Str? then None
    else
      var rest := StringItems(items[1..]);
      if rest.None? then None else Some([items[0].s] + rest.value)
  }

  /** The score as Python's `>=` sees it: a number by its value, a boolean as 0 or
      1, null as `None`; any other value cannot be compared. */
  function ReadScore(score: Value): (r: Option<Option<real>>)
    ensures r.None? <==> !(score.Null? || IsNumber(score) || score.Bool?)
    ensures r == Some(None) <==> score.Null?
    ensures IsNumber(score) ==> r == Some(Some(Num(score)))
  {
    if score.Null? then Some(None)
    else if IsNumber(score) then Some(Some(Num(score)))
    else if score.Bool? then Some(Some(if score.b then 1.0 else 0.0))
    else None
  }

  /** `data.get("match_score", 0.0)`, `data.get("match_reasoning", "")` and
      `data.get("missing_skills", [])` for a parsed object `data`. The score alone
      decides whether the status is set; a reasoning that is not text, or missing
      skills that are not a list of text, are recorded as none. */
  function ReadAnswer(data: Option<Document>): (a: MatchAnswer)
    ensures data.None? ==> a.Unparseable?
    ensures data.Some? ==>
      var score := Get(data.value, "match_score", Real(0.0));
      (a.Unparseable? <==> ReadScore(score).None?) &&
      (a.Scored? ==> a.score == ReadScore(score).value)
    ensures a.Scored? ==>
      var reasoning := Get(data.value, "match_reasoning", Str(""));
      var missing := Get(data.value, "missing_skills", List([]));
      (reasoning.Str? ==> a.reasoning == Some(reasoning.s)) &&
      (!reasoning.Str? ==> a.reasoning.None?) &&
      (missing.List? && StringItems(missing.items).Some? ==> a.missingSkills == StringItems(missing.items).value) &&
      (!(missing.List? && StringItems(missing.items).Some?) ==> a.missingSkills == [])
  {
    if data.None? then Unparseable
    else
      var d := data.value;
      var score := ReadScore(Get(d, "match_score", Real(0.0)));
      var reasoning := Get(d, "match_reasoning", Str(""));
      var missing := Get(d, "missing_skills", List([]));
      var skills := if missing.List? then StringItems(missing.items) else None;
      if score.None? then Unparseable
      else Scored(score.value, if reasoning.Str? then Some(reasoning.s) else None, skills.GetOr([]))
  }

  /** A numeric score sets the status whatever the other fields hold: MATCHED from
      0.7 up, NEW below. */
  lemma NumericScoreSetsStatus(job: Job, d: Document)
    requires IsNumber(Get(d, "match_score", Real(0.0)))
    ensures var scored := MatchJob(job, ReadAnswer(Some(d)));
      scored.matchScore == Some(Num(Get(d, "match_score", Real(0.0)))) &&
      (scored.status == Matched <==> Num(Get(d, "match_score", Real(0.0))) >= MatchCutoff) &&
      (scored.status != Matched ==> scored.status == New)
  {
  }

  /** `{"match_score": 0.9, "missing_skills": null}`: the job is matched and
      recorded with no missing skills. */
  lemma NullMissingSkillsStillMatched(job: Job)
    ensures var scored := MatchJob(job, ReadAnswer(Some(map["match_score" := Real(0.9), "missing_skills" := Null])));
      scored.status == Matched && scored.missingSkills == [] && scored.matchReasoning == Some("")
  {
  }

  /** An empty object (what the client falls back to when the model cannot be
      reached) reads as a score of 0.0 with empty reasoning and no missing skills. */
  lemma EmptyAnswer()
    ensures ReadAnswer(Some(map[])) == Scored(Some(0.0), Some(""), [])
  {
  }

  /** `match_job(job, profile, prompt)` given the model's answer: the score, the
      reasoning and the missing skills are recorded, then the status becomes
      MATCHED for a score of at least 0.7 and NEW otherwise. An unparseable answer
      leaves the job as it was; a null score is recorded, and the comparison that
      follows fails inside the handler, so the status is left as it was. */
  function MatchJob(job: Job, answer: MatchAnswer): (scored: Job)
    ensures answer.Unparseable? ==> scored == job
    ensures answer.Scored? ==>
      scored.matchScore == answer.score && scored.matchReasoning == answer.reasoning &&
      scored.missingSkills == answer.missingSkills
    ensures answer.Scored? && answer.score.Some? ==>
      (scored.status == Matched <==> answer.score.value >= MatchCutoff) &&
      (scored.status != Matched ==> scored.status == New)
    ensures answer.Scored? && answer.score.None? ==> scored.status == job.status
    ensures scored.(matchScore := job.matchScore, matchReasoning := job.matchReasoning,
                    missingSkills := job.missingSkills, status := job.status) == job
  {
    match answer
    case Unparseable => job
    case Scored(score, reasoning, missing) =>
      var recorded := job.(matchScore := score, matchReasoning := reasoning, missingSkills := missing);
      if score.None? then recorded
      else if score.value >= MatchCutoff then recorded.(status := Matched)
      else recorded.(status := New)
  }

  /** Scoring every job with its own answer (the calls run concurrently; each job
      gets the answer at its position). */
  function ScoreAll(jobs: seq<Job>, answers: seq<MatchAnswer>): (scored: seq<Job>)
    requires |answers| == |jobs|
    ensures |scored| == |jobs|
    ensures forall i :: 0 <= i < |jobs| ==> scored[i] == MatchJob(jobs[i], answers[i])
  {
    if jobs == [] then [] else [MatchJob(jobs[0], answers[0])] + ScoreAll(jobs[1..], answers[1..])
  }

  // ---- The threshold filter ----

  /** The jobs whose score is at least `threshold`, in their order; unscored jobs are
      left out. */
  function KeptAbove(scored: seq<Job>, threshold: real): (kept: seq<Job>)
    ensures |kept| <= |scored|
    ensures forall job :: job in kept ==> job in scored && job.matchScore.Some? && job.matchScore.value >= threshold
    ensures forall job :: job in scored && job.matchScore.Some? && job.matchScore.value >= threshold ==> job in kept
  {
    if scored == [] then []
    else
      var rest := KeptAbove(scored[1..], threshold);
      var job := scored[0];
      if job.matchScore.Some? && job.matchScore.value >= threshold then [job] + rest else rest
  }

  /** The filter keeps order: filtering two runs of jobs one after the other is
      filtering them joined. */
  lemma {:induction false} KeptAboveAppend(a: seq<Job>, b: seq<Job>, threshold: real)
    ensures KeptAbove(a + b, threshold) == KeptAbove(a, threshold) + KeptAbove(b, threshold)
  {
    if a == [] {
      assert a + b == b;
    } else {
      assert (a + b)[0] == a[0] && (a + b)[1..] == a[1..] + b;
      KeptAboveAppend(a[1..], b, threshold);
    }
  }

  /** `[job for job in scored if job.match_score >= threshold]`: Python compares
      each score in turn, and an unscored job raises. */
  function KeepMatched(scored: seq<Job>, threshold: real): (r: Result<seq<Job>>)
    ensures r.Err? <==> exists i :: 0 <= i < |scored| && scored[i].matchScore.None?
    ensures r.Err? ==> r.error == UnscoredError
    ensures r.Ok? ==> r.value == KeptAbove(scored, threshold)
  {
    if scored == [] then Ok([])
    else if scored[0].matchScore.None? then Err(UnscoredError)
    else
      var rest :- KeepMatched(scored[1..], threshold);
      Ok(if scored[0].matchScore.value >= threshold then [scored[0]] + rest else rest)
  }

  /** The run's threshold: `run_meta.get("match_threshold", 0.7)`. */
  function Threshold(setting: Option<real>): real {
    setting.GetOr(MatchCutoff)
  }

  /** `matcher_node` as written: every job is scored, then filtered by the run's
      threshold; one job left unscored makes the whole node raise. */
  function MatcherNode(jobs: seq<Job>, answers: seq<MatchAnswer>, threshold: Option<real>): (r: Result<seq<Job>>)
    requires |answers| == |jobs|
    ensures r.Err? <==> exists i :: 0 <= i < |jobs| && MatchJob(jobs[i], answers[i]).matchScore.None?
  {
    KeepMatched(ScoreAll(jobs, answers), Threshold(threshold))
  }

  /** `matcher_node` as intended: unscored jobs are not matched and are dropped. */
  function MatcherNodeIntended(jobs: seq<Job>, answers: seq<MatchAnswer>, threshold: Option<real>): (kept: seq<Job>)
    requires |answers| == |jobs|
  {
    KeptAbove(ScoreAll(jobs, answers), Threshold(threshold))
  }

  // ---- Properties of the node ----

  /** A job the model could not score keeps the score it came with: a job straight
      from the normaliser is unscored, and the node as written then raises. */
  lemma UnparseableAnswerFailsRun(job: Job)
    requires job.matchScore.None?
    ensures MatcherNode([job], [Unparseable], None) == Err(UnscoredError)
  {
    assert ScoreAll([job], [Unparseable])[0] == job;
  }

  /** The intended node keeps exactly the scored jobs at or above the threshold, and
      agrees with the node as written whenever that one does not raise. */
  lemma MatcherNodeIntendedKeeps(jobs: seq<Job>, answers: seq<MatchAnswer>, threshold: Option<real>)
    requires |answers| == |jobs|
    ensures var kept := MatcherNodeIntended(jobs, answers, threshold);
      forall job :: job in kept <==>
        (exists i :: 0 <= i < |jobs| && MatchJob(jobs[i], answers[i]) == job) &&
        job.matchScore.Some? && job.matchScore.value >= Threshold(threshold)
    ensures MatcherNode(jobs, answers, threshold).Ok? ==>
      MatcherNode(jobs, answers, threshold).value == MatcherNodeIntended(jobs, answers, threshold)
  {
    var scored := ScoreAll(jobs, answers);
    forall job | job in scored
      ensures exists i :: 0 <= i < |jobs| && MatchJob(jobs[i], answers[i]) == job
    {
      var i :| 0 <= i < |scored| && scored[i] == job;
    }
  }

  /** The status depends on the fixed cut-off of 0.7 and not on the run's
      threshold: with a lower threshold a job scored below 0.7 is kept with status NEW. */
  lemma LowThresholdKeepsNewJob(job: Job, score: real, reasoning: Option<string>, missing: seq<string>, threshold: real)
    requires threshold <= score < MatchCutoff
    ensures var scored := MatchJob(job, Scored(Some(score), reasoning, missing));
      MatcherNode([job], [Scored(Some(score), reasoning, missing)], Some(threshold)) == Ok([scored]) &&
      scored.status == New
  {
    var scored := MatchJob(job, Scored(Some(score), reasoning, missing));
    assert ScoreAll([job], [Scored(Some(score), reasoning, missing)]) == [scored];
  }

  /** With the default threshold, a kept job is exactly a job scored MATCHED. */
  lemma DefaultThresholdKeepsMatched(jobs: seq<Job>, answers: seq<MatchAnswer>)
    requires |answers| == |jobs|
    requires forall i :: 0 <= i < |jobs| ==> answers[i].Scored? && answers[i].score.Some?
    ensures MatcherNode(jobs, answers, None).Ok?
    ensures forall job :: job in MatcherNode(jobs, answers, None).value <==>
      job in ScoreAll(jobs, answers) && job.status == Matched
  {
    var scored := ScoreAll(jobs, answers);
    assert forall i :: 0 <= i < |jobs| ==> scored[i].matchScore.Some? && (scored[i].status == Matched <==> scored[i].matchScore.value >= MatchCutoff);
  }
}
