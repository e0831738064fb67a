/** The `matched_jobs` collection: lookups by id and fingerprint, recent jobs,
    status counts, and the three aggregations (score statistics, counts per
    source, counts per status) as functions over the stored jobs. */
module JobRepository {
  import opened Wrappers
  import opened Values
  import opened Text
  import opened Sorting
  import opened DocStore
  import BaseRepository

  /** `find_by_id(job_id)`: the first job with that id, or None. */
  method FindById(c: FakeCollection, jobId: string) returns (r: Option<Document>)
    ensures r.None? <==> forall d :: d in c.documents ==> Lookup(d, "_id") != Str(jobId)
    ensures r.Some? ==> r.value in c.documents && Lookup(r.value, "_id") == Str(jobId)
    ensures r.Some? ==> exists k ::
      0 <= k < |c.documents| && r.value == c.documents[k] &&
      (forall j :: 0 <= j < k ==> Lookup(c.documents[j], "_id") != Str(jobId))
  {
    r := BaseRepository.FindOne(c, map["_id" := Str(jobId)], [], map[]);
    SingleKeyQuery("_id", Str(jobId));
    FindOneUnsorted(c.documents, map["_id" := Str(jobId)]);
  }

  /** `find_by_fingerprint(fingerprint)`: the first job whose metadata carries it, or None. */
  method FindByFingerprint(c: FakeCollection, fingerprint: string) returns (r: Option<Document>)
    ensures r.None? <==> forall d :: d in c.documents ==> Lookup(d, "metadata.fingerprint") != Str(fingerprint)
    ensures r.Some? ==> r.value in c.documents && Lookup(r.value, "metadata.fingerprint") == Str(fingerprint)
    ensures r.Some? ==> exists k ::
      0 <= k < |c.documents| && r.value == c.documents[k] &&
      (forall j :: 0 <= j < k ==> Lookup(c.documents[j], "metadata.fingerprint") != Str(fingerprint))
  {
    r := BaseRepository.FindOne(c, map["metadata.fingerprint" := Str(fingerprint)], [], map[]);
    SingleKeyQuery("metadata.fingerprint", Str(fingerprint));
    FindOneUnsorted(c.documents, map["metadata.fingerprint" := Str(fingerprint)]);
  }

  /** `get_matched_jobs(limit)`: the first `limit` stored jobs, whatever their status. */
  method GetMatchedJobs(c: FakeCollection, limit: int) returns (r: seq<Document>)
    ensures r == Prefix(Prefix(c.documents, limit), limit)
    ensures limit >= 0 ==> r == Prefix(c.documents, limit)
  {
    r := BaseRepository.FindAll(c, map[], limit, [], map[]);
    FilterAll(c.documents);
    ProjectAllNone(c.documents);
    assert Orders([]) == [];
    PrefixTwice(c.documents, limit);
  }

  /** Number of stored documents whose `field` holds `v`. */
  function CountWhere(s: seq<Document>, field: string, v: Value): (n: nat)
    ensures n <= |s|
  {
    if s == [] then 0 else (if Lookup(s[0], field) == v then 1 else 0) + CountWhere(s[1..], field, v)
  }

  /** `count_by_status(status)` */
  function CountByStatus(s: seq<Document>, status: string): (n: nat)
    ensures n == CountWhere(s, "status", Str(status))
  {
    SingleKeyQuery("status", Str(status));
    FilterCount(s, "status", Str(status));
    |Filter(s, map["status" := Str(status)])|
  }

  lemma {:induction false} FilterCount(s: seq<Document>, field: string, v: Value)
    requires forall d :: Matches(d, map[field := v]) <==> Lookup(d, field) == v
    ensures |Filter(s, map[field := v])| == CountWhere(s, field, v)
  {
    if s != [] {
      FilterCount(s[1..], field, v);
    }
  }

  lemma {:induction false} CountWhereAppend(a: seq<Document>, b: seq<Document>, field: string, v: Value)
    ensures CountWhere(a + b, field, v) == CountWhere(a, field, v) + CountWhere(b, field, v)
  {
    if a != [] {
      assert (a + b)[1..] == a[1..] + b;
      CountWhereAppend(a[1..], b, field, v);
    } else {
      assert a + b == b;
    }
  }

  /** Storing one more job raises its own status count by one and no other. */
  lemma CountByStatusAfterInsert(s: seq<Document>, job: Document, status: string)
    ensures CountByStatus(s + [job], status) ==
      CountByStatus(s, status) + (if Lookup(job, "status") == Str(status) then 1 else 0)
  {
    CountWhereAppend(s, [job], "status", Str(status));
  }

  /** `get_recent_jobs(limit)`: newest created_at first, at most `limit`. */
  method GetRecentJobs(c: FakeCollection, limit: int) returns (r: seq<Document>)
    ensures r == Latest(c.documents, map[], "created_at", limit)
    ensures limit >= 0 ==> |r| <= limit
    ensures forall d :: d in r ==> d in c.documents
    ensures forall i, j :: 0 <= i < j < |r| ==> Le(Lookup(r[j], "created_at"), Lookup(r[i], "created_at"))
  {
    r := FindSortedLimited(c, map[], "created_at", -1, limit);
    LatestIsTop(c.documents, map[], "created_at", limit);
  }

  // ---- get_match_score_stats ----

  /** The jobs the score statistics consider: match_score present and not null. */
  predicate Scored(d: Document) {
    Find(d, "match_score").Some? && Find(d, "match_score").value != Null
  }

  function ScoredJobs(s: seq<Document>): (r: seq<Document>)
    ensures |r| <= |s|
    ensures forall d :: d in r <==> d in s && Scored(d)
  {
    if s == [] then [] else (if Scored(s[0]) then [s[0]] else []) + ScoredJobs(s[1..])
  }

  /** Sum and number of the numeric scores (`$avg` skips the others). */
  function NumericSum(s: seq<Document>): real {
    if s == [] then 0.0
    else
      var v := Lookup(s[0], "match_score");
      (if IsNumber(v) then Num(v) else 0.0) + NumericSum(s[1..])
  }

  function NumericCount(s: seq<Document>): (n: nat)
    ensures n <= |s|
  {
    if s == [] then 0 else (if IsNumber(Lookup(s[0], "match_score")) then 1 else 0) + NumericCount(s[1..])
  }

  /** A score of 0.8 or more, compared in the store's cross-type order (`$gte` in an expression). */
  predicate High(d: Document) {
    Le(Real(0.8), Lookup(d, "match_score"))
  }

  function HighCount(s: seq<Document>): (n: nat)
    ensures n <= |s|
  {
    if s == [] then 0 else (if High(s[0]) then 1 else 0) + HighCount(s[1..])
  }

  /** A numeric score is high exactly when it is at least 0.8; a string, document, list,
      boolean or date score ranks above every number and is always high; a missing or
      null score never is. */
  lemma HighScores(d: Document)
    ensures IsNumber(Lookup(d, "match_score")) ==> (High(d) <==> Num(Lookup(d, "match_score")) >= 0.8)
    ensures Lookup(d, "match_score") == Null ==> !High(d)
    ensures Rank(Lookup(d, "match_score")) > 1 ==> High(d)
    ensures High(d) ==> Scored(d)
  {
  }

  lemma {:induction false} HighCountAppend(a: seq<Document>, b: seq<Document>)
    ensures HighCount(a + b) == HighCount(a) + HighCount(b)
  {
    if a == [] {
      assert a + b == b;
    } else {
      assert (a + b)[1..] == a[1..] + b;
      HighCountAppend(a[1..], b);
    }
  }

  /** HighCount counts the high documents: none when none is high, all when all are. */
  lemma {:induction false} HighCountExact(s: seq<Document>)
    ensures HighCount(s) == 0 <==> forall d :: d in s ==> !High(d)
    ensures HighCount(s) == |s| <==> forall d :: d in s ==> High(d)
  {
    if s != [] {
      HighCountExact(s[1..]);
      assert forall d :: d in s <==> d == s[0] || d in s[1..];
    }
  }

  /** Dropping the unscored jobs first changes nothing: an unscored job is never high. */
  lemma {:induction false} HighCountScoredOnly(s: seq<Document>)
    ensures HighCount(ScoredJobs(s)) == HighCount(s)
  {
    if s != [] {
      HighCountScoredOnly(s[1..]);
      HighScores(s[0]);
      HighCountAppend(if Scored(s[0]) then [s[0]] else [], ScoredJobs(s[1..]));
    }
  }

  datatype ScoreStats = ScoreStats(average: Value, count: int, highMatchCount: int)

  /** `$avg` over the scored jobs: the mean of the numeric scores, null when there are none. */
  function Average(scored: seq<Document>): Value {
    var n := NumericCount(scored);
    if n == 0 then Null else Real(NumericSum(scored) / n as real)
  }

  /** `get_match_score_stats()` */
  function MatchScoreStats(s: seq<Document>): (r: ScoreStats)
    ensures r.count == |ScoredJobs(s)|
    ensures 0 <= r.highMatchCount <= r.count
    ensures ScoredJobs(s) == [] ==> r == ScoreStats(Real(0.0), 0, 0)
    ensures ScoredJobs(s) != [] ==> r.average == Average(ScoredJobs(s))
    ensures ScoredJobs(s) != [] ==> r.highMatchCount == HighCount(ScoredJobs(s))
  {
    var scored := ScoredJobs(s);
    if scored == [] then ScoreStats(Real(0.0), 0, 0)
    else ScoreStats(Average(scored), |scored|, HighCount(scored))
  }

  lemma {:induction false} NumericCountZero(s: seq<Document>)
    ensures NumericCount(s) == 0 <==> forall d :: d in s ==> !IsNumber(Lookup(d, "match_score"))
  {
    if s != [] {
      NumericCountZero(s[1..]);
      assert forall d :: d in s <==> d == s[0] || d in s[1..];
    }
  }

  /** The reported average is null exactly when some job is scored but no score is a number. */
  lemma AverageNull(s: seq<Document>)
    ensures MatchScoreStats(s).average == Null <==>
      ScoredJobs(s) != [] && forall d :: d in s && Scored(d) ==> !IsNumber(Lookup(d, "match_score"))
  {
    NumericCountZero(ScoredJobs(s));
  }

  /** A job scored with the string "0.9" is counted, and high, but leaves no average. */
  lemma StringScoreHasNoAverage()
    ensures MatchScoreStats([map["match_score" := Str("0.9")]]) == ScoreStats(Null, 1, 1)
  {
    var s: seq<Document> := [map["match_score" := Str("0.9")]];
    assert ScoredJobs(s) == s by { assert ScoredJobs(s[1..]) == []; }
    assert NumericCount(s[1..]) == 0 && HighCount(s[1..]) == 0;
  }

  /** The reported high-match count is the number of high jobs in the whole collection. */
  lemma MatchScoreStatsHighCount(s: seq<Document>)
    ensures MatchScoreStats(s).highMatchCount == HighCount(s)
  {
    HighCountScoredOnly(s);
  }

  /** Scores between 0 and 1. */
  predicate UnitScores(s: seq<Document>) {
    forall d :: d in s && IsNumber(Lookup(d, "match_score")) ==>
      0.0 <= Num(Lookup(d, "match_score")) <= 1.0
  }

  lemma {:induction false} NumericSumBounds(s: seq<Document>)
    requires UnitScores(s)
    ensures 0.0 <= NumericSum(s) <= NumericCount(s) as real
  {
    if s != [] {
      assert s[0] in s;
      assert UnitScores(s[1..]) by {
        forall d | d in s[1..] ensures d in s { }
      }
      NumericSumBounds(s[1..]);
    }
  }

  lemma MeanBounds(a: real, n: real)
    requires 0.0 <= a <= n && n > 0.0
    ensures 0.0 <= a / n <= 1.0
  {
  }

  /** With scores between 0 and 1, the reported average is between 0 and 1 too. */
  lemma AverageInUnitRange(s: seq<Document>)
    requires UnitScores(s)
    ensures MatchScoreStats(s).average.Real? ==> 0.0 <= MatchScoreStats(s).average.r <= 1.0
  {
    var scored := ScoredJobs(s);
    if scored != [] {
      assert UnitScores(scored);
      NumericSumBounds(scored);
      if NumericCount(scored) > 0 {
        MeanBounds(NumericSum(scored), NumericCount(scored) as real);
      }
    }
  }

  // ---- grouping: count_by_source and get_status_breakdown ----

  function FieldValues(s: seq<Document>, field: string): (r: seq<Value>)
    ensures |r| == |s| && forall i :: 0 <= i < |s| ==> r[i] == Lookup(s[i], field)
  {
    if s == [] then [] else [Lookup(s[0], field)] + FieldValues(s[1..], field)
  }

  /** The distinct values of `field`, in order of first appearance (the order
      the store's `$group` stage produces is left open; the model fixes one). */
  function GroupKeys(s: seq<Document>, field: string): (ks: seq<Value>)
    ensures forall i, j :: 0 <= i < j < |ks| ==> ks[i] != ks[j]
    ensures forall v :: v in ks <==> exists d :: d in s && Lookup(d, field) == v
  {
    var ks := Text.Dedup(FieldValues(s, field));
    assert forall v :: v in FieldValues(s, field) <==> exists d :: d in s && Lookup(d, field) == v by {
      forall v ensures v in FieldValues(s, field) <==> exists d :: d in s && Lookup(d, field) == v {
        if v in FieldValues(s, field) {
          var i :| 0 <= i < |s| && FieldValues(s, field)[i] == v;
          assert s[i] in s;
        }
        if exists d :: d in s && Lookup(d, field) == v {
          var d :| d in s && Lookup(d, field) == v;
          var i :| 0 <= i < |s| && s[i] == d;
          assert FieldValues(s, field)[i] == v;
        }
      }
    }
    ks
  }

  /** One `$group` output document: `{"_id": key, "count": n}`. */
  function GroupDoc(s: seq<Document>, field: string, key: Value): Document {
    map["_id" := key, "count" := Int(CountWhere(s, field, key))]
  }

  function GroupDocs(s: seq<Document>, field: string, ks: seq<Value>): (r: seq<Document>)
    ensures |r| == |ks| && forall i :: 0 <= i < |ks| ==> r[i] == GroupDoc(s, field, ks[i])
  {
    if ks == [] then [] else [GroupDoc(s, field, ks[0])] + GroupDocs(s, field, ks[1..])
  }

  /** The `{"$group": {"_id": "$field", "count": {"$sum": 1}}}` stage. */
  function Groups(s: seq<Document>, field: string): seq<Document> {
    GroupDocs(s, field, GroupKeys(s, field))
  }

  /** One count_by_source entry. */
  function SourceEntry(g: Document): Document {
    map["source" := Get(g, "_id", Null), "count" := Get(g, "count", Null)]
  }

  function SourceEntries(gs: seq<Document>): (r: seq<Document>)
    ensures |r| == |gs| && forall i :: 0 <= i < |gs| ==> r[i] == SourceEntry(gs[i])
  {
    if gs == [] then [] else [SourceEntry(gs[0])] + SourceEntries(gs[1..])
  }

  /** The source groups, largest count first. */
  function SourcesByCount(s: seq<Document>): seq<Document> {
    StableSort(Order(Field("count"), true), Groups(s, "source"))
  }

  /** `count_by_source()`: groups by source, largest count first, at most 10. */
  function CountBySource(s: seq<Document>): seq<Document> {
    SourceEntries(Prefix(SourcesByCount(s), 10))
  }

  /** A `$group` output document for `field` over `s`. */
  predicate GroupOf(s: seq<Document>, field: string, g: Document) {
    "_id" in g && "count" in g &&
    g["count"] == Int(CountWhere(s, field, g["_id"])) &&
    exists d :: d in s && Lookup(d, field) == g["_id"]
  }

  lemma GroupsAreGroups(s: seq<Document>, field: string)
    ensures forall g :: g in Groups(s, field) ==> GroupOf(s, field, g)
  {
    var ks := GroupKeys(s, field);
    forall g | g in Groups(s, field)
      ensures GroupOf(s, field, g)
    {
      var i :| 0 <= i < |ks| && Groups(s, field)[i] == g;
      assert ks[i] in ks;
    }
  }

  lemma SortedGroups(s: seq<Document>, o: Order)
    ensures forall g :: g in StableSort(o, Groups(s, "source")) ==> GroupOf(s, "source", g)
  {
    GroupsAreGroups(s, "source");
    var gs := Groups(s, "source");
    forall g | g in StableSort(o, gs)
      ensures GroupOf(s, "source", g)
    {
      assert g in multiset(StableSort(o, gs));
      assert g in gs;
    }
  }

  lemma CountBySourceEntries(s: seq<Document>)
    ensures forall e :: e in CountBySource(s) ==>
      exists g :: g in StableSort(Order(Field("count"), true), Groups(s, "source")) && e == SourceEntry(g)
  {
    var sorted := StableSort(Order(Field("count"), true), Groups(s, "source"));
    var top := Prefix(sorted, 10);
    forall e | e in CountBySource(s)
      ensures exists g :: g in sorted && e == SourceEntry(g)
    {
      var k :| 0 <= k < |top| && CountBySource(s)[k] == e;
      assert top[k] == sorted[k] && sorted[k] in sorted;
    }
  }

  /** count_by_source keeps at most ten groups, largest count first, and each
      entry's count is the number of jobs from that source. */
  lemma CountBySourceFacts(s: seq<Document>)
    ensures |CountBySource(s)| <= 10
    ensures forall e :: e in CountBySource(s) ==>
      Lookup(e, "count") == Int(CountWhere(s, "source", Lookup(e, "source"))) &&
      exists d :: d in s && Lookup(d, "source") == Lookup(e, "source")
  {
    var o := Order(Field("count"), true);
    SortedGroups(s, o);
    CountBySourceEntries(s);
    forall e | e in CountBySource(s)
      ensures Lookup(e, "count") == Int(CountWhere(s, "source", Lookup(e, "source")))
      ensures exists d :: d in s && Lookup(d, "source") == Lookup(e, "source")
    {
      var g :| g in StableSort(o, Groups(s, "source")) && e == SourceEntry(g);
      assert GroupOf(s, "source", g);
    }
  }

  /** count_by_source lists the largest counts first. */
  lemma CountBySourceDescending(s: seq<Document>)
    ensures forall i, j :: 0 <= i < j < |CountBySource(s)| ==>
      Le(Lookup(CountBySource(s)[j], "count"), Lookup(CountBySource(s)[i], "count"))
  {
    var o := Order(Field("count"), true);
    var sorted := StableSort(o, Groups(s, "source"));
    var top := Prefix(sorted, 10);
    var r := CountBySource(s);
    SortedGroups(s, o);
    SortByAllSorted([o], Groups(s, "source"));
    assert [o][1..] == [];
    assert SortByAll([o], Groups(s, "source")) == sorted;
    forall i, j | 0 <= i < j < |r|
      ensures Le(Lookup(r[j], "count"), Lookup(r[i], "count"))
    {
      assert top[i] == sorted[i] && top[j] == sorted[j];
      assert LexLe([o], sorted[i], sorted[j]);
      assert sorted[i] in sorted && sorted[j] in sorted;
      assert GroupOf(s, "source", sorted[i]) && GroupOf(s, "source", sorted[j]);
    }
  }

  /** No two `$group` documents are alike: each carries its own key. */
  lemma GroupsDistinct(s: seq<Document>, field: string)
    ensures forall i, j :: 0 <= i < j < |Groups(s, field)| ==> Groups(s, field)[i] != Groups(s, field)[j]
  {
    var ks := GroupKeys(s, field);
    var gs := Groups(s, field);
    forall i, j | 0 <= i < j < |gs|
      ensures gs[i] != gs[j]
    {
      assert gs[i]["_id"] == ks[i] && gs[j]["_id"] == ks[j];
    }
  }

  /** Each sorted source group is the group of one of the distinct sources. */
  lemma SourcesByCountKey(s: seq<Document>, i: int) returns (a: nat)
    requires 0 <= i < |SourcesByCount(s)|
    ensures a < |GroupKeys(s, "source")|
    ensures SourcesByCount(s)[i] == GroupDoc(s, "source", GroupKeys(s, "source")[a])
  {
    var gs := Groups(s, "source");
    assert SourcesByCount(s)[i] in multiset(gs);
    a :| 0 <= a < |gs| && gs[a] == SourcesByCount(s)[i];
  }

  /** Sorting the source groups by count keeps one group per source. */
  lemma SourcesByCountDistinct(s: seq<Document>)
    ensures |SourcesByCount(s)| == |GroupKeys(s, "source")|
    ensures forall i, j :: 0 <= i < j < |SourcesByCount(s)| ==>
      Lookup(SourcesByCount(s)[i], "_id") != Lookup(SourcesByCount(s)[j], "_id")
  {
    var ks := GroupKeys(s, "source");
    var sorted := SourcesByCount(s);
    GroupsDistinct(s, "source");
    PermutationDistinct(Groups(s, "source"), sorted);
    forall i, j | 0 <= i < j < |sorted|
      ensures Lookup(sorted[i], "_id") != Lookup(sorted[j], "_id")
    {
      var a := SourcesByCountKey(s, i);
      var b := SourcesByCountKey(s, j);
      assert Lookup(sorted[i], "_id") == ks[a] && Lookup(sorted[j], "_id") == ks[b];
    }
  }

  /** Every source's group is somewhere in the sorted list, at position p. */
  lemma SourcesByCountCover(s: seq<Document>, d: Document) returns (p: nat)
    requires d in s
    ensures p < |SourcesByCount(s)|
    ensures SourcesByCount(s)[p] == GroupDoc(s, "source", Lookup(d, "source"))
  {
    var ks := GroupKeys(s, "source");
    var gs := Groups(s, "source");
    var v := Lookup(d, "source");
    assert v in ks;
    var a :| 0 <= a < |ks| && ks[a] == v;
    assert gs[a] in multiset(SourcesByCount(s));
    p :| 0 <= p < |SourcesByCount(s)| && SourcesByCount(s)[p] == gs[a];
  }

  /** The sorted source groups run from the largest count down. */
  lemma SourcesByCountDescending(s: seq<Document>)
    ensures forall i, j :: 0 <= i < j < |SourcesByCount(s)| ==>
      Le(Lookup(SourcesByCount(s)[j], "count"), Lookup(SourcesByCount(s)[i], "count"))
  {
    var o := Order(Field("count"), true);
    var gs := Groups(s, "source");
    var sorted := SourcesByCount(s);
    SortByAllSorted([o], gs);
    assert [o][1..] == [];
    assert SortByAll([o], gs) == sorted;
    forall i, j | 0 <= i < j < |sorted|
      ensures Le(Lookup(sorted[j], "count"), Lookup(sorted[i], "count"))
    {
      assert LexLe([o], sorted[i], sorted[j]);
    }
  }

  /** Entry i of count_by_source reports the source and count of sorted group i. */
  lemma CountBySourceAt(s: seq<Document>, i: int)
    requires 0 <= i < |CountBySource(s)|
    ensures i < |SourcesByCount(s)|
    ensures Lookup(CountBySource(s)[i], "source") == Lookup(SourcesByCount(s)[i], "_id")
    ensures Lookup(CountBySource(s)[i], "count") == Lookup(SourcesByCount(s)[i], "count")
  {
    var sorted := SourcesByCount(s);
    SortedGroups(s, Order(Field("count"), true));
    assert Prefix(sorted, 10)[i] == sorted[i] && sorted[i] in sorted;
    assert GroupOf(s, "source", sorted[i]);
  }

  /** count_by_source has one entry per source: ten, or every source when
      there are fewer, and no source twice. */
  lemma CountBySourceDistinct(s: seq<Document>)
    ensures var n := |GroupKeys(s, "source")|;
      |CountBySource(s)| == if n < 10 then n else 10
    ensures forall i, j :: 0 <= i < j < |CountBySource(s)| ==>
      Lookup(CountBySource(s)[i], "source") != Lookup(CountBySource(s)[j], "source")
  {
    SourcesByCountDistinct(s);
    forall i, j | 0 <= i < j < |CountBySource(s)|
      ensures Lookup(CountBySource(s)[i], "source") != Lookup(CountBySource(s)[j], "source")
    {
      CountBySourceAt(s, i);
      CountBySourceAt(s, j);
    }
  }

  /** With at most ten sources, count_by_source lists every one of them. */
  lemma CountBySourceComplete(s: seq<Document>, d: Document)
    requires d in s && |GroupKeys(s, "source")| <= 10
    ensures exists e :: e in CountBySource(s) && Lookup(e, "source") == Lookup(d, "source")
  {
    SourcesByCountDistinct(s);
    var p := SourcesByCountCover(s, d);
    CountBySourceAt(s, p);
    assert CountBySource(s)[p] in CountBySource(s);
  }

  /** A source count_by_source leaves out has no more jobs than any source it
      lists. */
  lemma CountBySourceLeftOut(s: seq<Document>, d: Document, e: Document)
    requires d in s && e in CountBySource(s)
    requires forall x :: x in CountBySource(s) ==> Lookup(x, "source") != Lookup(d, "source")
    ensures Le(Int(CountWhere(s, "source", Lookup(d, "source"))), Lookup(e, "count"))
  {
    var r := CountBySource(s);
    var p := SourcesByCountCover(s, d);
    var i :| 0 <= i < |r| && r[i] == e;
    CountBySourceAt(s, i);
    if p < |r| {
      CountBySourceAt(s, p);
      assert false;
    }
    SourcesByCountDescending(s);
    assert Le(Lookup(SourcesByCount(s)[p], "count"), Lookup(SourcesByCount(s)[i], "count"));
  }

  /** The dict get_status_breakdown builds from the group documents, one
      assignment per document in order. */
  function Breakdown(gs: seq<Document>): map<Value, Value> {
    if gs == [] then map[]
    else
      var last := gs[|gs| - 1];
      Breakdown(gs[..|gs| - 1])[Get(last, "_id", Null) := Get(last, "count", Null)]
  }

  /** `b` maps exactly `keys`, each to the number of documents with that value. */
  ghost predicate CountsOf(b: map<Value, Value>, keys: seq<Value>, s: seq<Document>, field: string) {
    (forall k :: k in b <==> k in keys) &&
    forall k :: k in b ==> b[k] == Int(CountWhere(s, field, k))
  }

  lemma {:induction false} BreakdownOfGroups(s: seq<Document>, field: string, ks: seq<Value>, n: nat)
    requires n <= |ks|
    ensures CountsOf(Breakdown(GroupDocs(s, field, ks)[..n]), ks[..n], s, field)
  {
    var gs := GroupDocs(s, field, ks);
    if n > 0 {
      var m := n - 1;
      BreakdownOfGroups(s, field, ks, m);
      BreakdownStep(gs, ks, s, field, m, n);
    }
  }

  /** One more group document adds its key with its count. */
  lemma BreakdownStep(gs: seq<Document>, ks: seq<Value>, s: seq<Document>, field: string, m: nat, n: nat)
    requires n == m + 1 <= |ks| == |gs| && gs[m] == GroupDoc(s, field, ks[m])
    requires CountsOf(Breakdown(gs[..m]), ks[..m], s, field)
    ensures CountsOf(Breakdown(gs[..n]), ks[..n], s, field)
  {
    SliceStep(gs, m, n);
    SliceStep(ks, m, n);
    var g := gs[m];
    assert Get(g, "_id", Null) == ks[m] && Get(g, "count", Null) == Int(CountWhere(s, field, ks[m]));
    assert Breakdown(gs[..n]) == Breakdown(gs[..m])[ks[m] := Int(CountWhere(s, field, ks[m]))];
    CountsExtend(Breakdown(gs[..m]), ks[..m], ks[m], s, field);
  }

  lemma CountsExtend(b: map<Value, Value>, keys: seq<Value>, key: Value, s: seq<Document>, field: string)
    requires CountsOf(b, keys, s, field)
    ensures CountsOf(b[key := Int(CountWhere(s, field, key))], keys + [key], s, field)
  {
  }

  /** `get_status_breakdown()`: status → count for the first 10 groups. */
  method GetStatusBreakdown(c: FakeCollection) returns (breakdown: map<Value, Value>)
    ensures forall k :: k in breakdown <==> k in Prefix(GroupKeys(c.documents, "status"), 10)
    ensures forall k :: k in breakdown ==> breakdown[k] == Int(CountWhere(c.documents, "status", k))
    ensures |breakdown.Keys| <= 10
  {
    var results := Prefix(Groups(c.documents, "status"), 10);
    breakdown := map[];
    var i := 0;
    while i < |results|
      invariant 0 <= i <= |results|
      invariant breakdown == Breakdown(results[..i])
    {
      var item := results[i];
      SliceStep(results, i, i + 1);
      breakdown := breakdown[Get(item, "_id", Null) := Get(item, "count", Null)];
      i := i + 1;
    }
    BreakdownOfTopTen(c.documents, results);
  }

  /** The breakdown of the first 10 status groups maps their statuses to their counts. */
  lemma BreakdownOfTopTen(s: seq<Document>, results: seq<Document>)
    requires results == Prefix(Groups(s, "status"), 10)
    ensures CountsOf(Breakdown(results[..|results|]), Prefix(GroupKeys(s, "status"), 10), s, "status")
    ensures |Breakdown(results[..|results|]).Keys| <= 10
  {
    var keys := GroupKeys(s, "status");
    var n := |results|;
    BreakdownOfGroups(s, "status", keys, n);
    assert results[..n] == Groups(s, "status")[..n];
    assert keys[..n] == Prefix(keys, 10);
    KeysCardinality(Breakdown(results[..n]), keys[..n]);
  }

  lemma {:induction false} KeysCardinality<K, V>(m: map<K, V>, ks: seq<K>)
    requires forall k :: k in m <==> k in ks
    ensures |m.Keys| <= |ks|
  {
    if ks == [] {
      assert m.Keys == {};
    } else {
      var last := ks[|ks| - 1];
      var rest := ks[..|ks| - 1];
      if last in rest {
        forall k ensures k in m <==> k in rest {
          if k in ks && k != last {
            var i :| 0 <= i < |ks| && ks[i] == k;
            assert i < |ks| - 1 && rest[i] == k;
          }
        }
        KeysCardinality(m, rest);
      } else {
        var m' := map k | k in m && k != last :: m[k];
        forall k ensures k in m' <==> k in rest {
          if k in ks && k != last {
            var i :| 0 <= i < |ks| && ks[i] == k;
            assert i < |ks| - 1 && rest[i] == k;
          }
        }
        KeysCardinality(m', rest);
        assert m.Keys == m'.Keys + {last};
      }
    }
  }

  // Counts over distinct keys never add up to more than the number of jobs.

  function SumCounts(s: seq<Document>, field: string, ks: seq<Value>): nat {
    if ks == [] then 0 else CountWhere(s, field, ks[0]) + SumCounts(s, field, ks[1..])
  }

  /** Number of documents whose `field` value is one of `ks`. */
  function CountIn(s: seq<Document>, field: string, ks: seq<Value>): (n: nat)
    ensures n <= |s|
  {
    if s == [] then 0 else (if Lookup(s[0], field) in ks then 1 else 0) + CountIn(s[1..], field, ks)
  }

  lemma {:induction false} CountInCons(s: seq<Document>, field: string, k: Value, ks: seq<Value>)
    requires k !in ks
    ensures CountIn(s, field, [k] + ks) == CountWhere(s, field, k) + CountIn(s, field, ks)
  {
    if s != [] {
      CountInCons(s[1..], field, k, ks);
    }
  }

  lemma {:induction false} SumCountsIsCountIn(s: seq<Document>, field: string, ks: seq<Value>)
    requires forall i, j :: 0 <= i < j < |ks| ==> ks[i] != ks[j]
    ensures SumCounts(s, field, ks) == CountIn(s, field, ks)
  {
    if ks == [] {
      CountInNone(s, field);
    } else {
      SumCountsIsCountIn(s, field, ks[1..]);
      assert ks[0] !in ks[1..];
      CountInCons(s, field, ks[0], ks[1..]);
      assert [ks[0]] + ks[1..] == ks;
    }
  }

  lemma {:induction false} CountInNone(s: seq<Document>, field: string)
    ensures CountIn(s, field, []) == 0
  {
    if s != [] {
      CountInNone(s[1..], field);
    }
  }

  /** The status breakdown's counts add up to at most the number of jobs. */
  lemma BreakdownTotal(s: seq<Document>)
    ensures SumCounts(s, "status", Prefix(GroupKeys(s, "status"), 10)) <= |s|
  {
    var ks := Prefix(GroupKeys(s, "status"), 10);
    SumCountsIsCountIn(s, "status", ks);
  }
}
