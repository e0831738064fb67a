/** The three expected results of the repository tests, stated over the three
    stored runs the tests start from. */
module RepositoryTests {
  import opened Wrappers
  import opened Values
  import opened Text
  import opened Sorting
  import opened DocStore
  import BaseRepository
  import ScanHistoryRepository

  function Run(id: string, status: string, startedAt: int, value: string): Document {
    map[
      "_id" := Str(id),
      "status" := Str(status),
      "started_at" := Int(startedAt),
      "value" := Str(value),
      "user_id" := Str("user-1")
    ]
  }

  function Runs(): seq<Document> {
    [Run("1", "completed", 1, "first"), Run("2", "completed", 3, "latest"), Run("3", "running", 2, "running")]
  }

  function Ids(s: seq<Document>): seq<Value> {
    if s == [] then [] else [Lookup(s[0], "_id")] + Ids(s[1..])
  }

  /** find_one of the completed runs, newest started_at first, is run "2". */
  lemma LatestCompletedIsSecond()
    ensures FindOneResult(Runs(), map["status" := Str("completed")], [SortSpec("started_at", -1)], map[])
      == Some(Run("2", "completed", 3, "latest"))
  {
    var q := map["status" := Str("completed")];
    var r1, r2, r3 := Run("1", "completed", 1, "first"), Run("2", "completed", 3, "latest"), Run("3", "running", 2, "running");
    assert Lookup(r1, "status") == Str("completed");
    assert Lookup(r2, "status") == Str("completed");
    assert Lookup(r3, "status") == Str("running");
    assert Matches(r1, q) && Matches(r2, q);
    assert !Matches(r3, q) by {
      assert FieldMatches(Lookup(r3, "status"), q["status"]) == false;
    }
    FilterFirstTwo(r1, r2, r3, q);
    var o := ToOrder(SortSpec("started_at", -1));
    assert Orders([SortSpec("started_at", -1)]) == [o];
    assert o == Order(Field("started_at"), true);
    IntKeys(o, r1, r2, 1, 3);
    SortTwoSwap(o, r1, r2);
  }

  lemma ProjectThree(a: Document, b: Document, c: Document, p: Document)
    ensures ProjectAll([a, b, c], p) == [Project(a, p), Project(b, p), Project(c, p)]
  {
    ShortTails(a, b, c);
    ShortTails(Project(a, p), Project(b, p), Project(c, p));
    assert ProjectAll([c], p) == [Project(c, p)] + ProjectAll([], p);
  }

  lemma FilterFirstTwo(a: Document, b: Document, c: Document, q: Document)
    requires Matches(a, q) && Matches(b, q) && !Matches(c, q)
    ensures Filter([a, b, c], q) == [a, b]
  {
    ShortTails(a, b, c);
    ShortTails(a, a, b);
    assert Filter([c], q) == Filter([], q);
  }

  function Projected(id: string, startedAt: int): Document {
    map["_id" := Str(id), "started_at" := Int(startedAt)]
  }

  lemma ProjectOne(id: string, status: string, startedAt: int, value: string)
    ensures Project(Run(id, status, startedAt, value), map["_id" := Int(1), "started_at" := Int(1)])
      == Projected(id, startedAt)
  {
    var p := map["_id" := Int(1), "started_at" := Int(1)];
    var d := Run(id, status, startedAt, value);
    var r := Project(d, p);
    assert "_id" in p && p != map[];
    assert Truthy(p["_id"]) && Truthy(p["started_at"]);
    assert "_id" in d && "started_at" in d;
    forall k
      ensures k in r <==> k in {"_id", "started_at"}
    {
      assert k in p <==> k in {"_id", "started_at"};
    }
    assert r.Keys == {"_id", "started_at"};
  }

  lemma ProjectRuns()
    ensures Select(Runs(), map[], map["_id" := Int(1), "started_at" := Int(1)])
      == [Projected("1", 1), Projected("2", 3), Projected("3", 2)]
  {
    var r1, r2, r3 := Run("1", "completed", 1, "first"), Run("2", "completed", 3, "latest"), Run("3", "running", 2, "running");
    assert Runs() == [r1, r2, r3];
    FilterAll(Runs());
    ProjectThree(r1, r2, r3, map["_id" := Int(1), "started_at" := Int(1)]);
    ProjectOne("1", "completed", 1, "first");
    ProjectOne("2", "completed", 3, "latest");
    ProjectOne("3", "running", 2, "running");
  }

  lemma SortProjectedAscending()
    ensures SortByAll(Orders([SortSpec("started_at", 1)]), [Projected("1", 1), Projected("2", 3), Projected("3", 2)])
      == [Projected("1", 1), Projected("3", 2), Projected("2", 3)]
  {
    var p1, p2, p3 := Projected("1", 1), Projected("2", 3), Projected("3", 2);
    var o := ToOrder(SortSpec("started_at", 1));
    assert Orders([SortSpec("started_at", 1)]) == [o];
    assert o == Order(Field("started_at"), false);
    IntKeys(o, p1, p3, 1, 2);
    IntKeys(o, p2, p3, 3, 2);
    MiddleLast(o, p1, p2, p3);
  }

  function Ascending(): seq<Document> {
    [Projected("1", 1), Projected("3", 2), Projected("2", 3)]
  }

  lemma AscendingResult()
    ensures BaseRepository.FindAllResult(Runs(), map[], 100, [SortSpec("started_at", 1)],
              map["_id" := Int(1), "started_at" := Int(1)]) == Ascending()
  {
    ProjectRuns();
    SortProjectedAscending();
  }

  lemma IdsOfAscending()
    ensures Ids(Ascending()) == [Str("1"), Str("3"), Str("2")]
    ensures forall d :: d in Ascending() ==> d.Keys == {"_id", "started_at"}
  {
    var r := Ascending();
    assert Lookup(r[0], "_id") == Str("1") && Lookup(r[1], "_id") == Str("3") && Lookup(r[2], "_id") == Str("2");
    assert r[1..][1..] == [r[2]];
  }

  /** find_all of every run, ascending by started_at, projected on `_id` and
      started_at, gives runs "1", "3", "2" with exactly those two keys. */
  lemma AscendingWithProjection()
    ensures var r := BaseRepository.FindAllResult(Runs(), map[], 100, [SortSpec("started_at", 1)],
                       map["_id" := Int(1), "started_at" := Int(1)]);
      Ids(r) == [Str("1"), Str("3"), Str("2")] &&
      forall d :: d in r ==> d.Keys == {"_id", "started_at"}
  {
    AscendingResult();
    IdsOfAscending();
  }

  lemma UserRunsAll()
    ensures Filter(Runs(), ScanHistoryRepository.UserQuery("user-1")) == Runs()
  {
    var q := ScanHistoryRepository.UserQuery("user-1");
    assert Matches(Run("1", "completed", 1, "first"), q);
    assert Matches(Run("2", "completed", 3, "latest"), q);
    assert Matches(Run("3", "running", 2, "running"), q);
  }

  lemma SortRunsDescending()
    ensures SortByAll(Orders([SortSpec("started_at", -1)]), Runs())
      == [Run("2", "completed", 3, "latest"), Run("3", "running", 2, "running"), Run("1", "completed", 1, "first")]
  {
    var r1, r2, r3 := Run("1", "completed", 1, "first"), Run("2", "completed", 3, "latest"), Run("3", "running", 2, "running");
    var o := ToOrder(SortSpec("started_at", -1));
    assert Orders([SortSpec("started_at", -1)]) == [o];
    assert o == Order(Field("started_at"), true);
    IntKeys(o, r2, r3, 3, 2);
    IntKeys(o, r1, r2, 1, 3);
    IntKeys(o, r1, r3, 1, 2);
    assert Runs() == [r1, r2, r3];
    FirstLast(o, r1, r2, r3);
  }

  function Newest(): seq<Document> {
    [Run("2", "completed", 3, "latest"), Run("3", "running", 2, "running"), Run("1", "completed", 1, "first")]
  }

  lemma ListScansResult()
    ensures BaseRepository.FindAllResult(Runs(), ScanHistoryRepository.UserQuery("user-1"), 5,
              [SortSpec("started_at", -1)], map[]) == Newest()
  {
    UserRunsAll();
    ProjectAllNone(Runs());
    SortRunsDescending();
  }

  lemma IdsOfNewest()
    ensures Ids(Newest()) == [Str("2"), Str("3"), Str("1")]
  {
    var r := Newest();
    assert Lookup(r[0], "_id") == Str("2") && Lookup(r[1], "_id") == Str("3") && Lookup(r[2], "_id") == Str("1");
    assert r[1..][1..] == [r[2]];
  }

  /** list_scans of "user-1" with limit 5 gives runs "2", "3", "1". */
  lemma ListScansNewestFirst()
    ensures Ids(BaseRepository.FindAllResult(Runs(), ScanHistoryRepository.UserQuery("user-1"), 5,
                 [SortSpec("started_at", -1)], map[])) == [Str("2"), Str("3"), Str("1")]
  {
    ListScansResult();
    IdsOfNewest();
  }
}
