/** The generic repository every collection-specific repository extends:
    find_one, find_all, create, update and delete on one collection. The sort
    and projection arguments the subclasses and tests pass are taken with the
    meaning the in-memory collection gives them. */
module BaseRepository {
  import opened Wrappers
  import opened Values
  import opened Sorting
  import opened DocStore

  const DefaultLimit := 100

  /** The query that selects a document by its id. */
  function ById(id: Value): Document {
    map["_id" := id]
  }

  method FindOne(c: FakeCollection, query: Document, sort: seq<SortSpec>, projection: Document)
    returns (r: Option<Document>)
    ensures r == FindOneResult(c.documents, query, sort, projection)
    ensures r.None? <==> forall d :: d in c.documents ==> !Matches(d, query)
  {
    r := c.FindOne(query, sort, projection);
  }

  /** What find_all returns: matching documents, projected, sorted, cut to `limit`. */
  function FindAllResult(s: seq<Document>, query: Document, limit: int, sort: seq<SortSpec>, projection: Document)
    : seq<Document>
  {
    Prefix(Prefix(SortByAll(Orders(sort), Select(s, query, projection)), limit), limit)
  }

  method FindAll(c: FakeCollection, query: Document, limit: int, sort: seq<SortSpec>, projection: Document)
    returns (r: seq<Document>)
    ensures r == FindAllResult(c.documents, query, limit, sort, projection)
    ensures limit >= 0 ==> |r| <= limit
    ensures forall x :: x in r ==> exists d :: d in c.documents && Matches(d, query) && x == Project(d, projection)
    ensures SortedBy(Orders(sort), r)
  {
    var cursor := c.Find(query, projection);
    cursor.Sort(sort);
    cursor.Limit(limit);
    r := cursor.ToList(limit);
    FindAllFacts(c.documents, query, limit, sort, projection);
  }

  lemma FindAllFacts(s: seq<Document>, query: Document, limit: int, sort: seq<SortSpec>, projection: Document)
    ensures var r := FindAllResult(s, query, limit, sort, projection);
      (limit >= 0 ==> |r| <= limit) &&
      (forall x :: x in r ==> exists d :: d in s && Matches(d, query) && x == Project(d, projection)) &&
      SortedBy(Orders(sort), r)
  {
    var sel := Select(s, query, projection);
    var sorted := SortByAll(Orders(sort), sel);
    var r := FindAllResult(s, query, limit, sort, projection);
    PrefixTwice(sorted, limit);
    SortByAllSorted(Orders(sort), sel);
    PrefixSorted(Orders(sort), sorted, r);
    SelectMembers(s, query, projection);
    forall x | x in r
      ensures x in sel
    {
      assert x in multiset(sorted);
    }
  }

  /** A prefix of a sorted list is sorted. */
  lemma PrefixSorted(orders: seq<Order>, sorted: seq<Document>, r: seq<Document>)
    requires |r| <= |sorted| && r == sorted[..|r|] && SortedBy(orders, sorted)
    ensures SortedBy(orders, r) && forall x :: x in r ==> x in sorted
  {
    assert forall k :: 0 <= k < |r| ==> r[k] == sorted[k];
  }

  /** Each selected document is the projection of a stored matching one. */
  lemma SelectMembers(s: seq<Document>, query: Document, projection: Document)
    ensures forall x :: x in Select(s, query, projection) ==>
      exists d :: d in s && Matches(d, query) && x == Project(d, projection)
  {
    var sel := Select(s, query, projection);
    var f := Filter(s, query);
    forall x | x in sel
      ensures exists d :: d in s && Matches(d, query) && x == Project(d, projection)
    {
      var k :| 0 <= k < |sel| && sel[k] == x;
      assert f[k] in f;
    }
  }

  /** The record create stores: `data` with `_id` set to the fresh id when absent. */
  function WithId(data: Document, freshId: string): (r: Document)
    ensures "_id" in r
    ensures "_id" in data ==> r == data
    ensures "_id" !in data ==> r == data["_id" := Str(freshId)]
  {
    if "_id" in data then data else data["_id" := Str(freshId)]
  }

  /** `create(data)`: `freshId` stands for the generated uuid4. Returns the id and
      the caller's dict as create leaves it. */
  method Create(c: FakeCollection, data: Document, freshId: string) returns (id: Value, stored: Document)
    modifies c
    ensures stored == WithId(data, freshId)
    ensures id == stored["_id"]
    ensures c.documents == old(c.documents) + [stored]
  {
    stored := data;
    if "_id" !in stored {
      stored := stored["_id" := Str(freshId)];
    }
    c.InsertOne(stored);
    id := stored["_id"];
  }

  /** `update(id, data)`: `$set` of `data` on the document with that id. */
  method Update(c: FakeCollection, id: Value, data: Document)
    modifies c
    ensures c.documents == UpdateFirst(old(c.documents), ById(id), data)
  {
    c.UpdateOne(ById(id), map["$set" := Doc(data)]);
  }

  method Delete(c: FakeCollection, id: Value)
    modifies c
    ensures c.documents == DeleteFirst(old(c.documents), ById(id))
  {
    c.DeleteOne(ById(id));
  }

  /** No stored document carries this id. */
  predicate IdUnused(s: seq<Document>, id: Value) {
    forall d :: d in s ==> !Matches(d, ById(id))
  }

  lemma WithIdMatches(data: Document, freshId: string)
    requires !IsRange(WithId(data, freshId)["_id"])
    ensures Matches(WithId(data, freshId), ById(WithId(data, freshId)["_id"]))
  {
    var r := WithId(data, freshId);
    assert Lookup(r, "_id") == r["_id"];
    var q := ById(r["_id"]);
    forall key | key in q
      ensures FieldMatches(Lookup(r, key), q[key])
    {
      assert key == "_id";
    }
  }

  /** A created record with a new id is what find_one by that id then returns. */
  lemma CreateThenFind(s: seq<Document>, data: Document, freshId: string)
    requires !IsRange(WithId(data, freshId)["_id"])
    requires IdUnused(s, WithId(data, freshId)["_id"])
    ensures FindOneResult(s + [WithId(data, freshId)], ById(WithId(data, freshId)["_id"]), [], map[])
      == Some(WithId(data, freshId))
  {
    var r := WithId(data, freshId);
    var q := ById(r["_id"]);
    WithIdMatches(data, freshId);
    FilterAppend(s, [r], q);
    FilterNone(s, q);
    assert Filter([r], q) == [r];
  }

  /** Deleting a freshly created record by its id restores the collection. */
  lemma CreateThenDelete(s: seq<Document>, data: Document, freshId: string)
    requires !IsRange(WithId(data, freshId)["_id"])
    requires IdUnused(s, WithId(data, freshId)["_id"])
    ensures DeleteFirst(s + [WithId(data, freshId)], ById(WithId(data, freshId)["_id"])) == s
  {
    var r := WithId(data, freshId);
    var t := s + [r];
    WithIdMatches(data, freshId);
    assert forall j :: 0 <= j < |s| ==> t[j] == s[j] && t[j] in s;
    assert Matches(t[|s|], ById(r["_id"]));
    assert FirstMatch(t, ById(r["_id"])) == |s|;
    assert t[..|s|] == s;
  }

  /** Updating by id merges the fields into that document and leaves every other
      field of it, and every other document, as it was. */
  lemma UpdateMerges(s: seq<Document>, id: Value, data: Document)
    ensures var r := UpdateFirst(s, ById(id), data); var i := FirstMatch(s, ById(id));
      |r| == |s| &&
      (i < 0 ==> r == s) &&
      (i >= 0 ==>
        (forall k :: k in data ==> k in r[i] && r[i][k] == data[k]) &&
        (forall k :: k in s[i] && k !in data ==> k in r[i] && r[i][k] == s[i][k]) &&
        forall j :: 0 <= j < |s| && j != i ==> r[j] == s[j])
  {
    UpdateFirstOnlyFirst(s, ById(id), data);
  }
}
