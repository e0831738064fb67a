/** The in-memory document store of the repository tests: a cursor over a list
    of documents (sort, limit, to_list), a collection (find, find_one,
    insert_one, update_one, delete_one) and a database of named collections.
    Query matching also covers the `$gte`/`$lte` range documents the services
    put into queries. */
module DocStore {
  import opened Wrappers
  import opened Values
  import opened Sorting

  /** A range condition: a document whose keys are all `$gte` or `$lte`. */
  predicate IsRange(q: Value) {
    q.Doc? && q.fields != map[] && forall k :: k in q.fields ==> k == "$gte" || k == "$lte"
  }

  /** `v` lies on the right side of `bound`: only values of the bound's type compare. */
  predicate InRange(v: Value, q: Value)
    requires IsRange(q)
  {
    ("$gte" in q.fields ==> Rank(v) == Rank(q.fields["$gte"]) && Le(q.fields["$gte"], v)) &&
    ("$lte" in q.fields ==> Rank(v) == Rank(q.fields["$lte"]) && Le(v, q.fields["$lte"]))
  }

  /** One query condition on a field value: equality, or a range. */
  predicate FieldMatches(v: Value, q: Value) {
    if IsRange(q) then InRange(v, q) else Equal(v, q)
  }

  /** A document matches a query when every query key's condition holds on the
      document's value at that key (a missing field reads as null). */
  predicate Matches(d: Document, query: Document) {
    forall key :: key in query ==> FieldMatches(Lookup(d, key), query[key])
  }

  /** A matching document holds a query's plain non-numeric value exactly. */
  lemma MatchedValue(d: Document, query: Document, key: string)
    requires Matches(d, query) && key in query
    requires !IsRange(query[key]) && !IsNumber(query[key])
    ensures Lookup(d, key) == query[key]
  {
    assert FieldMatches(Lookup(d, key), query[key]);
  }

  /** A one-key query with a plain non-numeric value selects exactly the documents holding it. */
  lemma SingleKeyQuery(key: string, v: Value)
    requires !IsRange(v) && !IsNumber(v)
    ensures forall d :: Matches(d, map[key := v]) <==> Lookup(d, key) == v
  {
    forall d
      ensures Matches(d, map[key := v]) <==> Lookup(d, key) == v
    {
      if Lookup(d, key) == v {
        forall k | k in map[key := v]
          ensures FieldMatches(Lookup(d, k), map[key := v][k])
        {
          assert k == key;
        }
      }
      if Matches(d, map[key := v]) {
        MatchedValue(d, map[key := v], key);
      }
    }
  }

  lemma EmptyQueryMatchesAll(d: Document)
    ensures Matches(d, map[])
  {
  }

  /** The documents matching `query`, in their stored order. */
  function Filter(s: seq<Document>, query: Document): (r: seq<Document>)
    ensures |r| <= |s|
    ensures forall d :: d in r <==> d in s && Matches(d, query)
  {
    if s == [] then []
    else if Matches(s[0], query) then [s[0]] + Filter(s[1..], query)
    else Filter(s[1..], query)
  }

  lemma {:induction false} FilterAppend(a: seq<Document>, b: seq<Document>, query: Document)
    ensures Filter(a + b, query) == Filter(a, query) + Filter(b, query)
  {
    if a != [] {
      assert (a + b)[1..] == a[1..] + b;
      FilterAppend(a[1..], b, query);
    } else {
      assert a + b == b;
    }
  }

  lemma FilterNone(s: seq<Document>, query: Document)
    requires forall d :: d in s ==> !Matches(d, query)
    ensures Filter(s, query) == []
  {
  }

  lemma FilterAll(s: seq<Document>)
    ensures Filter(s, map[]) == s
  {
  }

  /** An empty projection (Python `None` or `{}`) keeps the document whole;
      otherwise only keys whose projection value is truthy are kept. */
  function Project(d: Document, projection: Document): (r: Document)
    ensures projection == map[] ==> r == d
    ensures projection != map[] ==>
      forall k :: k in r <==> k in d && k in projection && Truthy(projection[k])
    ensures forall k :: k in r ==> k in d && r[k] == d[k]
  {
    if projection == map[] then d
    else map k | k in d && k in projection && Truthy(projection[k]) :: d[k]
  }

  function ProjectAll(s: seq<Document>, projection: Document): (r: seq<Document>)
    ensures |r| == |s|
    ensures forall i :: 0 <= i < |s| ==> r[i] == Project(s[i], projection)
  {
    if s == [] then [] else [Project(s[0], projection)] + ProjectAll(s[1..], projection)
  }

  /** What `find(query, projection)` puts in its cursor. */
  function Select(s: seq<Document>, query: Document, projection: Document): seq<Document> {
    ProjectAll(Filter(s, query), projection)
  }

  /** One `(key, direction)` pair of a sort specification; -1 is descending. */
  datatype SortSpec = SortSpec(key: string, direction: int)

  function ToOrder(p: SortSpec): Order {
    Order(Field(p.key), p.direction == -1)
  }

  function Orders(spec: seq<SortSpec>): (r: seq<Order>)
    ensures |r| == |spec|
    ensures forall i :: 0 <= i < |spec| ==> r[i] == ToOrder(spec[i])
  {
    if spec == [] then [] else [ToOrder(spec[0])] + Orders(spec[1..])
  }

  /** What `find_one(query, sort, projection)` returns. */
  function FindOneResult(s: seq<Document>, query: Document, sort: seq<SortSpec>, projection: Document): Option<Document> {
    var sorted := SortByAll(Orders(sort), Filter(s, query));
    if sorted == [] then None else Some(Project(sorted[0], projection))
  }

  /** find_one returns None exactly when nothing matches, and otherwise the
      projection of a matching document that comes first under the sort. */
  lemma FindOneIsLeast(s: seq<Document>, query: Document, sort: seq<SortSpec>, projection: Document)
    ensures FindOneResult(s, query, sort, projection).None? <==>
      forall d :: d in s ==> !Matches(d, query)
    ensures FindOneResult(s, query, sort, projection).Some? ==>
      exists d :: d in s && Matches(d, query) &&
        FindOneResult(s, query, sort, projection).value == Project(d, projection) &&
        forall e :: e in s && Matches(e, query) ==> LexLe(Orders(sort), d, e)
  {
    var f := Filter(s, query);
    if f != [] {
      SortByAllHeadIsLeast(Orders(sort), f);
      var d := SortByAll(Orders(sort), f)[0];
      assert d in s && Matches(d, query);
    } else {
      assert forall d :: d in s ==> !Matches(d, query) by {
        forall d | d in s ensures !Matches(d, query) {
          assert d !in f;
        }
      }
    }
  }

  /** find_one with a single sort key and no projection returns a matching
      document whose key is greatest (direction -1) or least (otherwise). */
  lemma FindOneByKey(s: seq<Document>, query: Document, key: string, direction: int)
    ensures var r := FindOneResult(s, query, [SortSpec(key, direction)], map[]);
      (r.None? <==> forall d :: d in s ==> !Matches(d, query)) &&
      (r.Some? ==>
        r.value in s && Matches(r.value, query) &&
        forall e :: e in s && Matches(e, query) ==>
          (if direction == -1 then Le(Lookup(e, key), Lookup(r.value, key))
           else Le(Lookup(r.value, key), Lookup(e, key))))
  {
    FindOneIsLeast(s, query, [SortSpec(key, direction)], map[]);
    assert Orders([SortSpec(key, direction)])[1..] == [];
  }

  /** Index of the first document matching `query`, or -1. */
  function FirstMatch(s: seq<Document>, query: Document): (i: int)
    ensures -1 <= i < |s|
    ensures i >= 0 ==> Matches(s[i], query) && forall j :: 0 <= j < i ==> !Matches(s[j], query)
    ensures i == -1 <==> forall j :: 0 <= j < |s| ==> !Matches(s[j], query)
  {
    if s == [] then -1
    else if Matches(s[0], query) then 0
    else
      var k := FirstMatch(s[1..], query);
      assert forall j :: 1 <= j < |s| ==> s[j] == s[1..][j - 1];
      if k < 0 then -1 else k + 1
  }

  lemma {:induction false} FilterFirst(s: seq<Document>, query: Document)
    requires FirstMatch(s, query) >= 0
    ensures Filter(s, query) != [] && Filter(s, query)[0] == s[FirstMatch(s, query)]
  {
    if !Matches(s[0], query) {
      FilterFirst(s[1..], query);
    }
  }

  /** Without a sort, find_one returns the first match in stored order. */
  lemma FindOneUnsorted(s: seq<Document>, query: Document)
    ensures FirstMatch(s, query) >= 0 ==> FindOneResult(s, query, [], map[]) == Some(s[FirstMatch(s, query)])
    ensures FirstMatch(s, query) < 0 ==> FindOneResult(s, query, [], map[]) == None
  {
    assert Orders([]) == [];
    if FirstMatch(s, query) >= 0 {
      FilterFirst(s, query);
    } else {
      FilterNone(s, query);
    }
  }

  /** Python's `d.update(fields)`: the new fields win, the others are kept. */
  function Merge(d: Document, fields: Document): (r: Document)
    ensures r.Keys == d.Keys + fields.Keys
    ensures forall k :: k in fields ==> r[k] == fields[k]
    ensures forall k :: k in d && k !in fields ==> r[k] == d[k]
  {
    map k | k in d.Keys + fields.Keys :: if k in fields then fields[k] else d[k]
  }

  /** The `$set` part of an update document, `{}` when absent. */
  function SetPart(update: Document): Document {
    var v := Get(update, "$set", Doc(map[]));
    if v.Doc? then v.fields else map[]
  }

  /** The store after `update_one(query, {"$set": fields})`. */
  function UpdateFirst(s: seq<Document>, query: Document, fields: Document): (r: seq<Document>)
    ensures |r| == |s|
  {
    var i := FirstMatch(s, query);
    if i < 0 then s else s[i := Merge(s[i], fields)]
  }

  /** The store after `delete_one(query)`. */
  function DeleteFirst(s: seq<Document>, query: Document): (r: seq<Document>) {
    var i := FirstMatch(s, query);
    if i < 0 then s else s[..i] + s[i + 1..]
  }

  /** update_one changes the first matching document only, by merging the
      fields into it, and changes nothing when no document matches. */
  lemma UpdateFirstOnlyFirst(s: seq<Document>, query: Document, fields: Document)
    ensures var r := UpdateFirst(s, query, fields); var i := FirstMatch(s, query);
      (i < 0 ==> r == s) &&
      (i >= 0 ==>
        r[i] == Merge(s[i], fields) &&
        forall j :: 0 <= j < |s| && j != i ==> r[j] == s[j])
  {
  }

  lemma RemoveAt(s: seq<Document>, i: nat)
    requires i < |s|
    ensures multiset(s[..i] + s[i + 1..]) + multiset{s[i]} == multiset(s)
  {
    assert s == s[..i] + [s[i]] + s[i + 1..];
  }

  /** delete_one removes exactly one document, the first match, and keeps the
      order of the rest; it changes nothing when no document matches. */
  lemma DeleteFirstRemovesOne(s: seq<Document>, query: Document)
    ensures FirstMatch(s, query) < 0 ==> DeleteFirst(s, query) == s
    ensures FirstMatch(s, query) >= 0 ==>
      |DeleteFirst(s, query)| == |s| - 1 &&
      multiset(DeleteFirst(s, query)) + multiset{s[FirstMatch(s, query)]} == multiset(s)
    ensures forall j :: 0 <= j < |s| && !Matches(s[j], query) ==> s[j] in DeleteFirst(s, query)
  {
    var i := FirstMatch(s, query);
    if i >= 0 {
      RemoveAt(s, i);
      KeepsOthers(s, i, query);
    }
  }

  lemma KeepsOthers(s: seq<Document>, i: nat, query: Document)
    requires i < |s| && Matches(s[i], query)
    ensures forall j :: 0 <= j < |s| && !Matches(s[j], query) ==> s[j] in s[..i] + s[i + 1..]
  {
    var r := s[..i] + s[i + 1..];
    forall j | 0 <= j < |s| && !Matches(s[j], query)
      ensures s[j] in r
    {
      if j < i { assert r[j] == s[j]; } else { assert r[j - 1] == s[j]; }
    }
  }

  lemma ProjectAllNone(s: seq<Document>)
    ensures ProjectAll(s, map[]) == s
  {
  }

  lemma PrefixTwice<T>(s: seq<T>, n: int)
    ensures Prefix(Prefix(s, n), n) == s[..|Prefix(Prefix(s, n), n)|]
    ensures n >= 0 ==> Prefix(Prefix(s, n), n) == Prefix(s, n)
  {
    var p := Prefix(s, n);
    assert Prefix(p, n) == p[..|Prefix(p, n)|];
  }

  /** Every document a sorted and limited find returns is a stored document
      that matches the query. */
  lemma SortedLimitedMatch(s: seq<Document>, query: Document, o: Order, n: int)
    ensures forall d :: d in Prefix(Prefix(StableSort(o, Filter(s, query)), n), n) ==> d in s && Matches(d, query)
  {
    var sorted := StableSort(o, Filter(s, query));
    PrefixTwice(sorted, n);
    forall d | d in Prefix(Prefix(sorted, n), n)
      ensures d in s && Matches(d, query)
    {
      assert d in multiset(sorted);
    }
  }

  /** The result of `find(query).sort(key, -1).limit(n).to_list(n)`: the matching
      documents, greatest `key` first, at most `n` of them (a negative `n` cuts
      from the end, once for the limit and once for to_list). */
  function Latest(s: seq<Document>, query: Document, key: string, n: int): seq<Document> {
    Prefix(Prefix(StableSort(Order(Field(key), true), Filter(s, query)), n), n)
  }

  /** Latest keeps only matching documents, at most `n`, greatest key first, and
      every matching document it leaves out has a key no greater than any it keeps. */
  lemma LatestIsTop(s: seq<Document>, query: Document, key: string, n: int)
    ensures var r := Latest(s, query, key, n);
      (n >= 0 ==> |r| <= n) &&
      (forall d :: d in r ==> d in s && Matches(d, query)) &&
      (forall i, j :: 0 <= i < j < |r| ==> Le(Lookup(r[j], key), Lookup(r[i], key))) &&
      (forall d, x :: d in s && Matches(d, query) && d !in r && x in r ==>
        Le(Lookup(d, key), Lookup(x, key)))
  {
    var o := Order(Field(key), true);
    var f := Filter(s, query);
    var sorted := StableSort(o, f);
    var r := Latest(s, query, key, n);
    PrefixTwice(sorted, n);
    assert [o][1..] == [];
    assert SortByAll([o], f) == sorted;
    SortByAllSorted([o], f);
    forall d | d in r
      ensures d in s && Matches(d, query)
    {
      assert d in sorted;
      assert d in multiset(sorted);
      assert d in f;
    }
    TopOfSorted(sorted, r, key);
    forall d | d in s && Matches(d, query)
      ensures d in sorted
    {
      assert d in f;
      assert d in multiset(sorted);
    }
  }

  /** A prefix of a list sorted by `key`, greatest first, holds its greatest keys. */
  lemma TopOfSorted(sorted: seq<Document>, r: seq<Document>, key: string)
    requires |r| <= |sorted| && r == sorted[..|r|]
    requires SortedBy([Order(Field(key), true)], sorted)
    ensures forall i, j :: 0 <= i < j < |r| ==> Le(Lookup(r[j], key), Lookup(r[i], key))
    ensures forall d, x :: d in sorted && d !in r && x in r ==> Le(Lookup(d, key), Lookup(x, key))
  {
    var o := Order(Field(key), true);
    TopOfSortedBy(o, sorted, r);
    forall i, j | 0 <= i < j < |r|
      ensures Le(Lookup(r[j], key), Lookup(r[i], key))
    {
      assert LexLe([o], r[i], r[j]);
    }
  }

  /** The cursor `find` returns. */
  class FakeCursor {
    var items: seq<Document>

    constructor(items: seq<Document>)
      ensures this.items == items
    {
      this.items := items;
    }

    /** `sort([(key, direction), ...])`: one stable sort per key, last key first. */
    method Sort(spec: seq<SortSpec>)
      modifies this
      ensures items == SortByAll(Orders(spec), old(items))
      ensures SortedBy(Orders(spec), items)
      ensures multiset(items) == multiset(old(items))
    {
      var i := |spec|;
      while i > 0
        invariant 0 <= i <= |spec|
        invariant items == SortByAll(Orders(spec[i..]), old(items))
      {
        i := i - 1;
        items := StableSort(ToOrder(spec[i]), items);
        assert Orders(spec[i..])[1..] == Orders(spec[i + 1..]);
      }
      assert spec[0..] == spec;
      SortByAllSorted(Orders(spec), old(items));
    }

    /** `sort(key, direction)`: one stable sort, descending when direction is -1. */
    method SortOn(key: string, direction: int)
      modifies this
      ensures items == StableSort(Order(Field(key), direction == -1), old(items))
      ensures SortedBy([Order(Field(key), direction == -1)], items)
    {
      var o := Order(Field(key), direction == -1);
      items := StableSort(o, items);
      assert [o][1..] == [];
      assert SortByAll([o], old(items)) == items;
      SortByAllSorted([o], old(items));
    }

    method Limit(n: int)
      modifies this
      ensures items == Prefix(old(items), n)
    {
      items := Prefix(items, n);
    }

    method ToList(length: int) returns (r: seq<Document>)
      ensures r == Prefix(items, length)
      ensures length >= 0 ==> |r| <= length
    {
      r := Prefix(items, length);
    }
  }

  /** A collection: its documents in insertion order. */
  class FakeCollection {
    var documents: seq<Document>

    constructor(documents: seq<Document>)
      ensures this.documents == documents
    {
      this.documents := documents;
    }

    /** `find(query, projection)`: a new cursor over the matching documents, projected. */
    method Find(query: Document, projection: Document) returns (c: FakeCursor)
      ensures fresh(c)
      ensures c.items == Select(documents, query, projection)
    {
      c := new FakeCursor(Select(documents, query, projection));
    }

    /** `find_one(query, sort, projection)`. */
    method FindOne(query: Document, sort: seq<SortSpec>, projection: Document) returns (r: Option<Document>)
      ensures r == FindOneResult(documents, query, sort, projection)
      ensures r.None? <==> forall d :: d in documents ==> !Matches(d, query)
    {
      var filtered := Filter(documents, query);
      var i := |sort|;
      while i > 0
        invariant 0 <= i <= |sort|
        invariant filtered == SortByAll(Orders(sort[i..]), Filter(documents, query))
      {
        i := i - 1;
        filtered := StableSort(ToOrder(sort[i]), filtered);
        assert Orders(sort[i..])[1..] == Orders(sort[i + 1..]);
      }
      assert sort[0..] == sort;
      FindOneIsLeast(documents, query, sort, projection);
      if filtered == [] {
        r := None;
      } else {
        r := Some(Project(filtered[0], projection));
      }
    }

    method InsertOne(data: Document)
      modifies this
      ensures documents == old(documents) + [data]
    {
      documents := documents + [data];
    }

    /** `update_one(query, update)`: merges `update["$set"]` into the first match. */
    method UpdateOne(query: Document, update: Document)
      modifies this
      ensures documents == UpdateFirst(old(documents), query, SetPart(update))
    {
      var i := 0;
      while i < |documents| && !Matches(documents[i], query)
        invariant 0 <= i <= |documents|
        invariant forall j :: 0 <= j < i ==> !Matches(documents[j], query)
      {
        i := i + 1;
      }
      if i < |documents| {
        documents := documents[i := Merge(documents[i], SetPart(update))];
      }
    }

    /** `delete_one(query)`: removes the first match. */
    method DeleteOne(query: Document)
      modifies this
      ensures documents == DeleteFirst(old(documents), query)
    {
      var i := 0;
      while i < |documents| && !Matches(documents[i], query)
        invariant 0 <= i <= |documents|
        invariant forall j :: 0 <= j < i ==> !Matches(documents[j], query)
      {
        i := i + 1;
      }
      if i < |documents| {
        documents := documents[..i] + documents[i + 1..];
      }
    }
  }

  /** Named collections, created on first use. */
  class FakeDatabase {
    var collections: map<string, FakeCollection>

    constructor(initial: map<string, seq<Document>>)
      ensures collections.Keys == initial.Keys
      ensures forall n :: n in initial ==> fresh(collections[n]) && collections[n].documents == initial[n]
    {
      var m: map<string, FakeCollection> := map[];
      var names := initial.Keys;
      while names != {}
        invariant names <= initial.Keys
        invariant m.Keys == initial.Keys - names
        invariant forall n :: n in m ==> fresh(m[n]) && m[n].documents == initial[n]
        decreases names
      {
        var n :| n in names;
        var c := new FakeCollection(initial[n]);
        m := m[n := c];
        names := names - {n};
      }
      collections := m;
    }

    /** `db[name]`: the named collection, or a new empty one registered under that name. */
    method Collection(name: string) returns (c: FakeCollection)
      modifies this
      ensures name in old(collections) ==> c == old(collections)[name] && collections == old(collections)
      ensures name !in old(collections) ==>
        fresh(c) && c.documents == [] && collections == old(collections)[name := c]
    {
      if name in collections {
        c := collections[name];
      } else {
        c := new FakeCollection([]);
        collections := collections[name := c];
      }
    }
  }

  /** `collection.find(query).sort(key, direction).limit(n).to_list(length=n)`. */
  method FindSortedLimited(c: FakeCollection, query: Document, key: string, direction: int, n: int)
    returns (r: seq<Document>)
    ensures r == Prefix(Prefix(StableSort(Order(Field(key), direction == -1), Filter(c.documents, query)), n), n)
  {
    var cursor := c.Find(query, map[]);
    ProjectAllNone(Filter(c.documents, query));
    cursor.SortOn(key, direction);
    cursor.Limit(n);
    r := cursor.ToList(n);
  }
}
