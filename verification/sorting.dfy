/** Stable sorting of documents by one or several keys, as Python's `sorted(...,
    key=..., reverse=...)` does it and as a cursor's multi-key `sort` promises it. */
module Sorting {
  import opened Values
  import opened Text

  /** What a document is sorted by: one field, or the first truthy of several
      fields with a fallback (`d.get(a) or d.get(b) or fallback`). */
  datatype SortKey =
    | Field(name: string)
    | FirstTruthy(names: seq<string>, fallback: Value)

  datatype Order = Order(key: SortKey, descending: bool)

  function KeyValue(k: SortKey, d: Document): Value
    decreases if k.FirstTruthy? then |k.names| else 0
  {
    match k
    case Field(name) => Lookup(d, name)
    case FirstTruthy(names, fallback) =>
      if names == [] then fallback
      else Or(Lookup(d, names[0]), KeyValue(FirstTruthy(names[1..], fallback), d))
  }

  /** `a` may come before `b` under `o`. */
  predicate KeyLe(o: Order, a: Document, b: Document) {
    if o.descending then Le(KeyValue(o.key, b), KeyValue(o.key, a))
    else Le(KeyValue(o.key, a), KeyValue(o.key, b))
  }

  lemma KeyLeTotal(o: Order, a: Document, b: Document)
    ensures KeyLe(o, a, b) || KeyLe(o, b, a)
  {
    LeTotal(KeyValue(o.key, a), KeyValue(o.key, b));
  }

  lemma KeyLeTrans(o: Order, a: Document, b: Document, c: Document)
    requires KeyLe(o, a, b) && KeyLe(o, b, c)
    ensures KeyLe(o, a, c)
  {
    if o.descending {
      LeTrans(KeyValue(o.key, c), KeyValue(o.key, b), KeyValue(o.key, a));
    } else {
      LeTrans(KeyValue(o.key, a), KeyValue(o.key, b), KeyValue(o.key, c));
    }
  }

  /** Lexicographic order over a list of sort orders: the first order decides,
      and a tie passes to the next. */
  predicate LexLe(orders: seq<Order>, a: Document, b: Document) {
    orders == [] ||
    (KeyLe(orders[0], a, b) && (KeyLe(orders[0], b, a) ==> LexLe(orders[1..], a, b)))
  }

  predicate SortedBy(orders: seq<Order>, s: seq<Document>) {
    forall i, j :: 0 <= i < j < |s| ==> LexLe(orders, s[i], s[j])
  }

  lemma {:induction false} LexLeRefl(orders: seq<Order>, a: Document)
    ensures LexLe(orders, a, a)
  {
    if orders != [] {
      LeRefl(KeyValue(orders[0].key, a));
      LexLeRefl(orders[1..], a);
    }
  }

  /** Inserts `x` before the first element it may precede. */
  function Insert(o: Order, x: Document, s: seq<Document>): (r: seq<Document>)
    ensures multiset(r) == multiset([x] + s)
    ensures |r| == |s| + 1
  {
    if s == [] || KeyLe(o, x, s[0]) then [x] + s
    else
      assert s == [s[0]] + s[1..];
      [s[0]] + Insert(o, x, s[1..])
  }

  /** Insertion sort: stable, as Python's `sorted` is, also with `reverse=True`. */
  function StableSort(o: Order, s: seq<Document>): (r: seq<Document>)
    ensures multiset(r) == multiset(s)
    ensures |r| == |s|
  {
    if s == [] then []
    else
      assert s == [s[0]] + s[1..];
      Insert(o, s[0], StableSort(o, s[1..]))
  }

  /** Sorting by the last order first and by the first order last, as a
      loop over `reversed(sort)` of stable sorts does. */
  function SortByAll(orders: seq<Order>, s: seq<Document>): (r: seq<Document>)
    ensures multiset(r) == multiset(s)
    ensures |r| == |s|
  {
    if orders == [] then s else StableSort(orders[0], SortByAll(orders[1..], s))
  }

  lemma ConsSorted(orders: seq<Order>, x: Document, t: seq<Document>)
    requires SortedBy(orders, t)
    requires forall y :: y in t ==> LexLe(orders, x, y)
    ensures SortedBy(orders, [x] + t)
  {
    var r := [x] + t;
    forall i, j | 0 <= i < j < |r|
      ensures LexLe(orders, r[i], r[j])
    {
      assert r[j] == t[j - 1];
      if i > 0 { assert r[i] == t[i - 1]; }
    }
  }

  lemma TailSorted(orders: seq<Order>, t: seq<Document>)
    requires t != [] && SortedBy(orders, t)
    ensures SortedBy(orders, t[1..])
  {
    forall i, j | 0 <= i < j < |t[1..]|
      ensures LexLe(orders, t[1..][i], t[1..][j])
    {
      assert t[1..][i] == t[i + 1] && t[1..][j] == t[j + 1];
    }
  }

  lemma {:induction false} InsertSorted(o: Order, rest: seq<Order>, x: Document, t: seq<Document>)
    requires SortedBy([o] + rest, t)
    requires forall y :: y in t ==> LexLe(rest, x, y)
    ensures SortedBy([o] + rest, Insert(o, x, t))
  {
    var os := [o] + rest;
    assert os[0] == o && os[1..] == rest;
    if t == [] || KeyLe(o, x, t[0]) {
      forall y | y in t
        ensures LexLe(os, x, y)
      {
        var j :| 0 <= j < |t| && t[j] == y;
        if j > 0 {
          assert LexLe(os, t[0], t[j]);
          KeyLeTrans(o, x, t[0], y);
        }
      }
      ConsSorted(os, x, t);
    } else {
      TailSorted(os, t);
      InsertSorted(o, rest, x, t[1..]);
      var tail := Insert(o, x, t[1..]);
      forall y | y in tail
        ensures LexLe(os, t[0], y)
      {
        assert y in multiset(tail);
        assert y in multiset([x] + t[1..]);
        if y == x {
          KeyLeTotal(o, x, t[0]);
        } else {
          assert y in t[1..];
          var k :| 0 <= k < |t[1..]| && t[1..][k] == y;
          assert t[k + 1] == y;
        }
      }
      ConsSorted(os, t[0], tail);
    }
  }

  /** Stability: a stable sort by `o` of a list already sorted by `rest` is sorted
      by `o` and then by `rest`. */
  lemma {:induction false} StableSortRefines(o: Order, rest: seq<Order>, s: seq<Document>)
    requires SortedBy(rest, s)
    ensures SortedBy([o] + rest, StableSort(o, s))
  {
    if s != [] {
      forall i, j | 0 <= i < j < |s[1..]|
        ensures LexLe(rest, s[1..][i], s[1..][j])
      {
        assert s[1..][i] == s[i + 1] && s[1..][j] == s[j + 1];
      }
      StableSortRefines(o, rest, s[1..]);
      var t := StableSort(o, s[1..]);
      forall y | y in t
        ensures LexLe(rest, s[0], y)
      {
        assert y in multiset(t);
        assert y in s[1..];
        var k :| 0 <= k < |s[1..]| && s[1..][k] == y;
        assert s[k + 1] == y;
      }
      InsertSorted(o, rest, s[0], t);
    }
  }

  /** The multi-key sort orders its result lexicographically by the keys. */
  lemma {:induction false} SortByAllSorted(orders: seq<Order>, s: seq<Document>)
    ensures SortedBy(orders, SortByAll(orders, s))
  {
    if orders != [] {
      SortByAllSorted(orders[1..], s);
      StableSortRefines(orders[0], orders[1..], SortByAll(orders[1..], s));
      assert [orders[0]] + orders[1..] == orders;
    }
  }

  /** The first element of a multi-key sort precedes every element of the input. */
  lemma SortByAllHeadIsLeast(orders: seq<Order>, s: seq<Document>)
    requires s != []
    ensures SortByAll(orders, s) != [] && SortByAll(orders, s)[0] in s
    ensures forall d :: d in s ==> LexLe(orders, SortByAll(orders, s)[0], d)
  {
    var r := SortByAll(orders, s);
    SortByAllSorted(orders, s);
    assert r[0] in multiset(r);
    forall d | d in s
      ensures LexLe(orders, r[0], d)
    {
      assert d in multiset(s);
      assert d in r;
      var k :| 0 <= k < |r| && r[k] == d;
      if k == 0 { LexLeRefl(orders, d); }
    }
  }

  /** Index of the element a stable sort by `o` puts first: the earliest of the least. */
  function FirstBest(o: Order, s: seq<Document>): (k: nat)
    requires s != []
    ensures k < |s|
    ensures forall i :: 0 <= i < |s| ==> KeyLe(o, s[k], s[i])
    ensures forall i :: 0 <= i < k ==> !KeyLe(o, s[i], s[k])
  {
    if |s| == 1 then (LexLeRefl([o], s[0]); 0)
    else
      var k := FirstBest(o, s[1..]) + 1;
      assert forall i :: 1 <= i < |s| ==> s[i] == s[1..][i - 1];
      if KeyLe(o, s[0], s[k]) then
        assert forall i :: 1 <= i < |s| ==> KeyLe(o, s[0], s[i]) by {
          forall i | 1 <= i < |s| ensures KeyLe(o, s[0], s[i]) {
            KeyLeTrans(o, s[0], s[k], s[i]);
          }
        }
        LexLeRefl([o], s[0]);
        0
      else
        KeyLeTotal(o, s[0], s[k]);
        k
  }

  lemma {:induction false} StableSortHead(o: Order, s: seq<Document>)
    requires s != []
    ensures StableSort(o, s)[0] == s[FirstBest(o, s)]
  {
    if |s| > 1 {
      var t := s[1..];
      var j := FirstBest(o, t);
      StableSortHead(o, t);
      var u := StableSort(o, t);
      assert StableSort(o, s) == Insert(o, s[0], u);
      assert u[0] == t[j] == s[j + 1];
      InsertFirst(o, s[0], u);
    }
  }

  lemma InsertFirst(o: Order, x: Document, u: seq<Document>)
    requires u != []
    ensures Insert(o, x, u)[0] == if KeyLe(o, x, u[0]) then x else u[0]
  {
  }

  /** Which position a stable sort puts first depends only on the sort keys. */
  lemma {:induction false} FirstBestByKeys(o: Order, s: seq<Document>, s': seq<Document>)
    requires s != [] && |s'| == |s|
    requires forall i :: 0 <= i < |s| ==> KeyValue(o.key, s[i]) == KeyValue(o.key, s'[i])
    ensures FirstBest(o, s) == FirstBest(o, s')
  {
    if |s| > 1 {
      FirstBestByKeys(o, s[1..], s'[1..]);
    }
  }

  /** Python's slice `s[:n]`, where a negative `n` counts from the end. */
  function Prefix<T>(s: seq<T>, n: int): (r: seq<T>)
    ensures n >= 0 ==> |r| == if n < |s| then n else |s|
    ensures n < 0 ==> |r| == if |s| + n > 0 then |s| + n else 0
    ensures r == s[..|r|]
  {
    if n >= 0 then (if n < |s| then s[..n] else s)
    else if |s| + n > 0 then s[..|s| + n] else []
  }

  /** How two documents whose keys are numbers compare. */
  lemma IntKeys(o: Order, a: Document, b: Document, x: int, y: int)
    requires KeyValue(o.key, a) == Int(x) && KeyValue(o.key, b) == Int(y)
    ensures KeyLe(o, a, b) <==> if o.descending then y <= x else x <= y
  {
  }

  /** Insertion sort of three documents, the first goes to the back. */
  lemma SortThree(o: Order, a: Document, b: Document, c: Document)
    ensures StableSort(o, [a, b, c]) == Insert(o, a, Insert(o, b, [c]))
  {
    ShortTails(a, b, c);
    assert StableSort(o, [c]) == Insert(o, c, []) == [c];
  }



  /** A prefix of a sorted list is sorted and holds the elements that come first. */
  lemma TopOfSortedBy(o: Order, sorted: seq<Document>, r: seq<Document>)
    requires |r| <= |sorted| && r == sorted[..|r|]
    requires SortedBy([o], sorted)
    ensures SortedBy([o], r)
    ensures forall d, x :: d in sorted && d !in r && x in r ==> KeyLe(o, x, d)
  {
    forall i, j | 0 <= i < j < |r|
      ensures LexLe([o], r[i], r[j])
    {
      assert r[i] == sorted[i] && r[j] == sorted[j];
    }
    forall d, x | d in sorted && d !in r && x in r
      ensures KeyLe(o, x, d)
    {
      var m :| 0 <= m < |sorted| && sorted[m] == d;
      var k :| 0 <= k < |r| && r[k] == x;
      assert m >= |r|;
      assert LexLe([o], sorted[k], sorted[m]);
    }
  }

  lemma SortByOne(o: Order, s: seq<Document>)
    ensures SortByAll([o], s) == StableSort(o, s)
  {
    assert [o][1..] == [];
  }

  lemma InsertTail(o: Order, x: Document, y: Document)
    requires !KeyLe(o, x, y)
    ensures Insert(o, x, [y]) == [y, x]
  {
    ShortTails(x, x, y);
    ShortTails(y, y, x);
  }

  lemma InsertHead(o: Order, x: Document, s: seq<Document>)
    requires s != [] && KeyLe(o, x, s[0])
    ensures Insert(o, x, s) == [x] + s
  {
  }

  lemma InsertPast(o: Order, x: Document, s: seq<Document>)
    requires s != [] && !KeyLe(o, x, s[0])
    ensures Insert(o, x, s) == [s[0]] + Insert(o, x, s[1..])
  {
  }

  lemma SortTwoSwap(o: Order, a: Document, b: Document)
    requires !KeyLe(o, a, b)
    ensures SortByAll([o], [a, b]) == [b, a]
  {
    ShortTails(a, a, b);
    assert StableSort(o, [b]) == Insert(o, b, []) == [b];
    InsertTail(o, a, b);
    SortByOne(o, [a, b]);
  }

  lemma MiddleLast(o: Order, a: Document, b: Document, c: Document)
    requires !KeyLe(o, b, c) && KeyLe(o, a, c)
    ensures SortByAll([o], [a, b, c]) == [a, c, b]
  {
    SortThree(o, a, b, c);
    InsertTail(o, b, c);
    InsertHead(o, a, [c, b]);
    ShortTails(a, c, b);
    SortByOne(o, [a, b, c]);
  }

  lemma FirstLast(o: Order, a: Document, b: Document, c: Document)
    requires KeyLe(o, b, c) && !KeyLe(o, a, b) && !KeyLe(o, a, c)
    ensures SortByAll([o], [a, b, c]) == [b, c, a]
  {
    SortThree(o, a, b, c);
    InsertHead(o, b, [c]);
    InsertPast(o, a, [b, c]);
    ShortTails(a, b, c);
    InsertTail(o, a, c);
    ShortTails(b, c, a);
    SortByOne(o, [a, b, c]);
  }
  /** A list without repeats holds each value at most once. */
  lemma {:induction false} AtMostOnce<T>(a: seq<T>, x: T)
    requires forall i, j :: 0 <= i < j < |a| ==> a[i] != a[j]
    ensures multiset(a)[x] <= 1
  {
    if a != [] {
      var t := a[1..];
      assert a == [a[0]] + t;
      forall i, j | 0 <= i < j < |t|
        ensures t[i] != t[j]
      {
        assert t[i] == a[i + 1] && t[j] == a[j + 1];
      }
      AtMostOnce(t, x);
      if x == a[0] {
        forall k | 0 <= k < |t|
          ensures t[k] != x
        {
          assert t[k] == a[k + 1];
        }
        assert x !in t;
      }
    }
  }

  /** A value at two positions of a list is counted at least twice. */
  lemma TwiceCounted<T>(b: seq<T>, i: int, j: int)
    requires 0 <= i < j < |b| && b[i] == b[j]
    ensures multiset(b)[b[i]] >= 2
  {
    assert b == b[..j] + b[j..];
    assert b[i] in b[..j] && b[j..][0] == b[i];
    assert multiset(b) == multiset(b[..j]) + multiset(b[j..]);
  }

  /** A permutation of a list without repeats has no repeats either, so sorting
      never duplicates an item. */
  lemma PermutationDistinct<T>(a: seq<T>, b: seq<T>)
    requires multiset(a) == multiset(b)
    requires forall i, j :: 0 <= i < j < |a| ==> a[i] != a[j]
    ensures forall i, j :: 0 <= i < j < |b| ==> b[i] != b[j]
  {
    forall i, j | 0 <= i < j < |b|
      ensures b[i] != b[j]
    {
      if b[i] == b[j] {
        TwiceCounted(b, i, j);
        AtMostOnce(a, b[i]);
        assert false;
      }
    }
  }
}
