/** The JSON/BSON-like values held in the document store, in the Python dicts the
    back end passes around and in the JavaScript objects of the front end. */
module Values {
  import opened Wrappers
  import opened Text

  /** `Date(t)` is a `datetime`, as whole seconds from a fixed epoch. */
  datatype Value =
    | Null
    | Bool(b: bool)
    | Int(i: int)
    | Real(r: real)
    | Str(s: string)
    | Date(t: int)
    | List(items: seq<Value>)
    | Doc(fields: map<string, Value>)

  /** A stored document, or any Python `dict` with string keys. */
  type Document = map<string, Value>

  /** Python truthiness (`if x:`, `x or y`): None, False, 0, 0.0, "", [] and {} are false. */
  predicate Truthy(v: Value) {
    match v
    case Null => false
    case Bool(b) => b
    case Int(i) => i != 0
    case Real(r) => r != 0.0
    case Str(s) => s != ""
    case Date(_) => true
    case List(items) => items != []
    case Doc(fields) => fields != map[]
  }

  /** JavaScript truthiness (`x || y`, `x && {...}`): arrays and objects are always true. */
  predicate JsTruthy(v: Value) {
    match v
    case Null => false
    case Bool(b) => b
    case Int(i) => i != 0
    case Real(r) => r != 0.0
    case Str(s) => s != ""
    case Date(_) => true
    case List(_) => true
    case Doc(_) => true
  }

  /** Python's `x or y`. */
  function Or(x: Value, y: Value): (r: Value)
    ensures Truthy(x) ==> r == x
    ensures !Truthy(x) ==> r == y
  {
    if Truthy(x) then x else y
  }

  /** Python's `d.get(key, default)`. */
  function Get(d: Document, key: string, default: Value): (r: Value)
    ensures key in d ==> r == d[key]
    ensures key !in d ==> r == default
  {
    if key in d then d[key] else default
  }

  /** The field a possibly dotted path names: the literal key when the document has
      it, otherwise the path followed through nested documents. */
  function Find(d: Document, path: string): Option<Value>
    decreases |path|
  {
    if path in d then Some(d[path])
    else
      var i := IndexOf(path, '.');
      if i < 0 then None
      else
        var head := path[..i];
        if head in d && d[head].Doc? then Find(d[head].fields, path[i + 1..]) else None
  }

  /** The value at `path`, with a missing field read as null. */
  function Lookup(d: Document, path: string): (v: Value)
    ensures path in d ==> v == d[path]
    ensures '.' !in path && path !in d ==> v == Null
  {
    Find(d, path).GetOr(Null)
  }

  /** A dotted path that is not itself a key reads through the sub-document its
      first segment names. */
  lemma LookupNested(d: Document, head: string, rest: string)
    requires '.' !in head && head + "." + rest !in d
    requires head in d && d[head].Doc?
    ensures Lookup(d, head + "." + rest) == Lookup(d[head].fields, rest)
  {
    var path := head + "." + rest;
    assert path[|head|] == '.' && path[..|head|] == head && path[|head| + 1..] == rest;
    var i := IndexOf(path, '.');
    assert i == |head|;
  }

  predicate IsNumber(v: Value) { v.Int? || v.Real? }

  function Num(v: Value): real
    requires IsNumber(v)
  {
    if v.Int? then v.i as real else v.r
  }

  /** Equality as the store applies it to a query value: numbers by value, the rest structurally. */
  predicate Equal(a: Value, b: Value) {
    if IsNumber(a) && IsNumber(b) then Num(a) == Num(b) else a == b
  }

  lemma EqualSymmetric(a: Value, b: Value)
    ensures Equal(a, b) == Equal(b, a)
  {
  }

  /** Type rank in the store's cross-type order. */
  function Rank(v: Value): nat {
    match v
    case Null => 0
    case Int(_) => 1
    case Real(_) => 1
    case Str(_) => 2
    case Doc(_) => 3
    case List(_) => 4
    case Bool(_) => 5
    case Date(_) => 6
  }

  /** Lexicographic order on strings (by character code). */
  predicate StrLe(a: string, b: string)
    decreases |a|
  {
    a == [] || (b != [] && (a[0] < b[0] || (a[0] == b[0] && StrLe(a[1..], b[1..]))))
  }

  /** Order between two values of the same rank; documents and lists tie. */
  predicate SameRankLe(a: Value, b: Value)
    requires Rank(a) == Rank(b)
  {
    if IsNumber(a) then Num(a) <= Num(b)
    else if a.Str? then StrLe(a.s, b.s)
    else if a.Bool? then !a.b || b.b
    else if a.Date? then a.t <= b.t
    else true
  }

  /** The total preorder sorts use: by type rank, then within the rank. */
  predicate Le(a: Value, b: Value) {
    Rank(a) < Rank(b) || (Rank(a) == Rank(b) && SameRankLe(a, b))
  }

  lemma {:induction false} StrLeTotal(a: string, b: string)
    ensures StrLe(a, b) || StrLe(b, a)
    decreases |a|
  {
    if a != [] && b != [] && a[0] == b[0] {
      StrLeTotal(a[1..], b[1..]);
    }
  }

  lemma {:induction false} StrLeTrans(a: string, b: string, c: string)
    requires StrLe(a, b) && StrLe(b, c)
    ensures StrLe(a, c)
    decreases |a|
  {
    if a != [] && b != [] && c != [] && a[0] == b[0] && b[0] == c[0] {
      StrLeTrans(a[1..], b[1..], c[1..]);
    }
  }

  lemma StrLeRefl(a: string)
    ensures StrLe(a, a)
  {
  }

  lemma LeRefl(a: Value)
    ensures Le(a, a)
  {
    if a.Str? { StrLeRefl(a.s); }
  }

  lemma LeTotal(a: Value, b: Value)
    ensures Le(a, b) || Le(b, a)
  {
    if a.Str? && b.Str? { StrLeTotal(a.s, b.s); }
  }

  lemma LeTrans(a: Value, b: Value, c: Value)
    requires Le(a, b) && Le(b, c)
    ensures Le(a, c)
  {
    if a.Str? && b.Str? && c.Str? { StrLeTrans(a.s, b.s, c.s); }
  }

  /** Python writes whole floats below this size in positional notation. */
  const PositionalLimit: int := 10_000_000_000_000_000

  /** Python's `str(v)` for the scalar values that are formatted into text
      (None, booleans, integers, strings, and floats that are whole numbers of
      positional size); other values format as "". */
  function Display(v: Value): (s: string)
    ensures v.Str? ==> s == v.s
    ensures v.Null? ==> s == "None"
  {
    match v
    case Null => "None"
    case Bool(b) => if b then "True" else "False"
    case Int(i) => IntToString(i)
    case Real(r) =>
      if r.Floor as real == r && -PositionalLimit < r.Floor < PositionalLimit then IntToString(r.Floor) + ".0"
      else ""
    case Str(s) => s
    case _ => ""
  }

  /** A whole float is written with a trailing ".0", so it never reads like the
      integer of the same value. */
  lemma DisplayWholeReal(n: int)
    requires -PositionalLimit < n < PositionalLimit
    ensures Display(Real(n as real)) == IntToString(n) + ".0"
    ensures Display(Real(n as real)) != Display(Int(n))
  {
    assert (n as real).Floor == n;
    var a, b := Display(Real(n as real)), Display(Int(n));
    assert |a| == |b| + 2;
  }

  /** `datetime.fromisoformat(v.replace('Z', '+00:00'))` for a string `v`: the date
      parser is a parameter; a value that is not a string, or a string it rejects,
      gives no date. */
  function IsoDate(v: Value, parseDate: string -> Option<int>): Option<int> {
    if v.Str? then parseDate(ReplaceChar(v.s, 'Z', "+00:00")) else None
  }
  /** JavaScript's `x || y`. */
  function JsOr(x: Value, y: Value): (r: Value)
    ensures JsTruthy(x) ==> r == x
    ensures !JsTruthy(x) ==> r == y
  {
    if JsTruthy(x) then x else y
  }

  /** JavaScript's `v.key` (and `v?.key`): a missing property, or any property of
      a value that is not an object, reads as null. */
  function Prop(v: Value, key: string): (r: Value)
    ensures v.Doc? && key in v.fields ==> r == v.fields[key]
    ensures !v.Doc? || key !in v.fields ==> r == Null
  {
    if v.Doc? then Get(v.fields, key, Null) else Null
  }

  /** The text JavaScript gives a value in `String(v)`, `v.toString()` and
      `Array.prototype.join`: strings as they are, whole numbers in decimal,
      booleans as "true"/"false", and null as "" (as `join` renders it). */
  function JsText(v: Value): (s: string)
    ensures v.Str? ==> s == v.s
    ensures v.Int? ==> s == IntToString(v.i)
    ensures v.Null? ==> s == ""
  {
    match v
    case Null => ""
    case Bool(b) => if b then "true" else "false"
    case Int(i) => IntToString(i)
    case Real(r) => if r == r.Floor as real then IntToString(r.Floor) else ""
    case Str(s) => s
    case _ => ""
  }
}
