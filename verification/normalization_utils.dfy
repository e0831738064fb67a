/** Deterministic helpers of the job normaliser: company and title clean-up,
    salary parsing, tag and skill extraction, fingerprints and validation. */
module NormalizationUtils {
  import opened Wrappers
  import opened Text
  import opened Values

  // ---- Company names ----

  const CompanySuffixes: seq<string> := ["inc", "llc", "ltd", "corp", "corporation", "co.", "co"]

  /** `s.strip(c)`: drops every leading and trailing `c`. */
  function StripChar(s: string, c: char): (r: string)
    ensures |r| <= |s|
    ensures r != [] ==> r[0] != c && r[|r| - 1] != c
    decreases |s|
  {
    if s == [] then []
    else if s[0] == c then StripChar(s[1..], c)
    else if s[|s| - 1] == c then StripChar(s[..|s| - 1], c)
    else s
  }

  /** A trailing word that names a corporate form: compared lower-cased with dots stripped. */
  predicate IsSuffixWord(w: string) {
    Listed(Strip(StripChar(Lower(w), '.')), CompanySuffixes)
  }

  /** `x in xs`, one element at a time. */
  predicate Listed(x: string, xs: seq<string>) {
    xs != [] && (xs[0] == x || Listed(x, xs[1..]))
  }

  /** `re.sub(r"[,.]$", "", s)` on a stripped string: one trailing comma or dot goes. */
  function DropTrailingPunct(s: string): (r: string)
    ensures r == s || (s != [] && (s[|s| - 1] == ',' || s[|s| - 1] == '.') && r == s[..|s| - 1])
  {
    if s != [] && (s[|s| - 1] == ',' || s[|s| - 1] == '.') then s[..|s| - 1] else s
  }

  /** `xs` once trailing elements satisfying `p` are popped. */
  function PopWhile<T>(xs: seq<T>, p: T -> bool): (r: seq<T>)
    ensures |r| <= |xs| && r == xs[..|r|]
    ensures r != [] ==> !p(r[|r| - 1])
    ensures forall i :: |r| <= i < |xs| ==> p(xs[i])
  {
    if xs != [] && p(xs[|xs| - 1]) then
      var init := xs[..|xs| - 1];
      var r := PopWhile(init, p);
      assert forall i :: |r| <= i < |init| ==> init[i] == xs[i];
      r
    else xs
  }

  /** The words left once trailing suffix words are popped. */
  function DropSuffixes(parts: seq<string>): (r: seq<string>)
    ensures |r| <= |parts| && r == parts[..|r|]
    ensures r != [] ==> !IsSuffixWord(r[|r| - 1])
    ensures forall i :: |r| <= i < |parts| ==> IsSuffixWord(parts[i])
  {
    PopWhile(parts, IsSuffixWord)
  }

  /** The words of the cleaned-up company name. */
  function CompanyWords(name: string): seq<string> {
    DropSuffixes(Words(DropTrailingPunct(Strip(name))))
  }

  /** What normalize_company_name returns; an empty name comes back as it is. */
  function CompanyName(name: string): string {
    if name == "" then name else Join(CompanyWords(name), " ")
  }

  /** `normalize_company_name(name)`, popping suffix words in a loop. */
  method NormalizeCompanyName(name: string) returns (r: string)
    ensures r == CompanyName(name)
  {
    if name == "" {
      return name;
    }
    var cleaned := DropTrailingPunct(Strip(name));
    var parts := Words(cleaned);
    while parts != [] && IsSuffixWord(parts[|parts| - 1])
      invariant PopWhile(parts, IsSuffixWord) == DropSuffixes(Words(cleaned))
      decreases |parts|
    {
      parts := parts[..|parts| - 1];
    }
    r := Join(parts, " ");
  }

  /** A non-empty run of non-whitespace characters. */
  predicate IsWord(w: string) {
    w != [] && forall c :: c in w ==> !IsSpace(c)
  }

  /** Words joined by single spaces split back into themselves. */
  lemma {:induction false} WordsOfJoin(ws: seq<string>)
    requires forall k :: 0 <= k < |ws| ==> IsWord(ws[k])
    ensures Words(Join(ws, " ")) == ws
  {
    if ws == [] {
      assert Words("") == [];
    } else if |ws| == 1 {
      WordsOfSingle(ws[0]);
    } else {
      var tail := ws[1..];
      assert forall k :: 0 <= k < |tail| ==> tail[k] == ws[k + 1];
      WordsOfJoin(tail);
      WordsOfCons(ws[0], tail);
      HeadTail(ws);
    }
  }

  lemma WordsOfSingle(w: string)
    requires IsWord(w)
    ensures Words(Join([w], " ")) == [w]
  {
    assert Words("") == [];
    WordsOfWord(w, "");
    assert w + "" == w;
  }

  lemma WordsOfCons(w: string, tail: seq<string>)
    requires IsWord(w) && tail != []
    ensures Words(Join([w] + tail, " ")) == [w] + Words(Join(tail, " "))
  {
    var j := Join(tail, " ");
    ConsTail(w, tail);
    assert Join([w] + tail, " ") == w + " " + j;
    assert w + " " + j == w + (" " + j);
    WordsOfWord(w, " " + j);
    TrimStartOfSpace(j);
  }

  /** A word followed by nothing or by whitespace is the first word. */
  lemma WordsOfWord(w: string, rest: string)
    requires IsWord(w)
    requires rest == [] || IsSpace(rest[0])
    ensures Words(w + rest) == [w] + Words(rest)
  {
    var t := w + rest;
    assert TrimStart(t) == t by {
      assert !IsSpace(t[0]) by { assert t[0] == w[0] && w[0] in w; }
    }
    WordLengthOf(w, rest);
    assert t[..|w|] == w && t[|w|..] == rest;
  }

  lemma {:induction false} WordLengthOf(w: string, rest: string)
    requires IsWord(w)
    requires rest == [] || IsSpace(rest[0])
    ensures (w + rest) != [] && !IsSpace((w + rest)[0])
    ensures WordLength(w + rest) == |w|
  {
    assert (w + rest)[0] == w[0] && w[0] in w;
    if |w| > 1 {
      assert w[1] in w;
      forall c | c in w[1..] ensures !IsSpace(c) { assert c in w; }
      WordLengthOf(w[1..], rest);
      assert (w + rest)[1..] == w[1..] + rest;
    }
  }

  lemma TrimStartOfSpace(s: string)
    ensures Words(" " + s) == Words(s)
  {
    assert TrimStart(" " + s) == TrimStart(s) by {
      TrimStartSkip(" ", s);
    }
  }

  lemma {:induction false} TrimStartSkip(w: string, s: string)
    requires forall c :: c in w ==> IsSpace(c)
    ensures TrimStart(w + s) == TrimStart(s)
  {
    if w != [] {
      assert (w + s)[0] == w[0] && w[0] in w;
      assert (w + s)[1..] == w[1..] + s;
      forall c | c in w[1..] ensures IsSpace(c) { assert c in w; }
      TrimStartSkip(w[1..], s);
    } else {
      assert w + s == s;
    }
  }

  /** The words of the normalised name are exactly the cleaned words, so (by
      DropSuffixes) its last word, if any, is never a corporate suffix. */
  lemma CompanyNameWords(name: string)
    requires name != ""
    ensures Words(CompanyName(name)) == CompanyWords(name)
  {
    PoppedWordsRejoin(DropTrailingPunct(Strip(name)), IsSuffixWord);
  }

  lemma PoppedWordsRejoin(s: string, p: string -> bool)
    ensures Words(Join(PopWhile(Words(s), p), " ")) == PopWhile(Words(s), p)
  {
    var ws := Words(s);
    var r := PopWhile(ws, p);
    WordsHaveNoSpace(s);
    assert forall k :: 0 <= k < |r| ==> r[k] == ws[k];
    WordsOfJoin(r);
  }

  lemma {:induction false} WordsHaveNoSpace(s: string)
    ensures forall k :: 0 <= k < |Words(s)| ==> IsWord(Words(s)[k])
    decreases |s|
  {
    var t := TrimStart(s);
    if t != [] {
      var n := WordLength(t);
      WordRunHasNoSpace(t);
      WordsHaveNoSpace(t[n..]);
      var ws := Words(s);
      assert ws == [t[..n]] + Words(t[n..]);
      forall k | 0 <= k < |ws| ensures IsWord(ws[k]) {
        if k > 0 { assert ws[k] == Words(t[n..])[k - 1]; }
      }
    }
  }

  lemma {:induction false} WordRunHasNoSpace(t: string)
    requires t != [] && !IsSpace(t[0])
    ensures IsWord(t[..WordLength(t)])
  {
    if |t| > 1 && !IsSpace(t[1]) {
      WordRunHasNoSpace(t[1..]);
      assert t[..WordLength(t)] == [t[0]] + t[1..][..WordLength(t[1..])];
    }
  }

  lemma LowerInc()
    ensures Lower("Inc") == "inc"
  {
    assert Lower("Inc")[0] == 'i';
  }

  lemma StripInc()
    ensures Strip(StripChar("inc", '.')) == "inc"
  {
    assert StripChar("inc", '.') == "inc";
    StripOfStripped("inc");
  }

  lemma ListedInc()
    ensures Listed("inc", CompanySuffixes)
  {
  }

  lemma SuffixInc()
    ensures IsSuffixWord("Inc")
  {
    LowerInc();
    StripInc();
    ListedInc();
  }

  lemma {:induction false} NotListedByFirst(k: string, xs: seq<string>)
    requires k != []
    requires forall i :: 0 <= i < |xs| ==> xs[i] != [] && xs[i][0] != k[0]
    ensures !Listed(k, xs)
  {
    if xs != [] {
      NotListedByFirst(k, xs[1..]);
    }
  }

  lemma NotSuffixByFirst(w: string)
    requires w != [] && LowerChar(w[0]) == 'a'
    requires w[|w| - 1] != '.' && !IsSpace(w[|w| - 1]) && !IsUpper(w[|w| - 1])
    ensures !IsSuffixWord(w)
  {
    var l := Lower(w);
    assert l[0] == 'a' && l[|l| - 1] == w[|w| - 1];
    assert StripChar(l, '.') == l;
    StripOfStripped(l);
    NotListedByFirst(l, CompanySuffixes);
  }

  lemma WordAcme()
    ensures IsWord("Acme,") && IsWord("Acme") && IsWord("Inc")
  {
  }

  lemma ConcatAcmeInc()
    ensures "Acme," + (" " + "Inc") == "Acme, Inc"
  {
  }

  lemma WordsOfTwo(a: string, b: string)
    requires IsWord(a) && IsWord(b)
    ensures Words(a + (" " + b)) == [a, b]
  {
    var rest := " " + b;
    WordsOfWord(b, "");
    assert b + "" == b;
    assert Words("") == [];
    assert Words(b) == [b];
    TrimStartOfSpace(b);
    assert Words(rest) == [b];
    WordsOfWord(a, rest);
    ShortTails(a, b, b);
  }

  lemma WordsAcmeInc()
    ensures Words("Acme, Inc") == ["Acme,", "Inc"]
  {
    WordAcme();
    WordsOfTwo("Acme,", "Inc");
    ConcatAcmeInc();
  }

  lemma WordsAcme()
    ensures Words("Acme") == ["Acme"]
  {
    WordAcme();
    WordsOfWord("Acme", "");
    assert "Acme" + "" == "Acme";
    assert Words("") == [];
  }

  lemma CleanAcmeInc()
    ensures DropTrailingPunct(Strip("Acme, Inc")) == "Acme, Inc"
  {
    StripOfStripped("Acme, Inc");
  }

  lemma CleanAcmeComma()
    ensures DropTrailingPunct(Strip("Acme,")) == "Acme"
  {
    StripOfStripped("Acme,");
    assert "Acme,"[..4] == "Acme";
  }

  /** Popping from two words when only the second is a suffix leaves the first. */
  lemma PopSecond(a: string, b: string, p: string -> bool)
    requires !p(a) && p(b)
    ensures PopWhile([a, b], p) == [a]
  {
    assert [a, b][..1] == [a];
  }

  lemma DropInc()
    ensures DropSuffixes(["Acme,", "Inc"]) == ["Acme,"]
  {
    SuffixInc();
    NotSuffixByFirst("Acme,");
    PopSecond("Acme,", "Inc", IsSuffixWord);
  }

  lemma KeepAcme()
    ensures DropSuffixes(["Acme"]) == ["Acme"]
  {
    NotSuffixByFirst("Acme");
  }

  /** One pass is not enough: "Acme, Inc" loses its suffix but keeps the comma
      that preceded it, which only a second pass removes. */
  lemma CompanyNameNotIdempotent()
    ensures CompanyName("Acme, Inc") == "Acme,"
    ensures CompanyName("Acme,") == "Acme"
  {
    CleanAcmeInc();
    WordsAcmeInc();
    DropInc();
    CleanAcmeComma();
    WordsAcme();
    KeepAcme();
  }

  // ---- Titles ----

  predicate IsOpening(c: char) { c == '[' || c == '(' }

  predicate IsClosing(c: char) { c == ']' || c == ')' }

  /** Drops the leading run of opening brackets. */
  function DropOpening(s: string): (r: string)
    ensures |r| <= |s| && r == s[|s| - |r|..]
    ensures r != [] ==> !IsOpening(r[0])
    ensures forall i :: 0 <= i < |s| - |r| ==> IsOpening(s[i])
  {
    if s != [] && IsOpening(s[0]) then DropOpening(s[1..]) else s
  }

  /** Drops the trailing run of closing brackets. */
  function DropClosing(s: string): (r: string)
    ensures |r| <= |s| && r == s[..|r|]
    ensures r != [] ==> !IsClosing(r[|r| - 1])
    ensures forall i :: |r| <= i < |s| ==> IsClosing(s[i])
  {
    if s != [] && IsClosing(s[|s| - 1]) then DropClosing(s[..|s| - 1]) else s
  }

  /** `normalize_title(title)`: an empty title comes back as it is; otherwise the
      stripped title without its leading `[`/`(` run and trailing `]`/`)` run. */
  function NormalizeTitle(title: string): string {
    if title == "" then title else DropClosing(DropOpening(Strip(title)))
  }

  /** Where the normalised title begins inside the stripped title. */
  function TitleOffset(title: string): nat {
    |Strip(title)| - |DropOpening(Strip(title))|
  }

  /** `r` is `s` with a run of opening brackets cut from its front (`i` of them)
      and a run of closing brackets cut from its back. */
  ghost predicate BracketCut(s: string, r: string, i: nat) {
    i + |r| <= |s| && r == s[i..i + |r|] &&
    (forall k :: 0 <= k < i ==> IsOpening(s[k])) &&
    (forall k :: i + |r| <= k < |s| ==> IsClosing(s[k]))
  }

  /** The normalised title is the stripped title with a run of opening brackets cut
      from its front and a run of closing brackets cut from its back. */
  lemma NormalizeTitleCut(title: string)
    requires title != ""
    ensures BracketCut(Strip(title), NormalizeTitle(title), TitleOffset(title))
  {
    var s := Strip(title);
    var o := DropOpening(s);
    assert NormalizeTitle(title) == DropClosing(o);
    CutFromBack(s, o, DropClosing(o), |s| - |o|);
  }

  /** Cutting a closing run from the back of what is left after an opening run. */
  lemma CutFromBack(s: string, o: string, r: string, i: nat)
    requires |o| <= |s| && o == s[|s| - |o|..] && i == |s| - |o|
    requires forall k :: 0 <= k < i ==> IsOpening(s[k])
    requires |r| <= |o| && r == o[..|r|]
    requires forall k :: |r| <= k < |o| ==> IsClosing(o[k])
    ensures BracketCut(s, r, i)
  {
    assert r == s[i..i + |r|];
    forall k | i + |r| <= k < |s| ensures IsClosing(s[k]) {
      assert s[k] == o[k - i];
    }
  }

  /** The normalised title neither starts with an opening nor ends with a closing bracket. */
  lemma NormalizeTitleEnds(title: string)
    requires NormalizeTitle(title) != [] && title != ""
    ensures !IsOpening(NormalizeTitle(title)[0])
    ensures !IsClosing(NormalizeTitle(title)[|NormalizeTitle(title)| - 1])
  {
    var o := DropOpening(Strip(title));
    assert NormalizeTitle(title)[0] == o[0];
  }

  /** Titles without brackets at their ends are only stripped. */
  lemma NormalizeTitlePlain(title: string)
    requires Strip(title) != []
    requires !IsOpening(Strip(title)[0]) && !IsClosing(Strip(title)[|Strip(title)| - 1])
    ensures NormalizeTitle(title) == Strip(title)
  {
  }

  // ---- Salaries ----

  /** What parse_salary returns: amounts (whole units), currency symbol, interval word. */
  datatype Salary = Salary(min: Option<int>, max: Option<int>, currency: Option<char>, interval: Option<string>)

  const NoSalary := Salary(None, None, None, None)

  predicate IsCurrency(c: char) { c == '$' || c == '€' || c == '£' }

  /** The class `[-–to]`, matched ignoring case. */
  predicate IsRangeMark(c: char) { c == '-' || c == '–' || c == 't' || c == 'o' || c == 'T' || c == 'O' }

  /** `\w` on ASCII. */
  predicate IsWordChar(c: char) { IsLetter(c) || IsDigit(c) || c == '_' }

  /** End of the run of characters satisfying `p` that starts at `i`. */
  function RunEnd(s: string, i: nat, p: char -> bool): (j: nat)
    requires i <= |s|
    ensures i <= j <= |s|
    ensures forall k :: i <= k < j ==> p(s[k])
    ensures j < |s| ==> !p(s[j])
    decreases |s| - i
  {
    if i == |s| || !p(s[i]) then i else RunEnd(s, i + 1, p)
  }

  /** Start of the run of whitespace that ends at `q`. */
  function SpaceRunStart(s: string, q: nat): (b: nat)
    requires q <= |s|
    ensures b <= q
    ensures forall k :: b <= k < q ==> IsSpace(s[k])
    ensures b > 0 ==> !IsSpace(s[b - 1])
  {
    if q > 0 && IsSpace(s[q - 1]) then SpaceRunStart(s, q - 1) else q
  }

  /** Position of the first digit, or -1. */
  function FirstDigit(s: string): (i: int)
    ensures -1 <= i < |s|
    ensures i == -1 <==> forall k :: 0 <= k < |s| ==> !IsDigit(s[k])
    ensures i >= 0 ==> IsDigit(s[i]) && forall k :: 0 <= k < i ==> !IsDigit(s[k])
  {
    if s == [] then -1
    else if IsDigit(s[0]) then 0
    else
      var k := FirstDigit(s[1..]);
      assert forall j :: 1 <= j < |s| ==> s[j] == s[1..][j - 1];
      if k < 0 then -1 else k + 1
  }

  /** Value of a string of decimal digits. */
  function DigitsValue(ds: string): nat
    requires forall k :: 0 <= k < |ds| ==> IsDigit(ds[k])
  {
    if ds == [] then 0
    else
      assert IsDigit(ds[|ds| - 1]);
      10 * DigitsValue(ds[..|ds| - 1]) + (ds[|ds| - 1] as int - '0' as int)
  }

  /** An amount `\d+[kK]?` and the position after it. */
  datatype Amount = Amount(value: nat, end: nat)

  /** The amount that starts at `i`: all its digits, times 1000 when a `k` follows. */
  function AmountAt(s: string, i: nat): (a: Amount)
    requires i < |s| && IsDigit(s[i])
    ensures i < a.end <= |s|
  {
    var d := RunEnd(s, i, IsDigit);
    var v := DigitsValue(s[i..d]);
    if d < |s| && (s[d] == 'k' || s[d] == 'K') then Amount(v * 1000, d + 1) else Amount(v, d)
  }

  /** The symbol the leftmost match starts with: the currency sign, if any, right
      before the whitespace that precedes the first digit. */
  function CurrencyBefore(s: string, q: nat): (r: Option<char>)
    requires q <= |s|
    ensures r.Some? ==> IsCurrency(r.value)
  {
    var b := SpaceRunStart(s, q);
    if b > 0 && IsCurrency(s[b - 1]) then Some(s[b - 1]) else None
  }

  /** The optional upper-bound group at `e`: range marks, whitespace, then an
      amount. With `currencyFirst` the amount may carry its own currency sign. */
  function UpperAt(s: string, e: nat, currencyFirst: bool): (r: Option<Amount>)
    requires e <= |s|
    ensures r.Some? ==> e < r.value.end <= |s|
  {
    var d := RunEnd(s, e, IsRangeMark);
    if d == e then None
    else
      var f := RunEnd(s, d, IsSpace);
      var g := if currencyFirst && f < |s| && IsCurrency(s[f]) then RunEnd(s, f + 1, IsSpace) else f;
      if g < |s| && IsDigit(s[g]) then Some(AmountAt(s, g)) else None
  }

  /** The optional `per <word>` group at `h`, giving the word lower-cased. */
  function IntervalAt(s: string, h: nat): (r: Option<string>)
    requires h <= |s|
    ensures r.Some? ==> r.value != [] && forall k :: 0 <= k < |r.value| ==> !IsUpper(r.value[k])
  {
    if h + 3 <= |s| && Lower(s[h..h + 3]) == "per" then
      var w := RunEnd(s, h + 3, IsSpace);
      if w > h + 3 && w < |s| && IsWordChar(s[w]) then
        var word := Lower(s[w..RunEnd(s, w, IsWordChar)]);
        assert forall k :: 0 <= k < |word| ==> !IsUpper(word[k]);
        Some(word)
      else None
    else None
  }

  /** parse_salary, with the upper bound read with or without its own currency sign. */
  function ParseSalaryWith(text: string, currencyFirst: bool): (r: Salary)
    ensures r.min.None? ==> r == NoSalary
    ensures r.min.Some? ==> r.max.Some?
    ensures r.currency.Some? ==> IsCurrency(r.currency.value)
  {
    if text == "" then NoSalary
    else
      var s := ReplaceChar(text, ',', "");
      var q := FirstDigit(s);
      if q < 0 then NoSalary
      else
        var lo := AmountAt(s, q);
        var e := RunEnd(s, lo.end, IsSpace);
        var hi := UpperAt(s, e, currencyFirst);
        var h := RunEnd(s, if hi.Some? then hi.value.end else e, IsSpace);
        Salary(Some(lo.value), Some(if hi.Some? then hi.value.value else lo.value),
               CurrencyBefore(s, q), IntervalAt(s, h))
  }

  /** `parse_salary(text)` as written: the upper bound may not repeat the currency sign. */
  function ParseSalary(text: string): Salary {
    ParseSalaryWith(text, false)
  }

  /** parse_salary as its documented example needs it: `$100k-$150k` has two bounds. */
  function ParseSalaryIntended(text: string): Salary {
    ParseSalaryWith(text, true)
  }

  lemma {:induction false} RunEndAt(s: string, i: nat, j: nat, p: char -> bool)
    requires i <= j <= |s|
    requires forall k :: i <= k < j ==> p(s[k])
    requires j == |s| || !p(s[j])
    ensures RunEnd(s, i, p) == j
    decreases j - i
  {
    if i < j {
      RunEndAt(s, i + 1, j, p);
    }
  }

  lemma {:induction false} RemoveCharKeeps(s: string, a: char, c: char)
    requires c != a
    ensures c in ReplaceChar(s, a, "") <==> c in s
  {
    if s != [] {
      RemoveCharKeeps(s[1..], a, c);
      assert s == [s[0]] + s[1..];
    }
  }

  /** A text without digits states no salary, and a text with one states at least a minimum. */
  lemma ParseSalaryNeedsDigit(text: string, currencyFirst: bool)
    ensures ParseSalaryWith(text, currencyFirst) == NoSalary <==> forall k :: 0 <= k < |text| ==> !IsDigit(text[k])
  {
    if text != "" {
      var s := ReplaceChar(text, ',', "");
      var none := forall k :: 0 <= k < |text| ==> !IsDigit(text[k]);
      if none {
        forall k | 0 <= k < |s| ensures !IsDigit(s[k]) {
          if IsDigit(s[k]) {
            RemoveCharKeeps(text, ',', s[k]);
          }
        }
      } else {
        var k :| 0 <= k < |text| && IsDigit(text[k]);
        RemoveCharKeeps(text, ',', text[k]);
        assert text[k] in s;
      }
    }
  }

  /** Thousands separators make no difference: commas are dropped before matching. */
  lemma ParseSalaryIgnoresCommas(text: string, currencyFirst: bool)
    ensures ParseSalaryWith(text, currencyFirst) == ParseSalaryWith(ReplaceChar(text, ',', ""), currencyFirst)
  {
    var s := ReplaceChar(text, ',', "");
    ReplaceAbsent(s, ',', "");
    if text != "" && s == "" {
      ParseSalaryNeedsDigit(text, currencyFirst);
      ParseSalaryNeedsDigit(s, currencyFirst);
    }
  }

  /** The corrected reading never changes the minimum or the currency, and changes
      nothing at all when the reading as written already found an upper bound. */
  lemma ParseSalaryIntendedAgrees(text: string)
    ensures ParseSalaryIntended(text).min == ParseSalary(text).min
    ensures ParseSalaryIntended(text).currency == ParseSalary(text).currency
    ensures ParseSalary(text).max != ParseSalary(text).min ==> ParseSalaryIntended(text) == ParseSalary(text)
  {
    if text != "" {
      var s := ReplaceChar(text, ',', "");
      var q := FirstDigit(s);
      if q >= 0 {
        var lo := AmountAt(s, q);
        var e := RunEnd(s, lo.end, IsSpace);
        var d := RunEnd(s, e, IsRangeMark);
        if d != e {
          var f := RunEnd(s, d, IsSpace);
          if f < |s| && IsDigit(s[f]) {
            assert !IsCurrency(s[f]);
            assert UpperAt(s, e, true) == UpperAt(s, e, false);
          }
        }
      }
    }
  }

  // A salary range whose upper bound repeats the currency sign, as in `$100k-$150k per year`.

  predicate AllDigits(ds: string) { forall k :: 0 <= k < |ds| ==> IsDigit(ds[k]) }

  predicate AllLower(w: string) { forall k :: 0 <= k < |w| ==> IsLower(w[k]) }

  /** `s` is a sign `c`, digits `a`, `k-`, the sign again, digits `b`, `k per ` and the word `w`. */
  predicate RangeLayout(s: string, c: char, a: string, b: string, w: string) {
    var n, m := |a|, |b|;
    |s| == 10 + n + m + |w| &&
    s[0] == c && s[1..1 + n] == a && s[1 + n] == 'k' && s[2 + n] == '-' && s[3 + n] == c &&
    s[4 + n..4 + n + m] == b && s[4 + n + m] == 'k' && s[5 + n + m] == ' ' &&
    s[6 + n + m..9 + n + m] == "per" && s[9 + n + m] == ' ' && s[10 + n + m..] == w
  }

  /** Conditions on the parts of a currency range. */
  predicate RangeParts(c: char, a: string, b: string, w: string) {
    IsCurrency(c) && a != [] && AllDigits(a) && b != [] && AllDigits(b) && w != [] && AllLower(w)
  }

  lemma LayoutNoComma(s: string, c: char, a: string, b: string, w: string)
    requires RangeLayout(s, c, a, b, w) && RangeParts(c, a, b, w)
    ensures ',' !in s
  {
    var n, m := |a|, |b|;
    forall k | 0 <= k < |s| ensures s[k] != ',' {
      if 1 <= k < 1 + n { assert s[k] == s[1..1 + n][k - 1]; }
      else if 4 + n <= k < 4 + n + m { assert s[k] == s[4 + n..4 + n + m][k - 4 - n]; }
      else if 6 + n + m <= k < 9 + n + m { assert s[k] == s[6 + n + m..9 + n + m][k - 6 - n - m]; }
      else if 10 + n + m <= k { assert s[k] == s[10 + n + m..][k - 10 - n - m]; }
    }
  }

  /** A sign, digits up to `j`, a `k` at `j` and no space after: the first digit is at
      1, the amount is those digits in thousands, and the sign is the currency. */
  lemma SignedThousands(s: string, j: nat)
    requires 1 < j && j + 1 < |s|
    requires IsCurrency(s[0]) && AllDigits(s[1..j]) && s[j] == 'k' && !IsSpace(s[j + 1])
    ensures FirstDigit(s) == 1
    ensures AmountAt(s, 1) == Amount(DigitsValue(s[1..j]) * 1000, j + 1)
    ensures RunEnd(s, j + 1, IsSpace) == j + 1
    ensures CurrencyBefore(s, 1) == Some(s[0])
  {
    assert forall k :: 1 <= k < j ==> s[k] == s[1..j][k - 1];
    RunEndAt(s, 1, j, IsDigit);
    RunEndAt(s, j + 1, j + 1, IsSpace);
    assert SpaceRunStart(s, 1) == 1;
  }

  /** A range mark at `e` followed by a currency sign: as written no upper bound. */
  lemma MarkThenSign(s: string, e: nat)
    requires e + 1 < |s| && s[e] == '-' && IsCurrency(s[e + 1])
    ensures UpperAt(s, e, false) == None
    ensures IntervalAt(s, e) == None
  {
    RunEndAt(s, e, e + 1, IsRangeMark);
    RunEndAt(s, e + 1, e + 1, IsSpace);
    if e + 3 <= |s| {
      assert Lower(s[e..e + 3])[0] == '-';
    }
  }

  /** A range mark at `e`, a currency sign, then digits up to `j` and a `k`: the
      corrected upper bound is those digits in thousands. */
  lemma MarkSignThousands(s: string, e: nat, j: nat)
    requires e + 2 < j < |s|
    requires s[e] == '-' && IsCurrency(s[e + 1]) && AllDigits(s[e + 2..j]) && s[j] == 'k'
    ensures UpperAt(s, e, true) == Some(Amount(DigitsValue(s[e + 2..j]) * 1000, j + 1))
  {
    var d, g := e + 1, e + 2;
    RunEndAt(s, e, d, IsRangeMark);
    RunEndAt(s, d, d, IsSpace);
    RunEndAt(s, g, g, IsSpace);
    assert d + 1 == g;
    AmountThousands(s, g, j);
    UpperAtSteps(s, e, d, g);
  }

  /** The upper bound after a range mark ending at `d` and a currency sign at `d`. */
  lemma UpperAtSteps(s: string, e: nat, d: nat, g: nat)
    requires e < d < g < |s| && g == d + 1
    requires RunEnd(s, e, IsRangeMark) == d && RunEnd(s, d, IsSpace) == d && IsCurrency(s[d])
    requires RunEnd(s, d + 1, IsSpace) == g && IsDigit(s[g])
    ensures UpperAt(s, e, true) == Some(AmountAt(s, g))
  {
  }

  /** Digits from `g` up to a `k` at `j`: that many thousands. */
  lemma AmountThousands(s: string, g: nat, j: nat)
    requires g < j < |s| && AllDigits(s[g..j]) && s[j] == 'k'
    ensures IsDigit(s[g])
    ensures AmountAt(s, g) == Amount(DigitsValue(s[g..j]) * 1000, j + 1)
  {
    assert forall k :: g <= k < j ==> s[k] == s[g..j][k - g];
    RunEndAt(s, g, j, IsDigit);
  }

  /** ` per <word>` from `h` to the end: the interval is the word. */
  lemma PerWord(s: string, h: nat)
    requires h + 5 < |s| && s[h] == ' ' && s[h + 1..h + 4] == "per" && s[h + 4] == ' '
    requires AllLower(s[h + 5..])
    ensures RunEnd(s, h, IsSpace) == h + 1
    ensures IntervalAt(s, h + 1) == Some(s[h + 5..])
  {
    RunEndAt(s, h, h + 1, IsSpace);
    var w := s[h + 5..];
    assert IsLower(s[h + 5]) by { assert s[h + 5] == w[0]; }
    RunEndAt(s, h + 4, h + 5, IsSpace);
    assert forall k :: h + 5 <= k < |s| ==> s[k] == w[k - h - 5];
    RunEndAt(s, h + 5, |s|, IsWordChar);
    assert s[h + 5..|s|] == w;
    assert Lower(w) == w;
    assert Lower(s[h + 1..h + 4]) == "per";
  }

  /** The facts the parse of a comma-free text `s` establishes step by step: the
      first digit at `q`, the lower amount `lo`, the end `e` of the spaces after it,
      and the upper amount `hi`, and the end `h` of the spaces after that. */
  predicate Steps(s: string, currencyFirst: bool, q: nat, lo: Amount, e: nat, hi: Option<Amount>, h: nat) {
    s != [] && ',' !in s &&
    q < |s| && FirstDigit(s) == q && AmountAt(s, q) == lo &&
    lo.end <= |s| && RunEnd(s, lo.end, IsSpace) == e &&
    UpperAt(s, e, currencyFirst) == hi &&
    (if hi.Some? then hi.value.end else e) <= |s| &&
    RunEnd(s, if hi.Some? then hi.value.end else e, IsSpace) == h
  }

  /** The parse of a comma-free text, step by step. */
  lemma ParseSteps(s: string, currencyFirst: bool, q: nat, lo: Amount, e: nat, hi: Option<Amount>, h: nat)
    requires Steps(s, currencyFirst, q, lo, e, hi, h)
    ensures ParseSalaryWith(s, currencyFirst)
      == Salary(Some(lo.value), Some(if hi.Some? then hi.value.value else lo.value), CurrencyBefore(s, q), IntervalAt(s, h))
  {
    ReplaceAbsent(s, ',', "");
  }

  lemma LayoutLower(s: string, c: char, a: string, b: string, w: string)
    requires RangeLayout(s, c, a, b, w) && IsCurrency(c) && a != [] && AllDigits(a)
    ensures FirstDigit(s) == 1
    ensures AmountAt(s, 1) == Amount(DigitsValue(a) * 1000, 2 + |a|)
    ensures RunEnd(s, 2 + |a|, IsSpace) == 2 + |a|
    ensures CurrencyBefore(s, 1) == Some(c)
  {
    SignedThousands(s, 1 + |a|);
  }

  lemma LayoutUpper(s: string, c: char, a: string, b: string, w: string, e: nat, f: nat)
    requires RangeLayout(s, c, a, b, w) && IsCurrency(c) && b != [] && AllDigits(b)
    requires e == 2 + |a| && f == 5 + |a| + |b|
    ensures UpperAt(s, e, true) == Some(Amount(DigitsValue(b) * 1000, f))
  {
    var n, m := |a|, |b|;
    var j := f - 1;
    assert e + 2 == 4 + n && j == 4 + n + m && j + 1 == f;
    assert s[e + 2..j] == b;
    assert s[e] == '-' && s[e + 1] == c && s[j] == 'k';
    MarkSignThousands(s, e, j);
  }

  lemma LayoutInterval(s: string, c: char, a: string, b: string, w: string, f: nat, h: nat)
    requires RangeLayout(s, c, a, b, w) && w != [] && AllLower(w)
    requires f == 5 + |a| + |b| && h == f + 1
    ensures RunEnd(s, f, IsSpace) == h
    ensures IntervalAt(s, h) == Some(w)
  {
    assert s[f + 5..] == w;
    PerWord(s, f);
  }

  /** As written, the range mark is followed by a currency sign the upper-bound
      group cannot take, so the group does not match, the maximum falls back to the
      minimum and the interval after it is never read. */
  lemma RangeAsWritten(s: string, c: char, a: string, b: string, w: string)
    requires RangeLayout(s, c, a, b, w) && RangeParts(c, a, b, w)
    ensures ParseSalary(s) == Salary(Some(DigitsValue(a) * 1000), Some(DigitsValue(a) * 1000), Some(c), None)
  {
    var n := |a|;
    LayoutNoComma(s, c, a, b, w);
    LayoutLower(s, c, a, b, w);
    MarkThenSign(s, 2 + n);
    ParseSteps(s, false, 1, Amount(DigitsValue(a) * 1000, 2 + n), 2 + n, None, 2 + n);
  }

  /** The steps of the corrected parse of a currency range. */
  lemma LayoutSteps(s: string, c: char, a: string, b: string, w: string, e: nat, f: nat, h: nat)
    requires RangeLayout(s, c, a, b, w) && RangeParts(c, a, b, w)
    requires e == 2 + |a| && f == 5 + |a| + |b| && h == 6 + |a| + |b|
    ensures Steps(s, true, 1, Amount(DigitsValue(a) * 1000, e), e, Some(Amount(DigitsValue(b) * 1000, f)), h)
    ensures CurrencyBefore(s, 1) == Some(c) && IntervalAt(s, h) == Some(w)
  {
    LayoutNoComma(s, c, a, b, w);
    LayoutLower(s, c, a, b, w);
    LayoutUpper(s, c, a, b, w, e, f);
    LayoutInterval(s, c, a, b, w, f, h);
  }

  /** A currency range read step by step: the lower bound `lo` ends at `e`, the
      upper bound `hi` at `f`, and the interval starts at `h`. */
  lemma RangeFromSteps(s: string, c: char, e: nat, f: nat, h: nat, lo: nat, hi: nat, w: string)
    requires Steps(s, true, 1, Amount(lo, e), e, Some(Amount(hi, f)), h)
    requires CurrencyBefore(s, 1) == Some(c) && IntervalAt(s, h) == Some(w)
    ensures ParseSalaryIntended(s) == Salary(Some(lo), Some(hi), Some(c), Some(w))
  {
    ParseSteps(s, true, 1, Amount(lo, e), e, Some(Amount(hi, f)), h);
  }

  /** With a currency-aware upper bound the parse reads both amounts and the interval. */
  lemma RangeIntended(s: string, c: char, a: string, b: string, w: string)
    requires RangeLayout(s, c, a, b, w) && RangeParts(c, a, b, w)
    ensures ParseSalaryIntended(s) == Salary(Some(DigitsValue(a) * 1000), Some(DigitsValue(b) * 1000), Some(c), Some(w))
  {
    var e, f, h := 2 + |a|, 5 + |a| + |b|, 6 + |a| + |b|;
    LayoutSteps(s, c, a, b, w, e, f, h);
    RangeFromSteps(s, c, e, f, h, DigitsValue(a) * 1000, DigitsValue(b) * 1000, w);
  }

  /** The example parse_salary documents. */
  const SalaryExample := "$100k-$150k per year"

  lemma SalaryExampleLayout()
    ensures RangeLayout(SalaryExample, '$', "100", "150", "year") && RangeParts('$', "100", "150", "year")
  {
    assert SalaryExample[1..4] == "100";
  }

  lemma SalaryExampleDigits()
    ensures DigitsValue("100") == 100 && DigitsValue("150") == 150
  {
    assert "100"[..2] == "10" && "10"[..1] == "1" && "1"[..0] == "";
    assert DigitsValue("10") == 10;
    assert "150"[..2] == "15" && "15"[..1] == "1";
    assert DigitsValue("15") == 15;
  }

  /** As written, the documented example loses its upper bound and its interval. */
  lemma SalaryExampleAsWritten()
    ensures ParseSalary(SalaryExample) == Salary(Some(100000), Some(100000), Some('$'), None)
  {
    SalaryExampleLayout();
    SalaryExampleDigits();
    RangeAsWritten(SalaryExample, '$', "100", "150", "year");
  }

  /** The corrected parse gives the documented reading: 100k to 150k dollars a year. */
  lemma SalaryExampleIntended()
    ensures ParseSalaryIntended(SalaryExample) == Salary(Some(100000), Some(150000), Some('$'), Some("year"))
  {
    SalaryExampleLayout();
    SalaryExampleDigits();
    RangeIntended(SalaryExample, '$', "100", "150", "year");
  }

  // ---- Tags ----

  /** SENIORITY_KEYWORDS in insertion order: the keyword looked for and the tag it gives. */
  const SeniorityKeywords: seq<(string, string)> := [
    ("junior", "junior"), ("entry", "junior"), ("mid", "mid"), ("senior", "senior"),
    ("sr", "senior"), ("lead", "lead"), ("principal", "lead"), ("staff", "lead")]

  const TechKeywords: seq<string> := [
    "python", "javascript", "react", "fastapi", "aws", "docker", "kubernetes", "sql",
    "mongodb", "typescript", "java", "c++", "go", "ruby"]

  /** `kw in title or kw in description` */
  predicate Mentions(title: string, description: string, kw: string) {
    Contains(title, kw) || Contains(description, kw)
  }

  /** Index of the first keyword the texts mention, or `|keys|` when they mention none. */
  function FirstMentioned(keys: seq<(string, string)>, title: string, description: string): (i: nat)
    ensures i <= |keys|
    ensures forall j :: 0 <= j < i ==> !Mentions(title, description, keys[j].0)
    ensures i < |keys| ==> Mentions(title, description, keys[i].0)
  {
    if keys == [] then 0
    else if Mentions(title, description, keys[0].0) then 0
    else
      assert forall j :: 1 <= j < |keys| ==> keys[j] == keys[1..][j - 1];
      1 + FirstMentioned(keys[1..], title, description)
  }

  /** The seniority part of the tags: the tag of the first keyword mentioned, if any. */
  function SeniorityTags(keys: seq<(string, string)>, title: string, description: string): (r: seq<string>)
    ensures |r| <= 1
    ensures r == [] <==> forall j :: 0 <= j < |keys| ==> !Mentions(title, description, keys[j].0)
    ensures r != [] ==>
      exists i :: 0 <= i < |keys| && r[0] == keys[i].1 &&
        Mentions(title, description, keys[i].0) &&
        forall j :: 0 <= j < i ==> !Mentions(title, description, keys[j].0)
  {
    var i := FirstMentioned(keys, title, description);
    if i < |keys| then [keys[i].1] else []
  }

  /** The technology part of the tags: every keyword mentioned, in list order. */
  function TechTags(keys: seq<string>, title: string, description: string): (r: seq<string>)
    ensures |r| <= |keys|
    ensures forall x :: x in r <==> x in keys && Mentions(title, description, x)
  {
    if keys == [] then []
    else
      var init := keys[..|keys| - 1];
      assert keys == init + [keys[|keys| - 1]];
      TechTags(init, title, description)
        + (if Mentions(title, description, keys[|keys| - 1]) then [keys[|keys| - 1]] else [])
  }

  lemma TechTagsStep(keys: seq<string>, k: nat, title: string, description: string)
    requires k < |keys|
    ensures TechTags(keys[..k + 1], title, description)
      == TechTags(keys[..k], title, description) + (if Mentions(title, description, keys[k]) then [keys[k]] else [])
  {
    assert keys[..k + 1][..k] == keys[..k];
  }

  /** What extract_tags returns for lower-cased title and description. */
  function Tags(title: string, description: string, remote: bool, employmentType: string): seq<string> {
    SeniorityTags(SeniorityKeywords, title, description)
      + TechTags(TechKeywords, title, description)
      + (if remote then ["remote"] else [])
      + (if employmentType != "" then [Lower(employmentType)] else [])
  }

  /** The seniority loop of extract_tags: stops at the first keyword mentioned. */
  method FirstSeniorityTag(keys: seq<(string, string)>, t: string, d: string) returns (tags: seq<string>)
    ensures tags == SeniorityTags(keys, t, d)
  {
    tags := [];
    var i := 0;
    while i < |keys|
      invariant 0 <= i <= |keys|
      invariant tags == []
      invariant forall j :: 0 <= j < i ==> !Mentions(t, d, keys[j].0)
    {
      if Mentions(t, d, keys[i].0) {
        tags := [keys[i].1];
        break;
      }
      i := i + 1;
    }
  }

  /** The technology loop of extract_tags: appends every keyword mentioned. */
  method AppendTechTags(tags0: seq<string>, keys: seq<string>, t: string, d: string) returns (tags: seq<string>)
    ensures tags == tags0 + TechTags(keys, t, d)
  {
    tags := tags0;
    var k := 0;
    while k < |keys|
      invariant 0 <= k <= |keys|
      invariant tags == tags0 + TechTags(keys[..k], t, d)
    {
      TechTagsStep(keys, k, t, d);
      ghost var added := if Mentions(t, d, keys[k]) then [keys[k]] else [];
      AppendAssoc(tags0, TechTags(keys[..k], t, d), added);
      if Mentions(t, d, keys[k]) {
        tags := tags + [keys[k]];
      }
      k := k + 1;
    }
    TakeAll(keys);
  }

  /** `extract_tags(job)`, with the job's title and description (`''` when absent),
      its remote flag's truthiness and its employment type (`''` when falsy). */
  method ExtractTags(title: string, description: string, remote: bool, employmentType: string)
    returns (tags: seq<string>)
    ensures tags == Tags(Lower(title), Lower(description), remote, employmentType)
  {
    var t, d := Lower(title), Lower(description);
    tags := FirstSeniorityTag(SeniorityKeywords, t, d);
    tags := AppendTechTags(tags, TechKeywords, t, d);
    if remote {
      tags := tags + ["remote"];
    }
    if employmentType != "" {
      tags := tags + [Lower(employmentType)];
    }
  }

  /** At most one seniority tag and each technology at most once: never more than
      17 tags; a remote job is tagged remote, and the employment type comes last. */
  lemma TagsShape(title: string, description: string, remote: bool, employmentType: string)
    ensures var r := Tags(title, description, remote, employmentType);
      |r| <= 1 + |TechKeywords| + 2 &&
      (remote ==> "remote" in r) &&
      (employmentType != "" ==> r[|r| - 1] == Lower(employmentType)) &&
      (employmentType == "" && remote ==> r[|r| - 1] == "remote")
  {
  }

  // ---- Skills ----

  /** The characters of the class `[,/\n]`. */
  predicate IsSkillDelimiter(c: char) { c == ',' || c == '/' || c == '\n' }

  /** Splits at every character satisfying `p`, keeping empty pieces. Splitting at
      runs of delimiters instead only removes empty pieces, which extract_skills
      drops anyway. */
  function SplitWhere(s: string, p: char -> bool): (parts: seq<string>)
    ensures |parts| >= 1
    ensures forall k, j :: 0 <= k < |parts| && 0 <= j < |parts[k]| ==> !p(parts[k][j])
    decreases |s|
  {
    var i := RunEnd(s, 0, c => !p(c));
    if i == |s| then [s] else [s[..i]] + SplitWhere(s[i + 1..], p)
  }

  /** `s.title()` from a position whose previous character is (or is not) a letter. */
  function TitleFrom(s: string, afterLetter: bool): (r: string)
    ensures |r| == |s|
    ensures forall i :: 0 <= i < |s| && !IsLetter(s[i]) ==> r[i] == s[i]
    ensures forall i :: 0 <= i < |s| && IsLetter(s[i]) ==>
      r[i] == if (if i == 0 then afterLetter else IsLetter(s[i - 1])) then LowerChar(s[i]) else UpperChar(s[i])
  {
    if s == [] then []
    else
      var c := if !IsLetter(s[0]) then s[0] else if afterLetter then LowerChar(s[0]) else UpperChar(s[0]);
      var rest := TitleFrom(s[1..], IsLetter(s[0]));
      assert forall i :: 1 <= i < |s| ==> s[i] == s[1..][i - 1] && ([c] + rest)[i] == rest[i - 1];
      [c] + rest
  }

  /** `s.title()` on ASCII: a letter is upper-cased when it starts a run of letters
      and lower-cased otherwise; every other character is kept. */
  function TitleCase(s: string): (r: string)
    ensures |r| == |s|
    ensures forall i :: 0 <= i < |s| && !IsLetter(s[i]) ==> r[i] == s[i]
    ensures forall i :: 0 <= i < |s| && IsLetter(s[i]) ==>
      r[i] == if i > 0 && IsLetter(s[i - 1]) then LowerChar(s[i]) else UpperChar(s[i])
  {
    TitleFrom(s, false)
  }

  /** The stripped, title-cased, non-blank pieces, in order. */
  function SkillEntries(parts: seq<string>): (r: seq<string>)
    ensures forall k :: 0 <= k < |r| ==> r[k] != []
    ensures forall x :: x in r <==> exists p :: p in parts && Strip(p) != [] && x == TitleCase(Strip(p))
  {
    if parts == [] then []
    else
      var q := Strip(parts[0]);
      var rest := SkillEntries(parts[1..]);
      assert forall p :: p in parts <==> p == parts[0] || p in parts[1..];
      (if q != [] then [TitleCase(q)] else []) + rest
  }

  /** `extract_skills(description)`; `list(set(...))` is read as first occurrences in order. */
  function ExtractSkills(description: string): seq<string> {
    if description == "" then [] else Dedup(SkillEntries(SplitWhere(description, IsSkillDelimiter)))
  }

  lemma CaseKeepsLetters(c: char)
    requires IsLetter(c)
    ensures IsLetter(LowerChar(c)) && IsLetter(UpperChar(c))
  {
  }

  /** Title-casing keeps whitespace and delimiters where they are. */
  lemma TitleCaseKeeps(s: string)
    ensures forall i :: 0 <= i < |s| ==> (IsSpace(TitleCase(s)[i]) <==> IsSpace(s[i]))
    ensures forall i :: 0 <= i < |s| ==> (IsSkillDelimiter(TitleCase(s)[i]) <==> IsSkillDelimiter(s[i]))
  {
    forall i | 0 <= i < |s| && IsLetter(s[i])
      ensures IsLetter(TitleCase(s)[i])
    {
      CaseKeepsLetters(s[i]);
      var r := TitleCase(s);
      assert r[i] == if i > 0 && IsLetter(s[i - 1]) then LowerChar(s[i]) else UpperChar(s[i]);
    }
  }

  /** A non-blank piece without delimiters gives a clean skill. */
  lemma SkillEntryClean(p: string)
    requires Strip(p) != [] && forall j :: 0 <= j < |p| ==> !IsSkillDelimiter(p[j])
    ensures var x := TitleCase(Strip(p));
      x != [] && !IsSpace(x[0]) && !IsSpace(x[|x| - 1]) &&
      forall j :: 0 <= j < |x| ==> !IsSkillDelimiter(x[j])
  {
    var q := Strip(p);
    TitleCaseKeeps(q);
    StripChars(p);
    forall j | 0 <= j < |q| ensures !IsSkillDelimiter(q[j]) {
      assert q[j] in p;
    }
  }

  /** No input gives a blank, padded or delimiter-holding skill, or the same skill
      twice; and every skill is a stripped, title-cased piece of the description. */
  lemma ExtractSkillsClean(description: string)
    ensures var r := ExtractSkills(description);
      (description == "" ==> r == []) &&
      (forall i, j :: 0 <= i < j < |r| ==> r[i] != r[j]) &&
      forall x :: x in r ==>
        x != [] && !IsSpace(x[0]) && !IsSpace(x[|x| - 1]) &&
        (forall j :: 0 <= j < |x| ==> !IsSkillDelimiter(x[j])) &&
        exists p :: p in SplitWhere(description, IsSkillDelimiter) && x == TitleCase(Strip(p))
  {
    if description != "" {
      var parts := SplitWhere(description, IsSkillDelimiter);
      var entries := SkillEntries(parts);
      assert ExtractSkills(description) == Dedup(entries);
      forall x | x in Dedup(entries)
        ensures x != [] && !IsSpace(x[0]) && !IsSpace(x[|x| - 1])
        ensures forall j :: 0 <= j < |x| ==> !IsSkillDelimiter(x[j])
      {
        SkillOfParts(parts, x);
      }
    }
  }

  /** A skill made from delimiter-free pieces is clean. */
  lemma SkillOfParts(parts: seq<string>, x: string)
    requires forall k, j :: 0 <= k < |parts| && 0 <= j < |parts[k]| ==> !IsSkillDelimiter(parts[k][j])
    requires x in SkillEntries(parts)
    ensures x != [] && !IsSpace(x[0]) && !IsSpace(x[|x| - 1])
    ensures forall j :: 0 <= j < |x| ==> !IsSkillDelimiter(x[j])
  {
    var p :| p in parts && Strip(p) != [] && x == TitleCase(Strip(p));
    var k :| 0 <= k < |parts| && parts[k] == p;
    SkillEntryClean(p);
  }

  // ---- Fingerprint ----

  /** The text generate_fingerprint hashes. */
  function FingerprintInput(title: string, company: string, sourceId: string, location: string): string {
    title + "|" + (company + "|" + (sourceId + "|" + location))
  }

  /** `generate_fingerprint(...)`: `hash` is the SHA-256 hex digest, which this model
      leaves uninterpreted. */
  function GenerateFingerprint(hash: string -> string, title: string, company: string, sourceId: string,
                               location: string): string
  {
    hash(FingerprintInput(title, company, sourceId, location))
  }

  lemma SplitAtSeparator(a: string, rest: string, sep: char)
    requires sep !in a
    ensures Split(a + [sep] + rest, sep) == [a] + Split(rest, sep)
  {
    var s := a + [sep] + rest;
    assert s[|a|] == sep;
    assert s[..|a|] == a;
    assert s[|a| + 1..] == rest;
  }

  lemma SplitCons(a: string, rest: string, sep: char, tail: seq<string>)
    requires sep !in a && Split(rest, sep) == tail
    ensures Split(a + [sep] + rest, sep) == [a] + tail
  {
    SplitAtSeparator(a, rest, sep);
  }

  lemma SplitFour(a: string, b: string, c: string, d: string, sep: char)
    requires sep !in a && sep !in b && sep !in c && sep !in d
    ensures Split(a + [sep] + (b + [sep] + (c + [sep] + d)), sep) == [a, b, c, d]
  {
    ShortConses(a, b, c, d);
    SplitCons(c, d, sep, [d]);
    SplitCons(b, c + [sep] + d, sep, [c, d]);
    SplitCons(a, b + [sep] + (c + [sep] + d), sep, [b, c, d]);
  }

  /** Fields without a `|` can be read back from the fingerprint text. */
  lemma FingerprintInputFields(title: string, company: string, sourceId: string, location: string)
    requires '|' !in title && '|' !in company && '|' !in sourceId && '|' !in location
    ensures Split(FingerprintInput(title, company, sourceId, location), '|') == [title, company, sourceId, location]
  {
    SplitFour(title, company, sourceId, location, '|');
  }

  /** For `|`-free fields, two fingerprint texts are equal exactly when the four
      fields are: jobs differing in any field are hashed from different texts. */
  lemma FingerprintInputInjective(t: string, c: string, s: string, l: string,
                                  t': string, c': string, s': string, l': string)
    requires '|' !in t && '|' !in c && '|' !in s && '|' !in l
    requires '|' !in t' && '|' !in c' && '|' !in s' && '|' !in l'
    ensures FingerprintInput(t, c, s, l) == FingerprintInput(t', c', s', l') <==> (t, c, s, l) == (t', c', s', l')
  {
    FingerprintInputFields(t, c, s, l);
    FingerprintInputFields(t', c', s', l');
  }

  // ---- Validation ----

  /** `is_valid_job(job)`: the verdict and its reason. */
  function IsValidJob(job: Document): (r: (bool, string))
    ensures r.0 <==> r.1 == ""
    ensures r == (false, "missing_url") <==>
      !Truthy(Get(job, "listing_url", Null)) && !Truthy(Get(job, "apply_url", Null))
    ensures r == (false, "missing_title") <==>
      (Truthy(Get(job, "listing_url", Null)) || Truthy(Get(job, "apply_url", Null))) && !Truthy(Get(job, "title", Null))
    ensures r.0 <==>
      (Truthy(Get(job, "listing_url", Null)) || Truthy(Get(job, "apply_url", Null))) && Truthy(Get(job, "title", Null))
  {
    if !Truthy(Get(job, "listing_url", Null)) && !Truthy(Get(job, "apply_url", Null)) then (false, "missing_url")
    else if !Truthy(Get(job, "title", Null)) then (false, "missing_title")
    else (true, "")
  }
}
