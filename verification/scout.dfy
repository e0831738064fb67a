/** The scout stage of the pipeline: one search per recognised job board named in
    the run's sources, in a fixed order, and the listings they return joined into
    one list. The searches themselves are a parameter. */
module Scout {
  import opened Wrappers
  import opened Values
  import opened Text

  /** The job boards the scout knows. */
  datatype Board = GoogleJobs | YCombinator | Wellfound | LinkedIn | Indeed

  /** The name a run's sources use for each board. */
  function BoardName(b: Board): string {
    match b
    case GoogleJobs => "google_jobs"
    case YCombinator => "yc"
    case Wellfound => "wellfound"
    case LinkedIn => "linkedin"
    case Indeed => "indeed"
  }

  /** The boards in the order their searches are issued. */
  const Boards: seq<Board> := [GoogleJobs, YCombinator, Wellfound, LinkedIn, Indeed]

  /** Where a board stands in that order. */
  function Rank(b: Board): nat {
    match b
    case GoogleJobs => 0
    case YCombinator => 1
    case Wellfound => 2
    case LinkedIn => 3
    case Indeed => 4
  }

  /** One search: the board, the query text, and the location (only the Google
      search takes one). */
  datatype Search = Search(board: Board, query: string, location: Option<string>)

  /** The search on board `b` when the sources name it, and none otherwise. */
  function SearchOn(b: Board, sources: seq<string>, query: string, location: string): seq<Search> {
    if BoardName(b) in sources then [Search(b, query, if b == GoogleJobs then Some(location) else None)]
    else []
  }

  /** The searches issued for the boards `boards`, in their order. */
  function SearchesFor(boards: seq<Board>, sources: seq<string>, query: string, location: string): seq<Search> {
    if boards == [] then []
    else SearchOn(boards[0], sources, query, location) + SearchesFor(boards[1..], sources, query, location)
  }

  /** What each search of a run is: a board of the run named in the sources, with
      the query, and the location exactly when the board is Google's; and every
      such board is searched. */
  lemma {:induction false} SearchesForFacts(boards: seq<Board>, sources: seq<string>, query: string, location: string)
    ensures var r := SearchesFor(boards, sources, query, location);
      |r| <= |boards| &&
      (forall s :: s in r ==>
        s.board in boards && BoardName(s.board) in sources && s.query == query &&
        (s.location.Some? <==> s.board == GoogleJobs) && (s.location.Some? ==> s.location.value == location)) &&
      (forall b :: b in boards && BoardName(b) in sources ==> exists s :: s in r && s.board == b)
  {
    if boards != [] {
      SearchesForFacts(boards[1..], sources, query, location);
      var head := SearchOn(boards[0], sources, query, location);
      var tail := SearchesFor(boards[1..], sources, query, location);
      forall b | b in boards && BoardName(b) in sources
        ensures exists s: Search :: s in head + tail && s.board == b
      {
        if b == boards[0] {
          assert head[0] in head + tail;
        } else {
          assert b in boards[1..];
          var s :| s in tail && s.board == b;
          assert s in head + tail;
        }
      }
    }
  }

  /** The searches `scout_node` issues. */
  function Searches(sources: seq<string>, query: string, location: string): seq<Search> {
    SearchesFor(Boards, sources, query, location)
  }

  /** The listings of a run of searches, joined in order. */
  function Listings(searches: seq<Search>, fetch: Search -> seq<Document>): seq<Document>
  {
    if searches == [] then []
    else Listings(searches[..|searches| - 1], fetch) + fetch(searches[|searches| - 1])
  }

  /** `scout_node`: `keywords` and `location` come from the search query (an absent
      location is `None`), `sources` from the run's metadata, and `fetch` stands for
      the board searches. */
  method ScoutNode(sources: seq<string>, keywords: seq<string>, location: Option<string>, fetch: Search -> seq<Document>)
    returns (searches: seq<Search>, rawJobs: seq<Document>)
    ensures searches == Searches(sources, Join(keywords, " "), location.GetOr("Remote"))
    ensures rawJobs == Listings(searches, fetch)
  {
    var query := Join(keywords, " ");
    var place := location.GetOr("Remote");
    searches := [];
    if "google_jobs" in sources {
      searches := searches + [Search(GoogleJobs, query, Some(place))];
    }
    ghost var upTo := SearchOn(GoogleJobs, sources, query, place);
    assert searches == upTo;
    if "yc" in sources {
      searches := searches + [Search(YCombinator, query, None)];
    }
    upTo := upTo + SearchOn(YCombinator, sources, query, place);
    assert searches == upTo;
    if "wellfound" in sources {
      searches := searches + [Search(Wellfound, query, None)];
    }
    upTo := upTo + SearchOn(Wellfound, sources, query, place);
    assert searches == upTo;
    if "linkedin" in sources {
      searches := searches + [Search(LinkedIn, query, None)];
    }
    upTo := upTo + SearchOn(LinkedIn, sources, query, place);
    assert searches == upTo;
    if "indeed" in sources {
      searches := searches + [Search(Indeed, query, None)];
    }
    upTo := upTo + SearchOn(Indeed, sources, query, place);
    assert searches == upTo;
    assert searches == Searches(sources, query, place) by {
      SearchesUnrolled(sources, query, place);
    }
    rawJobs := [];
    for k := 0 to |searches|
      invariant rawJobs == Listings(searches[..k], fetch)
    {
      ListingsPrefix(searches, k, fetch);
      rawJobs := rawJobs + fetch(searches[k]);
    }
    ListingsPrefix(searches, |searches|, fetch);
  }

  /** The listings of a prefix of the searches grow by one search's results at a time. */
  lemma ListingsPrefix(searches: seq<Search>, k: nat, fetch: Search -> seq<Document>)
    requires k <= |searches|
    ensures k < |searches| ==> Listings(searches[..k + 1], fetch) == Listings(searches[..k], fetch) + fetch(searches[k])
    ensures k == |searches| ==> Listings(searches[..k], fetch) == Listings(searches, fetch)
  {
    if k < |searches| {
      assert searches[..k + 1][..k] == searches[..k];
    } else {
      assert searches[..k] == searches;
    }
  }

  /** The searches, board by board. */
  lemma SearchesUnrolled(sources: seq<string>, query: string, location: string)
    ensures Searches(sources, query, location) ==
      SearchOn(GoogleJobs, sources, query, location) + SearchOn(YCombinator, sources, query, location) +
      SearchOn(Wellfound, sources, query, location) + SearchOn(LinkedIn, sources, query, location) +
      SearchOn(Indeed, sources, query, location)
  {
    var b4: seq<Board> := [Indeed];
    var b3: seq<Board> := [LinkedIn] + b4;
    var b2: seq<Board> := [Wellfound] + b3;
    var b1: seq<Board> := [YCombinator] + b2;
    assert b4[1..] == [] && b3[1..] == b4 && b2[1..] == b3 && b1[1..] == b2 && Boards[1..] == b1;
    var g := SearchOn(GoogleJobs, sources, query, location);
    var y := SearchOn(YCombinator, sources, query, location);
    var w := SearchOn(Wellfound, sources, query, location);
    var l := SearchOn(LinkedIn, sources, query, location);
    var i := SearchOn(Indeed, sources, query, location);
    var s4 := SearchesFor(b4, sources, query, location);
    var s3 := SearchesFor(b3, sources, query, location);
    var s2 := SearchesFor(b2, sources, query, location);
    var s1 := SearchesFor(b1, sources, query, location);
    assert b4[0] == Indeed && b3[0] == LinkedIn && b2[0] == Wellfound && b1[0] == YCombinator && Boards[0] == GoogleJobs;
    assert SearchesFor(b4[1..], sources, query, location) == [];
    assert s4 == i + [];
    assert i + [] == i;
    assert s3 == l + s4;
    assert s2 == w + s3;
    assert s1 == y + s2;
    assert Searches(sources, query, location) == g + s1;
    Regroup(g, y, w, l, i);
  }

  lemma Regroup<T>(a: seq<T>, b: seq<T>, c: seq<T>, d: seq<T>, e: seq<T>)
    ensures a + (b + (c + (d + e))) == a + b + c + d + e
  {
    assert a + (b + (c + (d + e))) == (a + b) + (c + (d + e));
    assert (a + b) + (c + (d + e)) == (a + b + c) + (d + e);
  }

  // ---- Properties ----

  /** The searches go board by board in the fixed order. */
  predicate InBoardOrder(r: seq<Search>) {
    forall i, j :: 0 <= i < j < |r| ==> Rank(r[i].board) < Rank(r[j].board)
  }

  /** Boards of strictly increasing rank give searches of strictly increasing rank. */
  lemma {:induction false} SearchesForOrdered(boards: seq<Board>, sources: seq<string>, query: string, location: string)
    requires forall i, j :: 0 <= i < j < |boards| ==> Rank(boards[i]) < Rank(boards[j])
    ensures InBoardOrder(SearchesFor(boards, sources, query, location))
  {
    if boards != [] {
      SearchesForOrdered(boards[1..], sources, query, location);
      HeadBeforeTail(boards, sources, query, location);
      ConcatInOrder(SearchOn(boards[0], sources, query, location), SearchesFor(boards[1..], sources, query, location),
                    Rank(boards[0]));
    }
  }

  /** The search on the first board is on that board, and every later search is
      on a board of higher rank. */
  lemma HeadBeforeTail(boards: seq<Board>, sources: seq<string>, query: string, location: string)
    requires boards != []
    requires forall i, j :: 0 <= i < j < |boards| ==> Rank(boards[i]) < Rank(boards[j])
    ensures forall s :: s in SearchOn(boards[0], sources, query, location) ==> s.board == boards[0]
    ensures forall s :: s in SearchesFor(boards[1..], sources, query, location) ==> Rank(boards[0]) < Rank(s.board)
  {
    var rest := boards[1..];
    SearchesForFacts(rest, sources, query, location);
    forall s | s in SearchesFor(rest, sources, query, location)
      ensures Rank(boards[0]) < Rank(s.board)
    {
      var k :| 0 <= k < |rest| && rest[k] == s.board;
      assert boards[k + 1] == s.board;
    }
  }

  /** At most one search of rank `first` followed by searches in board order of
      higher rank are in board order. */
  lemma ConcatInOrder(head: seq<Search>, tail: seq<Search>, first: int)
    requires |head| <= 1 && forall s :: s in head ==> Rank(s.board) == first
    requires InBoardOrder(tail) && forall s :: s in tail ==> first < Rank(s.board)
    ensures InBoardOrder(head + tail)
  {
    var r := head + tail;
    forall i, j | 0 <= i < j < |r|
      ensures Rank(r[i].board) < Rank(r[j].board)
    {
      assert r[j] == tail[j - |head|] && r[j] in tail;
      if i < |head| {
        assert r[i] in head;
      } else {
        assert r[i] == tail[i - |head|];
      }
    }
  }

  /** Each recognised source is searched exactly once, in the fixed board order,
      with the same query; only the Google search gets the location; names that
      are not boards are ignored. */
  lemma SearchesInBoardOrder(sources: seq<string>, query: string, location: string)
    ensures var r := Searches(sources, query, location);
      InBoardOrder(r) &&
      (forall s :: s in r ==>
        BoardName(s.board) in sources && s.query == query &&
        (s.location.Some? <==> s.board == GoogleJobs) && (s.location.Some? ==> s.location.value == location)) &&
      (forall b: Board :: BoardName(b) in sources ==> exists s :: s in r && s.board == b)
  {
    assert forall i :: 0 <= i < |Boards| ==> Rank(Boards[i]) == i;
    SearchesForOrdered(Boards, sources, query, location);
    SearchesForFacts(Boards, sources, query, location);
    forall b: Board ensures b in Boards {
      assert Boards[Rank(b)] == b;
    }
  }

  /** Without a recognised source nothing is searched and no listing is found. */
  lemma NoBoardNoListings(sources: seq<string>, query: string, location: string, fetch: Search -> seq<Document>)
    requires forall b: Board :: BoardName(b) !in sources
    ensures Searches(sources, query, location) == []
    ensures Listings(Searches(sources, query, location), fetch) == []
  {
    SearchesUnrolled(sources, query, location);
    assert BoardName(GoogleJobs) !in sources && BoardName(YCombinator) !in sources;
    assert BoardName(Wellfound) !in sources && BoardName(LinkedIn) !in sources && BoardName(Indeed) !in sources;
  }

  /** Joining two runs of searches joins their listings: each search contributes its
      own results, in turn. */
  lemma {:induction false} ListingsAppend(a: seq<Search>, b: seq<Search>, fetch: Search -> seq<Document>)
    ensures Listings(a + b, fetch) == Listings(a, fetch) + Listings(b, fetch)
    decreases |b|
  {
    if b == [] {
      assert a + b == a;
    } else {
      var init := b[..|b| - 1];
      assert (a + b)[..|a + b| - 1] == a + init;
      assert (a + b)[|a + b| - 1] == b[|b| - 1];
      ListingsAppend(a, init, fetch);
    }
  }

  /** One search contributes exactly its own results. */
  lemma ListingsOne(s: Search, fetch: Search -> seq<Document>)
    ensures Listings([s], fetch) == fetch(s)
  {
    assert [s][..0] == [];
  }
}
