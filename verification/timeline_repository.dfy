/** The `run_logs` collection seen as one user's timeline. */
module TimelineRepository {
  import opened Wrappers
  import opened Values
  import opened Sorting
  import opened DocStore
  import BaseRepository
  import ScanHistoryRepository

  const MissingUser := "user_id is required to fetch timeline logs"

  /** `get_recent_logs(user_id, limit)`: the user's entries, newest timestamp first,
      at most `limit`; an empty user id is refused. */
  method GetRecentLogs(c: FakeCollection, userId: string, limit: int) returns (r: Result<seq<Document>>)
    ensures userId == "" <==> r == Err(MissingUser)
    ensures r.Err? ==> r == Err(MissingUser)
    ensures r.Ok? ==> r.value == Latest(c.documents, ScanHistoryRepository.UserQuery(userId), "timestamp", limit)
    ensures r.Ok? && limit >= 0 ==> |r.value| <= limit
    ensures r.Ok? ==> forall d :: d in r.value ==> d in c.documents && Lookup(d, "user_id") == Str(userId)
    ensures r.Ok? ==> forall i, j :: 0 <= i < j < |r.value| ==>
      Le(Lookup(r.value[j], "timestamp"), Lookup(r.value[i], "timestamp"))
  {
    if userId == "" {
      return Err(MissingUser);
    }
    var query := ScanHistoryRepository.UserQuery(userId);
    var logs := FindSortedLimited(c, query, "timestamp", -1, limit);
    LatestIsTop(c.documents, query, "timestamp", limit);
    SingleKeyQuery("user_id", Str(userId));
    assert query == map["user_id" := Str(userId)];
    r := Ok(logs);
  }

  /** The entry add_step stores (before create adds its `_id`); a missing or empty
      `metadata` is stored as `{}`. */
  function StepEntry(user: Value, step: string, runId: Value, metadata: Option<Document>, now: int): (r: Document)
    ensures r.Keys == {"user_id", "step", "run_id", "timestamp", "metadata"}
    ensures r["user_id"] == user && r["step"] == Str(step) && r["run_id"] == runId
    ensures r["timestamp"] == Date(now)
    ensures r["metadata"] == Doc(if metadata.Some? then metadata.value else map[])
  {
    map[
      "user_id" := user,
      "step" := Str(step),
      "run_id" := runId,
      "timestamp" := Date(now),
      "metadata" := Doc(if metadata.Some? && metadata.value != map[] then metadata.value else map[])
    ]
  }

  /** `add_step(user_id, step, run_id, metadata)`: `now` is the clock reading and
      `freshId` the generated id. */
  method AddStep(c: FakeCollection, user: Value, step: string, runId: Value, metadata: Option<Document>,
                 now: int, freshId: string)
    modifies c
    ensures c.documents == old(c.documents) + [StepEntry(user, step, runId, metadata, now)["_id" := Str(freshId)]]
  {
    var id, stored := BaseRepository.Create(c, StepEntry(user, step, runId, metadata, now), freshId);
  }

  /** A step added for a user, newer than every earlier entry, is in that user's
      timeline for any positive limit. */
  lemma AddedStepIsListed(s: seq<Document>, userId: string, step: string, runId: Value,
                          metadata: Option<Document>, now: int, freshId: string, limit: int)
    requires userId != "" && limit > 0
    requires forall d :: d in s ==> !Le(Date(now), Lookup(d, "timestamp"))
    ensures StepEntry(Str(userId), step, runId, metadata, now)["_id" := Str(freshId)] in
      Latest(s + [StepEntry(Str(userId), step, runId, metadata, now)["_id" := Str(freshId)]],
             ScanHistoryRepository.UserQuery(userId), "timestamp", limit)
  {
    var e := StepEntry(Str(userId), step, runId, metadata, now)["_id" := Str(freshId)];
    assert Lookup(e, "user_id") == Str(userId) && Lookup(e, "timestamp") == Date(now);
    SingleKeyQuery("user_id", Str(userId));
    assert ScanHistoryRepository.UserQuery(userId) == map["user_id" := Str(userId)];
    NewestIsListed(s, ScanHistoryRepository.UserQuery(userId), "timestamp", e, limit);
  }

  /** A matching document appended with a key above every stored one is listed. */
  lemma NewestIsListed(s: seq<Document>, query: Document, key: string, e: Document, n: int)
    requires Matches(e, query) && n > 0
    requires forall d :: d in s ==> !Le(Lookup(e, key), Lookup(d, key))
    ensures e in Latest(s + [e], query, key, n)
  {
    var t := s + [e];
    LatestNonEmpty(t, query, key, e, n);
    LatestHeadBounds(t, query, key, n, e);
    var x := Latest(t, query, key, n)[0];
    assert x == e || x in s;
  }

  /** The first listed document is stored, and a matching document is either
      listed or has a key no greater than the first listed one. */
  lemma LatestHeadBounds(s: seq<Document>, query: Document, key: string, n: int, d: Document)
    requires Latest(s, query, key, n) != []
    requires d in s && Matches(d, query)
    ensures Latest(s, query, key, n)[0] in s
    ensures d in Latest(s, query, key, n) || Le(Lookup(d, key), Lookup(Latest(s, query, key, n)[0], key))
  {
    LatestIsTop(s, query, key, n);
    assert Latest(s, query, key, n)[0] in Latest(s, query, key, n);
  }

  lemma LatestNonEmpty(s: seq<Document>, query: Document, key: string, e: Document, n: int)
    requires e in s && Matches(e, query) && n > 0
    ensures Latest(s, query, key, n) != []
  {
    var f := Filter(s, query);
    assert e in f;
    var sorted := StableSort(Order(Field(key), true), f);
    assert |sorted| > 0;
    assert |Prefix(sorted, n)| > 0;
  }
}
