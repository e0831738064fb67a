/** The `outreach_templates` collection: a user's message templates. */
module OutreachRepository {
  import opened Wrappers
  import opened Values
  import opened Sorting
  import opened DocStore
  import BaseRepository
  import ScanHistoryRepository

  const TemplateListLength := 100

  /** `get_by_user_id(user_id)`: the user's templates, newest created_at first,
      at most 100 (the cursor has no limit; to_list cuts it). */
  method GetByUserId(c: FakeCollection, userId: string) returns (r: seq<Document>)
    ensures r == Prefix(StableSort(Order(Field("created_at"), true),
                   Filter(c.documents, ScanHistoryRepository.UserQuery(userId))), TemplateListLength)
    ensures |r| <= TemplateListLength
    ensures forall d :: d in r ==> d in c.documents && Lookup(d, "user_id") == Str(userId)
    ensures forall i, j :: 0 <= i < j < |r| ==> Le(Lookup(r[j], "created_at"), Lookup(r[i], "created_at"))
  {
    var query := ScanHistoryRepository.UserQuery(userId);
    var cursor := c.Find(query, map[]);
    ProjectAllNone(Filter(c.documents, query));
    cursor.SortOn("created_at", -1);
    r := cursor.ToList(TemplateListLength);
    LatestIsTop(c.documents, query, "created_at", TemplateListLength);
    PrefixTwice(StableSort(Order(Field("created_at"), true), Filter(c.documents, query)), TemplateListLength);
    SingleKeyQuery("user_id", Str(userId));
    assert query == map["user_id" := Str(userId)];
  }

  /** The query get_by_id sends: the template id and its owner. */
  function OwnedQuery(templateId: string, userId: string): Document {
    map["_id" := Str(templateId), "user_id" := Str(userId)]
  }

  lemma OwnedQueryMatches(d: Document, templateId: string, userId: string)
    ensures Matches(d, OwnedQuery(templateId, userId)) <==>
      Lookup(d, "_id") == Str(templateId) && Lookup(d, "user_id") == Str(userId)
  {
    var q := OwnedQuery(templateId, userId);
    if Matches(d, q) {
      MatchedValue(d, q, "_id");
      MatchedValue(d, q, "user_id");
    }
  }

  /** `get_by_id(template_id, user_id)`: the template with that id, only when it
      belongs to that user; None otherwise. */
  method GetById(c: FakeCollection, templateId: string, userId: string) returns (r: Option<Document>)
    ensures r.None? <==> forall d :: d in c.documents ==>
      Lookup(d, "_id") != Str(templateId) || Lookup(d, "user_id") != Str(userId)
    ensures r.Some? ==>
      r.value in c.documents && Lookup(r.value, "_id") == Str(templateId) && Lookup(r.value, "user_id") == Str(userId)
  {
    var data := BaseRepository.FindOne(c, OwnedQuery(templateId, userId), [], map[]);
    forall d ensures Matches(d, OwnedQuery(templateId, userId)) <==>
      Lookup(d, "_id") == Str(templateId) && Lookup(d, "user_id") == Str(userId)
    {
      OwnedQueryMatches(d, templateId, userId);
    }
    FindOneUnsorted(c.documents, OwnedQuery(templateId, userId));
    r := if data.Some? && data.value != map[] then data else None;
  }
}
