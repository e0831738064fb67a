/** The outreach service: a user's message templates, created, edited, copied and
    deleted only by their owner, and the three templates every new user starts with. */
module OutreachService {
  import opened Wrappers
  import opened Values
  import opened DocStore
  import opened Text
  import BaseRepository
  import OutreachRepository

  /** The template fields a caller may set. */
  const Editable: set<string> := {"name", "subject", "content", "type"}

  /** The record `create_template` stores for `owner`. */
  function TemplateRecord(owner: Value, data: Document, freshId: string, now: int): Document {
    map["_id" := Str(freshId), "user_id" := owner, "name" := Get(data, "name", Null),
        "subject" := Get(data, "subject", Null), "content" := Get(data, "content", Null),
        "type" := Get(data, "type", Str("email")), "created_at" := Date(now), "updated_at" := Date(now)]
  }

  /** A stored template has exactly eight fields: a fresh id, the owner, the name,
      subject and content given (null when absent), the type given or "email",
      and the time as both creation and update time. */
  lemma TemplateRecordFields(owner: Value, data: Document, freshId: string, now: int)
    ensures var t := TemplateRecord(owner, data, freshId, now);
      t.Keys == {"_id", "user_id", "name", "subject", "content", "type", "created_at", "updated_at"} &&
      t["_id"] == Str(freshId) && t["user_id"] == owner &&
      t["name"] == Get(data, "name", Null) && t["subject"] == Get(data, "subject", Null) &&
      t["content"] == Get(data, "content", Null) && t["type"] == Get(data, "type", Str("email")) &&
      t["created_at"] == Date(now) && t["updated_at"] == Date(now)
  {
  }

  /** `create_template(user_id, data)`: `freshId` stands for the generated uuid4 and
      `now` for the clock. Returns the new template's id. */
  method CreateTemplate(c: FakeCollection, owner: Value, data: Document, freshId: string, now: int) returns (id: Value)
    modifies c
    ensures c.documents == old(c.documents) + [TemplateRecord(owner, data, freshId, now)]
    ensures id == Str(freshId)
  {
    var record := TemplateRecord(owner, data, freshId, now);
    var stored;
    id, stored := BaseRepository.Create(c, record, freshId);
  }

  /** The template `templateId` belongs to user `userId`. */
  predicate Owns(s: seq<Document>, userId: string, templateId: string) {
    exists d :: d in s && Lookup(d, "_id") == Str(templateId) && Lookup(d, "user_id") == Str(userId)
  }

  /** The update time, and each of `keys` the caller gave. */
  function UpdateFieldsOf(data: Document, now: int, keys: set<string>): (u: Document)
    requires "updated_at" !in keys
    ensures u.Keys == {"updated_at"} + (data.Keys * keys)
    ensures forall k :: k in u ==> k == "updated_at" || (k in data && k in keys)
    ensures u["updated_at"] == Date(now)
    ensures forall k :: k in data && k in keys ==> u[k] == data[k]
  {
    map k | k in {"updated_at"} + (data.Keys * keys) :: if k == "updated_at" then Date(now) else data[k]
  }

  /** Looking at one more key sets it when the caller gave it. */
  lemma UpdateFieldsOfAdd(data: Document, now: int, keys: set<string>, key: string)
    requires "updated_at" !in keys && key != "updated_at"
    ensures UpdateFieldsOf(data, now, keys + {key})
      == if key in data then UpdateFieldsOf(data, now, keys)[key := data[key]] else UpdateFieldsOf(data, now, keys)
  {
  }

  /** The editable fields, in the order `update_template` looks at them. */
  lemma EditableInOrder(none: set<string>)
    requires none == {}
    ensures none + {"name"} + {"subject"} + {"content"} + {"type"} == Editable
  {
  }

  /** The fields `update_template` sets: the update time, and each editable field
      the caller gave, and no other. */
  function UpdateFields(data: Document, now: int): (u: Document)
    ensures u.Keys == {"updated_at"} + (data.Keys * Editable)
    ensures forall k :: k in u ==> k == "updated_at" || (k in data && k in Editable)
    ensures u["updated_at"] == Date(now)
    ensures forall k :: k in data && k in Editable ==> u[k] == data[k]
  {
    UpdateFieldsOf(data, now, Editable)
  }

  /** The update `update_template` builds: the update time, then each editable
      field the caller gave, one at a time. */
  method UpdateDocument(data: Document, now: int) returns (update: Document)
    ensures update == UpdateFields(data, now)
  {
    update := map["updated_at" := Date(now)];
    ghost var none: set<string> := {};
    assert update == UpdateFieldsOf(data, now, none);
    update := if "name" in data then update["name" := data["name"]] else update;
    UpdateFieldsOfAdd(data, now, none, "name");
    update := if "subject" in data then update["subject" := data["subject"]] else update;
    UpdateFieldsOfAdd(data, now, none + {"name"}, "subject");
    update := if "content" in data then update["content" := data["content"]] else update;
    UpdateFieldsOfAdd(data, now, none + {"name"} + {"subject"}, "content");
    update := if "type" in data then update["type" := data["type"]] else update;
    UpdateFieldsOfAdd(data, now, none + {"name"} + {"subject"} + {"content"}, "type");
    EditableInOrder(none);
  }

  /** `update_template(user_id, template_id, data)`: false, with nothing changed,
      unless the user owns the template; otherwise its editable fields given in
      `data` and its update time are set, and true is returned. */
  method UpdateTemplate(c: FakeCollection, userId: string, templateId: string, data: Document, now: int)
    returns (updated: bool)
    modifies c
    ensures updated <==> Owns(old(c.documents), userId, templateId)
    ensures !updated ==> c.documents == old(c.documents)
    ensures updated ==> c.documents == UpdateFirst(old(c.documents), BaseRepository.ById(Str(templateId)), UpdateFields(data, now))
  {
    var existing := OutreachRepository.GetById(c, templateId, userId);
    if existing.None? {
      return false;
    }
    var update := UpdateDocument(data, now);
    BaseRepository.Update(c, Str(templateId), update);
    updated := true;
  }

  /** An update by the owner reaches the template with that id: its given fields
      and update time change, its other fields (the owner among them, unless the
      caller's data has no owner field to set) stay, and no other template changes. */
  lemma UpdateTouchesOnlyTemplate(s: seq<Document>, userId: string, templateId: string, data: Document, now: int)
    requires Owns(s, userId, templateId)
    ensures var r := UpdateFirst(s, BaseRepository.ById(Str(templateId)), UpdateFields(data, now));
      var i := FirstMatch(s, BaseRepository.ById(Str(templateId)));
      0 <= i < |s| && Lookup(s[i], "_id") == Str(templateId) && |r| == |s| &&
      r[i]["updated_at"] == Date(now) &&
      (forall k :: k in data && k in Editable ==> r[i][k] == data[k]) &&
      (forall k :: k in s[i] && k != "updated_at" && k !in Editable ==> k in r[i] && r[i][k] == s[i][k]) &&
      (forall j :: 0 <= j < |s| && j != i ==> r[j] == s[j])
  {
    var q, u := BaseRepository.ById(Str(templateId)), UpdateFields(data, now);
    var d :| d in s && Lookup(d, "_id") == Str(templateId) && Lookup(d, "user_id") == Str(userId);
    SingleKeyQuery("_id", Str(templateId));
    assert Matches(d, q);
    var i := FirstMatch(s, q);
    assert i >= 0;
    BaseRepository.UpdateMerges(s, Str(templateId), u);
    var r := UpdateFirst(s, q, u);
    forall k | k in data && k in Editable ensures r[i][k] == data[k] {
      assert k in u;
    }
    forall k | k in s[i] && k != "updated_at" && k !in Editable ensures k in r[i] && r[i][k] == s[i][k] {
      assert k !in u;
    }
  }

  /** The data of a copy of `original`: its name with " (Copy)" after it, and its
      subject, content and type. */
  function CopyData(original: Document): (d: Document)
    ensures d.Keys == Editable
    ensures d["name"] == Str(Display(Get(original, "name", Null)) + " (Copy)")
    ensures d["subject"] == Get(original, "subject", Null) && d["content"] == Get(original, "content", Null)
    ensures d["type"] == Get(original, "type", Null)
  {
    map["name" := Str(Display(Get(original, "name", Null)) + " (Copy)"),
        "subject" := Get(original, "subject", Null),
        "content" := Get(original, "content", Null),
        "type" := Get(original, "type", Null)]
  }

  /** `duplicate_template(user_id, template_id)`: None unless the user owns the
      template; otherwise a new template of the same user, a copy of it, whose id
      is returned. */
  method DuplicateTemplate(c: FakeCollection, userId: string, templateId: string, freshId: string, now: int)
    returns (id: Option<Value>)
    modifies c
    ensures id.None? <==> !Owns(old(c.documents), userId, templateId)
    ensures id.None? ==> c.documents == old(c.documents)
    ensures id.Some? ==> id.value == Str(freshId)
    ensures id.Some? ==>
      exists original :: original in old(c.documents) &&
        Lookup(original, "_id") == Str(templateId) && Lookup(original, "user_id") == Str(userId) &&
        c.documents == old(c.documents) + [TemplateRecord(Str(userId), CopyData(original), freshId, now)]
  {
    var original := OutreachRepository.GetById(c, templateId, userId);
    if original.None? {
      return None;
    }
    var newId := CreateTemplate(c, Str(userId), CopyData(original.value), freshId, now);
    id := Some(newId);
  }

  /** A copy belongs to the same user, keeps the original's subject, content and
      type (an explicit type; a missing one reads as null and stays null), and is
      named after it. */
  lemma CopyKeepsTemplate(original: Document, userId: string, freshId: string, now: int)
    ensures var t := TemplateRecord(Str(userId), CopyData(original), freshId, now);
      t["user_id"] == Str(userId) &&
      t["subject"] == Get(original, "subject", Null) && t["content"] == Get(original, "content", Null) &&
      t["type"] == Get(original, "type", Null) &&
      t["name"] == Str(Display(Get(original, "name", Null)) + " (Copy)")
  {
    var data := CopyData(original);
    TemplateRecordFields(Str(userId), data, freshId, now);
    assert "type" in data;
  }

  /** `delete_template(user_id, template_id)`: false, with nothing deleted, unless
      the user owns the template; otherwise the template is deleted and true returned. */
  method DeleteTemplate(c: FakeCollection, userId: string, templateId: string) returns (deleted: bool)
    modifies c
    ensures deleted <==> Owns(old(c.documents), userId, templateId)
    ensures !deleted ==> c.documents == old(c.documents)
    ensures deleted ==> c.documents == DeleteFirst(old(c.documents), BaseRepository.ById(Str(templateId)))
  {
    var existing := OutreachRepository.GetById(c, templateId, userId);
    if existing.None? {
      return false;
    }
    BaseRepository.Delete(c, Str(templateId));
    deleted := true;
  }

  // ---- create_default_templates ----

  const ColdEmailContent :=
    "Hi {hiring_manager},\n\nI came across the {job_title} position at {company} and was impressed by your work in {industry}. "
    + "With my background in {skills}, I believe I could be a great fit.\n\nBest,\n{my_name}"
  const LinkedInContent :=
    "Hi {hiring_manager}, I'm interested in the {job_title} role at {company}. Would love to connect!"
  const FollowUpContent :=
    "Hi {hiring_manager},\n\nJust wanted to follow up on my application for the {job_title} role. I'm still very interested!\n\nBest,\n{my_name}"

  const ColdEmail: Document :=
    map["name" := Str("Cold Email - General"), "subject" := Str("Application for {job_title} role"),
        "content" := Str(ColdEmailContent), "type" := Str("email")]
  const LinkedIn: Document :=
    map["name" := Str("LinkedIn Connection"), "subject" := Null,
        "content" := Str(LinkedInContent), "type" := Str("linkedin")]
  const FollowUp: Document :=
    map["name" := Str("Follow-up Email"), "subject" := Str("Following up on my application"),
        "content" := Str(FollowUpContent), "type" := Str("follow_up")]

  /** The templates every new user starts with: a cold email, a LinkedIn message
      without a subject, and a follow-up email, in that order. */
  const Defaults: seq<Document> := [ColdEmail, LinkedIn, FollowUp]

  /** The records stored for the first `n` of `templates`. */
  function Records(owner: Value, templates: seq<Document>, n: nat, freshIds: nat -> string, now: int): (r: seq<Document>)
    requires n <= |templates|
    ensures |r| == n
  {
    if n == 0 then [] else Records(owner, templates, n - 1, freshIds, now) + [TemplateRecord(owner, templates[n - 1], freshIds(n - 1), now)]
  }

  /** The `k`th template is stored as its own record, with id `freshIds(k)`. */
  lemma {:induction false} RecordAt(owner: Value, templates: seq<Document>, n: nat, freshIds: nat -> string, now: int, k: nat)
    requires k < n <= |templates|
    ensures Records(owner, templates, n, freshIds, now)[k] == TemplateRecord(owner, templates[k], freshIds(k), now)
  {
    var earlier := Records(owner, templates, n - 1, freshIds, now);
    var last := TemplateRecord(owner, templates[n - 1], freshIds(n - 1), now);
    if k < n - 1 {
      RecordAt(owner, templates, n - 1, freshIds, now, k);
      SnocKeeps(earlier, last, k);
    } else {
      SnocLast(earlier, last);
    }
  }

  lemma RecordsNext(owner: Value, templates: seq<Document>, k: nat, freshIds: nat -> string, now: int)
    requires k < |templates|
    ensures Records(owner, templates, k + 1, freshIds, now)
      == Records(owner, templates, k, freshIds, now) + [TemplateRecord(owner, templates[k], freshIds(k), now)]
  {
  }

  /** `create_default_templates(user_id)`: the defaults are created in turn;
      `freshIds(k)` stands for the uuid4 of the `k`th. */
  method CreateDefaultTemplates(c: FakeCollection, owner: Value, freshIds: nat -> string, now: int)
    modifies c
    ensures c.documents == old(c.documents) + Records(owner, Defaults, |Defaults|, freshIds, now)
  {
    ghost var start := c.documents;
    var defaults := Defaults;
    for k := 0 to |defaults|
      invariant c.documents == start + Records(owner, defaults, k, freshIds, now)
    {
      var _ := CreateTemplate(c, owner, defaults[k], freshIds(k), now);
      RecordsNext(owner, defaults, k, freshIds, now);
      AppendAssoc(start, Records(owner, defaults, k, freshIds, now), [TemplateRecord(owner, defaults[k], freshIds(k), now)]);
    }
  }

  /** A new user gets exactly three templates, all theirs: email, then LinkedIn,
      then follow-up, and only the LinkedIn one has no subject. */
  lemma DefaultTemplatesInOrder(owner: Value, freshIds: nat -> string, now: int)
    ensures var r := Records(owner, Defaults, |Defaults|, freshIds, now);
      |r| == 3 &&
      (forall k :: 0 <= k < 3 ==>
        Lookup(r[k], "user_id") == owner && Lookup(r[k], "_id") == Str(freshIds(k))) &&
      Lookup(r[0], "type") == Str("email") && Lookup(r[1], "type") == Str("linkedin") &&
      Lookup(r[2], "type") == Str("follow_up") &&
      (forall k :: 0 <= k < 3 ==> (Lookup(r[k], "subject") == Null <==> k == 1))
  {
    DefaultKinds();
    ThreeRecords(owner, Defaults, freshIds, now);
  }

  /** The records of three templates, each with a type and a subject, carry the
      owner, their fresh ids, and the templates' types and subjects. */
  lemma ThreeRecords(owner: Value, templates: seq<Document>, freshIds: nat -> string, now: int)
    requires |templates| == 3
    requires forall k :: 0 <= k < 3 ==> "type" in templates[k] && "subject" in templates[k]
    ensures var r := Records(owner, templates, 3, freshIds, now);
      |r| == 3 &&
      forall k :: 0 <= k < 3 ==>
        Lookup(r[k], "user_id") == owner && Lookup(r[k], "_id") == Str(freshIds(k)) &&
        Lookup(r[k], "type") == templates[k]["type"] && Lookup(r[k], "subject") == templates[k]["subject"]
  {
    forall k | 0 <= k < 3
      ensures var r := Records(owner, templates, 3, freshIds, now);
        Lookup(r[k], "user_id") == owner && Lookup(r[k], "_id") == Str(freshIds(k)) &&
        Lookup(r[k], "type") == templates[k]["type"] && Lookup(r[k], "subject") == templates[k]["subject"]
    {
      RecordAt(owner, templates, 3, freshIds, now, k);
      RecordLookups(owner, templates[k], freshIds(k), now);
    }
  }

  /** What a lookup of a stored template's fields finds. */
  lemma RecordLookups(owner: Value, data: Document, freshId: string, now: int)
    requires "type" in data && "subject" in data
    ensures var t := TemplateRecord(owner, data, freshId, now);
      Lookup(t, "user_id") == owner && Lookup(t, "_id") == Str(freshId) &&
      Lookup(t, "type") == data["type"] && Lookup(t, "subject") == data["subject"]
  {
    TemplateRecordFields(owner, data, freshId, now);
  }

  /** The three defaults: an email, a LinkedIn message and a follow-up, and only
      the LinkedIn message goes without a subject. */
  lemma DefaultKinds()
    ensures |Defaults| == 3
    ensures forall k :: 0 <= k < 3 ==> "type" in Defaults[k] && "subject" in Defaults[k]
    ensures Defaults[0]["type"] == Str("email") && Defaults[1]["type"] == Str("linkedin")
    ensures Defaults[2]["type"] == Str("follow_up")
    ensures forall k :: 0 <= k < 3 ==> (Defaults[k]["subject"] == Null <==> k == 1)
  {
    assert Defaults[0]["subject"] != Null && Defaults[1]["subject"] == Null && Defaults[2]["subject"] != Null;
  }
}
