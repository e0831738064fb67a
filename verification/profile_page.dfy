/** The profile page: a form showing the user's skills (as one comma-separated
    text), experience, location and remote-only choice, loaded from the stored
    profile and sent back as a profile update. */
module ProfilePage {
  import opened Wrappers
  import opened Values
  import opened Text
  import ProfileStore

  /** The form before any profile is loaded. */
  const DefaultForm: Document :=
    map["skills" := Str(""), "experience" := Str("5"), "location" := Str("Remote"), "remoteOnly" := Bool(true)]

  /** The text of each item, as `join` writes it. */
  function Texts(items: seq<Value>): (r: seq<string>)
    ensures |r| == |items|
    ensures forall i :: 0 <= i < |items| ==> r[i] == JsText(items[i])
  {
    if items == [] then [] else [JsText(items[0])] + Texts(items[1..])
  }

  /** A list of strings as stored values. */
  function StrList(xs: seq<string>): (r: seq<Value>)
    ensures |r| == |xs|
    ensures forall i :: 0 <= i < |xs| ==> r[i] == Str(xs[i])
  {
    if xs == [] then [] else [Str(xs[0])] + StrList(xs[1..])
  }

  /** `skills?.join(', ') || ''`: the stored skills as one text, "" when there
      are none; a stored value that is neither null nor a list has no `join`,
      and the load fails. */
  function SkillsText(skills: Value): (r: Result<string>)
    ensures r.Err? <==> !skills.Null? && !skills.List?
    ensures skills.Null? ==> r == Ok("")
    ensures skills.List? ==> r == Ok(Join(Texts(skills.items), ", "))
  {
    match skills
    case Null => Ok("")
    case List(items) => Ok(Join(Texts(items), ", "))
    case _ => Err("skills.join is not a function")
  }

  /** `value?.toString() || fallback` */
  function TextOr(v: Value, fallback: string): (s: string)
    ensures s == fallback || s == JsText(v)
    ensures s == fallback <==> v.Null? || JsText(v) == "" || JsText(v) == fallback
  {
    if v.Null? || JsText(v) == "" then fallback else JsText(v)
  }

  /** The form `loadProfile` fills from a stored profile: the skills joined with
      ", ", the experience as text or "5", the preferred location or "Remote",
      and the stored remote-only choice when it is true and true otherwise. */
  function LoadedForm(profile: Value): (r: Result<Document>)
    ensures r.Err? <==> SkillsText(Prop(profile, "skills")).Err?
    ensures r.Ok? ==> r.value.Keys == DefaultForm.Keys
    ensures r.Ok? ==> r.value["skills"] == Str(SkillsText(Prop(profile, "skills")).value)
    ensures r.Ok? ==> r.value["experience"] == Str(TextOr(Prop(profile, "experience_years"), "5"))
    ensures r.Ok? ==> r.value["location"] == JsOr(Prop(Prop(profile, "preferences"), "location"), Str("Remote"))
    ensures r.Ok? ==> r.value["remoteOnly"] == JsOr(Prop(Prop(profile, "preferences"), "remote_only"), Bool(true))
  {
    var skills :- SkillsText(Prop(profile, "skills"));
    var prefs := Prop(profile, "preferences");
    Ok(map["skills" := Str(skills),
           "experience" := Str(TextOr(Prop(profile, "experience_years"), "5")),
           "location" := JsOr(Prop(prefs, "location"), Str("Remote")),
           "remoteOnly" := JsOr(Prop(prefs, "remote_only"), Bool(true))])
  }

  /** The remote-only box always loads ticked: a stored `false` is read back as
      true. */
  lemma RemoteOnlyAlwaysOn(profile: Value)
    requires LoadedForm(profile).Ok?
    ensures JsTruthy(LoadedForm(profile).value["remoteOnly"])
    ensures Prop(Prop(profile, "preferences"), "remote_only") == Bool(false) ==>
      LoadedForm(profile).value["remoteOnly"] == Bool(true)
  {
  }

  /** The non-empty trimmed pieces, in order. */
  function Cleaned(pieces: seq<string>): (r: seq<string>)
    ensures |r| <= |pieces|
    ensures forall i :: 0 <= i < |r| ==> Trimmed(r[i])
  {
    if pieces == [] then []
    else
      var t := Strip(pieces[0]);
      var rest := Cleaned(pieces[1..]);
      if t == "" then rest
      else
        assert Trimmed(t);
        [t] + rest
  }

  /** Non-empty and not padded with whitespace. */
  predicate Trimmed(s: string) {
    s != "" && !IsSpace(s[0]) && !IsSpace(s[|s| - 1])
  }

  lemma StripNoComma(s: string)
    requires ',' !in s
    ensures ',' !in Strip(s)
  {
    StripChars(s);
  }

  /** Trimming adds no character, so pieces without a comma stay without one. */
  lemma {:induction false} CleanedCommaFree(pieces: seq<string>)
    requires forall j :: 0 <= j < |pieces| ==> ',' !in pieces[j]
    ensures forall i :: 0 <= i < |Cleaned(pieces)| ==> ',' !in Cleaned(pieces)[i]
  {
    if pieces != [] {
      var t, rest := Strip(pieces[0]), Cleaned(pieces[1..]);
      StripNoComma(pieces[0]);
      CleanedCommaFree(pieces[1..]);
      if t != "" {
        var r := Cleaned(pieces);
        assert r == [t] + rest;
        forall i | 0 <= i < |r| ensures ',' !in r[i] {
          if i > 0 {
            assert r[i] == rest[i - 1];
          }
        }
      }
    }
  }

  /** `skills.split(',').map(s => s.trim()).filter(Boolean)`: no skill saved is
      empty, padded with spaces or holds a comma. */
  function ParseSkills(text: string): (skills: seq<string>)
    ensures forall i :: 0 <= i < |skills| ==> Trimmed(skills[i]) && ',' !in skills[i]
  {
    CleanedCommaFree(Split(text, ','));
    Cleaned(Split(text, ','))
  }

  /** A skill the round trip keeps: non-empty, not padded, without a comma. */
  predicate CleanSkill(s: string) {
    Trimmed(s) && ',' !in s
  }

  /** Each piece after the first, as the split of ", "-joined text leaves it. */
  function Spaced(xs: seq<string>): (r: seq<string>)
    ensures |r| == |xs|
  {
    if xs == [] then [] else [" " + xs[0]] + Spaced(xs[1..])
  }

  /** Splitting at the first comma. */
  lemma SplitAtFirst(a: string, t: string)
    requires ',' !in a
    ensures Split(a + "," + t, ',') == [a] + Split(t, ',')
  {
    var s := a + "," + t;
    var i := IndexOf(s, ',');
    assert s[|a|] == ',';
    assert i == |a|;
    assert s[..i] == a;
    assert s[i + 1..] == t;
  }

  /** The pieces of ", "-joined text: the first item, then each other item with
      the space that followed its comma. */
  lemma {:induction false} SplitJoin(xs: seq<string>)
    requires |xs| >= 1 && forall i :: 0 <= i < |xs| ==> ',' !in xs[i]
    ensures Split(Join(xs, ", "), ',') == [xs[0]] + Spaced(xs[1..])
    decreases |xs|
  {
    if |xs| == 1 {
      assert Join(xs, ", ") == xs[0];
      assert IndexOf(xs[0], ',') == -1;
    } else {
      var ys := [" " + xs[1]] + xs[2..];
      assert " " + Join(xs[1..], ", ") == Join(ys, ", ") by {
        if |xs| == 2 {
          assert xs[1..] == [xs[1]];
        } else {
          assert xs[1..][1..] == xs[2..];
          assert ys[1..] == xs[2..];
        }
      }
      assert Join(xs, ", ") == xs[0] + "," + Join(ys, ", ");
      SplitAtFirst(xs[0], Join(ys, ", "));
      assert forall i :: 0 <= i < |ys| ==> ',' !in ys[i] by {
        forall i | 0 <= i < |ys| ensures ',' !in ys[i] {
          if i > 0 { assert ys[i] == xs[i + 1]; }
        }
      }
      SplitJoin(ys);
      assert ys[1..] == xs[2..];
      assert xs[1..][1..] == xs[2..];
    }
  }

  /** Trimming the spaced pieces of clean skills gives back the skills. */
  lemma {:induction false} CleanedSpaced(xs: seq<string>)
    requires forall i :: 0 <= i < |xs| ==> CleanSkill(xs[i])
    ensures Cleaned(Spaced(xs)) == xs
  {
    if xs != [] {
      var sp := Spaced(xs);
      StripSkipsLeadingSpace(" ", xs[0]);
      StripOfStripped(xs[0]);
      assert Strip(sp[0]) == xs[0];
      assert sp[1..] == Spaced(xs[1..]);
      CleanedSpaced(xs[1..]);
      assert Cleaned(sp) == [xs[0]] + Cleaned(sp[1..]);
    }
  }

  /** Loading then saving keeps the skills: clean skills joined with ", " and
      split again on commas are the same list. */
  lemma {:induction false} SkillsRoundTrip(skills: seq<string>)
    requires forall i :: 0 <= i < |skills| ==> CleanSkill(skills[i])
    ensures SkillsText(List(StrList(skills))) == Ok(Join(skills, ", "))
    ensures ParseSkills(Join(skills, ", ")) == skills
  {
    assert Texts(StrList(skills)) == skills;
    if skills == [] {
      assert Split("", ',') == [""];
      assert Cleaned([""]) == [];
    } else {
      SplitJoin(skills);
      var pieces := [skills[0]] + Spaced(skills[1..]);
      StripOfStripped(skills[0]);
      assert pieces[1..] == Spaced(skills[1..]);
      CleanedSpaced(skills[1..]);
      assert Cleaned(pieces) == [skills[0]] + skills[1..];
    }
  }

  /** The form after `handleChange` on the input `name`: a checkbox gives its
      ticked state, any other input its text; no other field changes. */
  function Changed(form: Document, name: string, inputType: string, value: string, checked: bool): (r: Document)
    ensures r.Keys == form.Keys + {name}
    ensures inputType == "checkbox" ==> r[name] == Bool(checked)
    ensures inputType != "checkbox" ==> r[name] == Str(value)
    ensures forall k :: k in form && k != name ==> r[k] == form[k]
  {
    form[name := if inputType == "checkbox" then Bool(checked) else Str(value)]
  }

  /** `parseInt(experience)`, as JSON sends it: its NaN becomes null. */
  function ExperienceValue(text: string, parseInt: string -> Option<int>): Value {
    match parseInt(text)
    case Some(n) => Int(n)
    case None => Null
  }

  /** The profile `handleSubmit` sends for the form. */
  function SubmitBody(userId: string, fullName: Value, email: string, form: Document, skills: string,
                      parseInt: string -> Option<int>): (d: Document)
    ensures d.Keys == {"name", "email", "experience_years", "location", "remote_only", "skills", "clerk_user_id"}
    ensures d["skills"] == List(StrList(ParseSkills(skills)))
    ensures d["clerk_user_id"] == Str(userId)
    ensures JsTruthy(fullName) ==> d["name"] == fullName
    ensures !JsTruthy(fullName) ==> d["name"] == Str("User")
    ensures d["email"] == Str(email)
    ensures var n := parseInt(JsText(Get(form, "experience", Null)));
      d["experience_years"] == if n.Some? then Int(n.value) else Null
    ensures d["location"] == Get(form, "location", Null) && d["remote_only"] == Get(form, "remoteOnly", Null)
  {
    map["name" := JsOr(fullName, Str("User")),
        "email" := Str(email),
        "experience_years" := ExperienceValue(JsText(Get(form, "experience", Null)), parseInt),
        "location" := Get(form, "location", Null),
        "remote_only" := Get(form, "remoteOnly", Null),
        "skills" := List(StrList(ParseSkills(skills))),
        "clerk_user_id" := Str(userId)]
  }

  /** What `handleSubmit` does: nothing without a signed-in user; a failure when
      the skills field holds no text to split; otherwise the profile it sends,
      whose skills are the parsed pieces of the field. */
  function SubmitRequest(userId: Option<string>, fullName: Value, email: string, form: Document,
                         parseInt: string -> Option<int>): (r: Option<Result<Document>>)
    ensures r.None? <==> userId.None?
    ensures r.Some? ==> (r.value.Err? <==> !Get(form, "skills", Null).Str?)
    ensures r.Some? && r.value.Ok? ==>
      "skills" in r.value.value && r.value.value["skills"] == List(StrList(ParseSkills(form["skills"].s))) &&
      "clerk_user_id" in r.value.value && r.value.value["clerk_user_id"] == Str(userId.value)
  {
    if userId.None? then None
    else if !Get(form, "skills", Null).Str? then Some(Err("Failed to save profile"))
    else Some(Ok(SubmitBody(userId.value, fullName, email, form, form["skills"].s, parseInt)))
  }

  /** The state of the profile page. */
  class Page {
    var formData: Document
    var loading: bool

    /** The page opens with the default form. */
    constructor()
      ensures formData == DefaultForm && !loading
    {
      formData := DefaultForm;
      loading := false;
    }

    /** `loadProfile()`: without a user nothing happens; otherwise `response` is
        the profile request's data or its failure. The data goes to the profile
        store, and the form is filled from it when it holds a profile whose
        skills can be joined; anything else leaves the form as it was. */
    method LoadProfile(store: ProfileStore.Store, userId: Option<string>, response: Result<Document>)
      modifies this, store
      ensures userId.None? ==> formData == old(formData) && loading == old(loading)
      ensures userId.None? ==> store.profile == old(store.profile)
      ensures userId.Some? ==> !loading
      ensures userId.Some? ==> store.profile == (if response.Ok? then Some(response.value) else old(store.profile))
      ensures userId.Some? ==>
        formData == (if response.Ok? && JsTruthy(Prop(Doc(response.value), "profile")) &&
                        LoadedForm(Prop(Doc(response.value), "profile")).Ok?
                     then LoadedForm(Prop(Doc(response.value), "profile")).value
                     else old(formData))
      ensures store.loading == old(store.loading) && store.error == old(store.error)
    {
      if userId.None? {
        return;
      }
      loading := true;
      if response.Ok? {
        store.SetProfile(Some(response.value));
        var profile := Prop(Doc(response.value), "profile");
        if JsTruthy(profile) {
          var form := LoadedForm(profile);
          if form.Ok? {
            formData := form.value;
          }
        }
      }
      loading := false;
    }

    /** `handleChange(e)` for an input named `name`. */
    method HandleChange(name: string, inputType: string, value: string, checked: bool)
      modifies this
      ensures formData == Changed(old(formData), name, inputType, value, checked)
      ensures loading == old(loading)
    {
      formData := Changed(formData, name, inputType, value, checked);
    }
  }
}
