/** The settings page: the user's job-search preferences, loaded from their
    stored profile, edited on the page and sent back in a profile update. */
module Settings {
  import opened Wrappers
  import opened Values
  import opened Text
  import opened DocStore

  /** The page's settings. The salary minimum is the text of its input field. */
  datatype SettingsForm = SettingsForm(
    aggressiveness: Value,
    roleFocus: seq<Value>,
    remoteOnly: Value,
    excludeFaang: Value,
    targetStartups: Value,
    salaryMin: string,
    runSchedule: Value,
    outreachStyle: Value)

  /** The settings before any profile is loaded. */
  const DefaultSettings := SettingsForm(Str("normal"), [], Bool(false), Bool(false), Bool(false), "",
                                        Str("daily"), Str("neutral"))

  /** `value || []` for the stored role list (see README for non-list values). */
  function RoleList(v: Value): seq<Value> {
    if v.List? then v.items else []
  }

  /** The settings `loadSettings` shows for the stored preferences `prefs`: each
      stored value that is truthy, and the default otherwise; the salary minimum
      as text, "" when none is stored. */
  function LoadedSettings(prefs: Value): (s: SettingsForm)
    ensures s.aggressiveness == JsOr(Prop(prefs, "aggressiveness"), DefaultSettings.aggressiveness)
    ensures s.roleFocus == RoleList(Prop(prefs, "role_focus"))
    ensures s.remoteOnly == JsOr(Prop(prefs, "remote_only"), DefaultSettings.remoteOnly)
    ensures s.excludeFaang == JsOr(Prop(prefs, "exclude_faang"), DefaultSettings.excludeFaang)
    ensures s.targetStartups == JsOr(Prop(prefs, "target_startups"), DefaultSettings.targetStartups)
    ensures s.salaryMin == JsText(Prop(prefs, "salary_min"))
    ensures s.runSchedule == JsOr(Prop(prefs, "run_schedule"), DefaultSettings.runSchedule)
    ensures s.outreachStyle == JsOr(Prop(prefs, "outreach_style"), DefaultSettings.outreachStyle)
  {
    SettingsForm(
      JsOr(Prop(prefs, "aggressiveness"), Str("normal")),
      RoleList(Prop(prefs, "role_focus")),
      JsOr(Prop(prefs, "remote_only"), Bool(false)),
      JsOr(Prop(prefs, "exclude_faang"), Bool(false)),
      JsOr(Prop(prefs, "target_startups"), Bool(false)),
      JsText(Prop(prefs, "salary_min")),
      JsOr(Prop(prefs, "run_schedule"), Str("daily")),
      JsOr(Prop(prefs, "outreach_style"), Str("neutral")))
  }

  /** A profile without preferences, or with none of the settings stored, loads
      as the defaults. */
  lemma NothingStoredLoadsDefaults(prefs: Value)
    requires !prefs.Doc? || forall k :: k in prefs.fields ==> k !in SettingKeys
    ensures LoadedSettings(prefs) == DefaultSettings
  {
  }

  /** `role_focus.filter(r => r !== role)`: every occurrence of `role` removed,
      the rest in order. */
  function Without(roles: seq<Value>, role: Value): (r: seq<Value>)
    ensures role !in r
    ensures forall x :: x != role ==> (x in r <==> x in roles)
    ensures |r| <= |roles|
  {
    if roles == [] then []
    else (if roles[0] == role then [] else [roles[0]]) + Without(roles[1..], role)
  }

  /** Removing what is not there keeps the list. */
  lemma {:induction false} WithoutAbsent(roles: seq<Value>, role: Value)
    requires role !in roles
    ensures Without(roles, role) == roles
  {
    if roles != [] {
      WithoutAbsent(roles[1..], role);
    }
  }

  /** Removing from a concatenation removes from each part. */
  lemma {:induction false} WithoutAppend(a: seq<Value>, b: seq<Value>, role: Value)
    ensures Without(a + b, role) == Without(a, role) + Without(b, role)
  {
    if a != [] {
      TailOfAppend(a, b);
      WithoutAppend(a[1..], b, role);
      AppendAssoc(if a[0] == role then [] else [a[0]], Without(a[1..], role), Without(b, role));
    } else {
      EmptyAppend(a, b);
      EmptyAppend(Without(a, role), Without(b, role));
    }
  }

  /** The role list after `toggleRoleFocus(role)`: without the role when it was
      there, with it added at the end otherwise; no other role comes or goes. */
  function Toggled(roles: seq<Value>, role: Value): (r: seq<Value>)
    ensures role in r <==> role !in roles
    ensures forall x :: x != role ==> (x in r <==> x in roles)
    ensures role !in roles ==> r == roles + [role]
  {
    if role in roles then Without(roles, role) else roles + [role]
  }

  /** Toggling a role that is not selected twice gives back the same list. */
  lemma ToggleTwiceRestores(roles: seq<Value>, role: Value)
    requires role !in roles
    ensures Toggled(Toggled(roles, role), role) == roles
  {
    WithoutAppend(roles, [role], role);
    WithoutAbsent(roles, role);
    assert Without([role], role) == [];
  }

  /** `settings.salary_min ? parseFloat(settings.salary_min) : null`: `parseNumber`
      stands for `parseFloat`, None for its NaN, which JSON sends as null. */
  function SalaryValue(text: string, parseNumber: string -> Option<real>): (v: Value)
    ensures text == "" ==> v == Null
    ensures text != "" && parseNumber(text).Some? ==> v == Real(parseNumber(text).value)
    ensures text != "" && parseNumber(text).None? ==> v == Null
  {
    if text == "" then Null
    else match parseNumber(text)
      case Some(r) => Real(r)
      case None => Null
  }

  /** `value || {}` for a value spread into an object: its fields, or none. */
  function Fields(v: Value): Document {
    if v.Doc? then v.fields else map[]
  }

  /** The preference keys the page edits. */
  const SettingKeys: set<string> := {"aggressiveness", "role_focus", "remote_only", "exclude_faang",
                                     "target_startups", "salary_min", "run_schedule", "outreach_style"}

  /** The preferences `handleSave` sends: the stored ones, with each setting of
      the page written over them. */
  function SavedPreferences(stored: Value, settings: SettingsForm, parseNumber: string -> Option<real>): (p: Document)
    ensures p.Keys == Fields(stored).Keys + SettingKeys
    ensures p["aggressiveness"] == settings.aggressiveness && p["role_focus"] == List(settings.roleFocus)
    ensures p["remote_only"] == settings.remoteOnly && p["exclude_faang"] == settings.excludeFaang
    ensures p["target_startups"] == settings.targetStartups
    ensures p["salary_min"] == SalaryValue(settings.salaryMin, parseNumber)
    ensures p["run_schedule"] == settings.runSchedule && p["outreach_style"] == settings.outreachStyle
    ensures forall k :: k in Fields(stored) && k !in SettingKeys ==> p[k] == Fields(stored)[k]
  {
    Merge(Fields(stored), SettingFields(settings, parseNumber))
  }

  /** The page's settings as preference fields. */
  function SettingFields(settings: SettingsForm, parseNumber: string -> Option<real>): (u: Document)
    ensures u.Keys == SettingKeys
    ensures u["aggressiveness"] == settings.aggressiveness && u["role_focus"] == List(settings.roleFocus)
    ensures u["remote_only"] == settings.remoteOnly && u["exclude_faang"] == settings.excludeFaang
    ensures u["target_startups"] == settings.targetStartups
    ensures u["salary_min"] == SalaryValue(settings.salaryMin, parseNumber)
    ensures u["run_schedule"] == settings.runSchedule && u["outreach_style"] == settings.outreachStyle
  {
    map[
      "aggressiveness" := settings.aggressiveness,
      "role_focus" := List(settings.roleFocus),
      "remote_only" := settings.remoteOnly,
      "exclude_faang" := settings.excludeFaang,
      "target_startups" := settings.targetStartups,
      "salary_min" := SalaryValue(settings.salaryMin, parseNumber),
      "run_schedule" := settings.runSchedule,
      "outreach_style" := settings.outreachStyle]
  }

  /** Saving and then loading gives the page back the same settings, for the
      values the page's controls produce: non-empty choices, true/false flags,
      and a salary that is empty or the decimal text of a whole number which
      `parseNumber` reads as that number. */
  lemma SaveThenLoad(stored: Value, settings: SettingsForm, parseNumber: string -> Option<real>, salary: int)
    requires JsTruthy(settings.aggressiveness) && JsTruthy(settings.runSchedule) && JsTruthy(settings.outreachStyle)
    requires settings.remoteOnly.Bool? && settings.excludeFaang.Bool? && settings.targetStartups.Bool?
    requires settings.salaryMin == "" ||
      (settings.salaryMin == IntToString(salary) && parseNumber(settings.salaryMin) == Some(salary as real))
    ensures LoadedSettings(Doc(SavedPreferences(stored, settings, parseNumber))) == settings
  {
    var p := Doc(SavedPreferences(stored, settings, parseNumber));
    if settings.salaryMin != "" {
      assert Prop(p, "salary_min") == Real(salary as real);
      assert (salary as real).Floor == salary;
    }
  }

  /** What `handleSave` does: nothing (None) without a signed-in user or a loaded
      profile; a failure when the loaded data holds no profile, whose fields it
      reads; otherwise the profile update it sends. `userId` is the user's id,
      `fullName` and `email` their name and e-mail address from the sign-in
      provider, `loaded` the data `loadSettings` stored. */
  function SaveRequest(userId: Option<string>, fullName: Value, email: string, loaded: Value,
                       settings: SettingsForm, parseNumber: string -> Option<real>): (r: Option<Result<Document>>)
    ensures r.None? <==> userId.None? || !JsTruthy(loaded)
    ensures r.Some? ==> (r.value.Err? <==> Prop(loaded, "profile").Null?)
    ensures r.Some? && r.value.Ok? ==>
      r.value.value == Merge(ProfileFields(userId.value, fullName, email, Prop(loaded, "profile")),
                             SavedPreferences(Prop(Prop(loaded, "profile"), "preferences"), settings, parseNumber))
  {
    if userId.None? || !JsTruthy(loaded) then None
    else
      var profile := Prop(loaded, "profile");
      if profile.Null? then Some(Err("Failed to save settings"))
      else
        var prefs := SavedPreferences(Prop(profile, "preferences"), settings, parseNumber);
        Some(Ok(Merge(ProfileFields(userId.value, fullName, email, profile), prefs)))
  }

  /** A save sends every setting of the page, the salary as `SalaryValue` makes
      it, over the stored preferences; the user's id goes with it unless the
      stored preferences carry a field of that name, which the spread of the
      preferences lets win. */
  lemma SaveSendsSettings(userId: string, fullName: Value, email: string, loaded: Value,
                          settings: SettingsForm, parseNumber: string -> Option<real>)
    requires JsTruthy(loaded) && !Prop(loaded, "profile").Null?
    ensures var r := SaveRequest(Some(userId), fullName, email, loaded, settings, parseNumber);
      var stored := Prop(Prop(loaded, "profile"), "preferences");
      r.Some? && r.value.Ok? &&
      (forall k :: k in SettingKeys ==> k in r.value.value) &&
      r.value.value["role_focus"] == List(settings.roleFocus) &&
      r.value.value["salary_min"] == SalaryValue(settings.salaryMin, parseNumber) &&
      r.value.value["aggressiveness"] == settings.aggressiveness &&
      (forall k :: k in Fields(stored) && k !in SettingKeys ==> k in r.value.value && r.value.value[k] == Fields(stored)[k]) &&
      ("clerk_user_id" !in Fields(stored) ==> r.value.value["clerk_user_id"] == Str(userId))
  {
    var profile := Prop(loaded, "profile");
    var stored := Prop(profile, "preferences");
    var prefs := SavedPreferences(stored, settings, parseNumber);
    var base := ProfileFields(userId, fullName, email, profile);
    SettingKeysFacts();
    BodyFacts(base, prefs, Fields(stored), userId);
  }

  /** The settings' names, and that the user's id is not one of them. */
  lemma SettingKeysFacts()
    ensures "role_focus" in SettingKeys && "salary_min" in SettingKeys && "aggressiveness" in SettingKeys
    ensures "clerk_user_id" !in SettingKeys
  {
  }

  /** The profile fields merged with the preferences: the preferences win, and
      the user's id survives unless the preferences carry one. */
  lemma BodyFacts(base: Document, prefs: Document, stored: Document, userId: string)
    requires prefs.Keys == stored.Keys + SettingKeys
    requires "clerk_user_id" in base && base["clerk_user_id"] == Str(userId)
    requires "clerk_user_id" !in SettingKeys
    ensures forall k :: k in prefs ==> k in Merge(base, prefs) && Merge(base, prefs)[k] == prefs[k]
    ensures "clerk_user_id" !in stored ==> Merge(base, prefs)["clerk_user_id"] == Str(userId)
  {
  }

  /** The fields of the profile update other than the preferences: the user's
      id, the stored name or else the sign-in name or else "User", the e-mail,
      the stored skills and keywords (none when absent), summary, experience
      (0 when absent), LinkedIn address and location. */
  function ProfileFields(userId: string, fullName: Value, email: string, profile: Value): (d: Document)
    ensures d.Keys == {"clerk_user_id", "name", "email", "skills", "keywords", "summary",
                       "experience_years", "linkedin_url", "location"}
    ensures d["clerk_user_id"] == Str(userId)
    ensures JsTruthy(Prop(profile, "name")) ==> d["name"] == Prop(profile, "name")
    ensures !JsTruthy(Prop(profile, "name")) && JsTruthy(fullName) ==> d["name"] == fullName
    ensures !JsTruthy(Prop(profile, "name")) && !JsTruthy(fullName) ==> d["name"] == Str("User")
    ensures d["email"] == Str(email)
    ensures JsTruthy(Prop(profile, "skills")) ==> d["skills"] == Prop(profile, "skills")
    ensures !JsTruthy(Prop(profile, "skills")) ==> d["skills"] == List([])
    ensures JsTruthy(Prop(profile, "keywords")) ==> d["keywords"] == Prop(profile, "keywords")
    ensures !JsTruthy(Prop(profile, "keywords")) ==> d["keywords"] == List([])
    ensures JsTruthy(Prop(profile, "experience_years")) ==> d["experience_years"] == Prop(profile, "experience_years")
    ensures !JsTruthy(Prop(profile, "experience_years")) ==> d["experience_years"] == Int(0)
    ensures d["summary"] == Prop(profile, "summary") && d["linkedin_url"] == Prop(profile, "linkedin_url")
    ensures d["location"] == Prop(Prop(profile, "preferences"), "location")
  {
    map[
      "clerk_user_id" := Str(userId),
      "name" := JsOr(JsOr(Prop(profile, "name"), fullName), Str("User")),
      "email" := Str(email),
      "skills" := JsOr(Prop(profile, "skills"), List([])),
      "keywords" := JsOr(Prop(profile, "keywords"), List([])),
      "summary" := Prop(profile, "summary"),
      "experience_years" := JsOr(Prop(profile, "experience_years"), Int(0)),
      "linkedin_url" := Prop(profile, "linkedin_url"),
      "location" := Prop(Prop(profile, "preferences"), "location")]
  }

  /** The state of the settings page. */
  class Page {
    var settings: SettingsForm
    var loaded: Value
    var loading: bool

    /** The page opens with the default settings, no data and the spinner on. */
    constructor()
      ensures settings == DefaultSettings && loaded == Null && loading
    {
      settings := DefaultSettings;
      loaded := Null;
      loading := true;
    }

    /** `loadSettings()`: without a user nothing happens (the spinner stays on);
        otherwise `response` is the profile request's data or its failure. The
        data is kept, the settings are loaded from it when it holds a profile
        and left alone otherwise, and the spinner goes off. */
    method LoadSettings(userId: Option<string>, response: Result<Document>)
      modifies this
      ensures userId.None? ==> settings == old(settings) && loaded == old(loaded) && loading == old(loading)
      ensures userId.Some? ==> !loading
      ensures userId.Some? && response.Err? ==> settings == old(settings) && loaded == old(loaded)
      ensures userId.Some? && response.Ok? ==> loaded == Doc(response.value)
      ensures userId.Some? && response.Ok? ==>
        settings == (if JsTruthy(Prop(Doc(response.value), "profile"))
                     then LoadedSettings(JsOr(Prop(Prop(Doc(response.value), "profile"), "preferences"), Doc(map[])))
                     else old(settings))
    {
      if userId.None? {
        return;
      }
      loading := true;
      if response.Ok? {
        var data := Doc(response.value);
        loaded := data;
        var profile := Prop(data, "profile");
        if JsTruthy(profile) {
          var prefs := JsOr(Prop(profile, "preferences"), Doc(map[]));
          settings := LoadedSettings(prefs);
        }
      }
      loading := false;
    }

    /** `toggleRoleFocus(role)`: only the role list changes. */
    method ToggleRoleFocus(role: Value)
      modifies this
      ensures settings == old(settings).(roleFocus := Toggled(old(settings).roleFocus, role))
      ensures loaded == old(loaded) && loading == old(loading)
    {
      settings := settings.(roleFocus := Toggled(settings.roleFocus, role));
    }
  }
}
