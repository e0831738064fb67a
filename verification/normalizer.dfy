/** The normaliser stage of the pipeline: each raw listing the scrapers found is
    rewritten by the language model into the unified schema (its answer is a
    parameter here), then checked, cleaned and turned into a `Job` in Python.
    Listings go to the model in consecutive batches of ten. */
module Normalizer {
  import opened Wrappers
  import opened Values
  import opened Text
  import opened Models
  import NormalizationUtils

  const BatchSize := 10

  /** The message of a schema validation failure when the job record is built. */
  const ValidationError := "validation error"
  /** The message when a field that must be text has to be cleaned but is not text. */
  const NotText := "field is not a string"

  // ---- Schema validation of the job record ----

  function AsString(v: Value): Result<string> {
    if v.Str? then Ok(v.s) else Err(ValidationError)
  }

  function AsOptString(v: Value): Result<Option<string>> {
    if v.Null? then Ok(None) else if v.Str? then Ok(Some(v.s)) else Err(ValidationError)
  }

  function AsBool(v: Value): Result<bool> {
    if v.Bool? then Ok(v.b) else Err(ValidationError)
  }

  function AsOptReal(v: Value): Result<Option<real>> {
    if v.Null? then Ok(None)
    else if v.Int? then Ok(Some(v.i as real))
    else if v.Real? then Ok(Some(v.r))
    else Err(ValidationError)
  }

  function AsStrings(items: seq<Value>): (r: Result<seq<string>>)
    ensures r.Ok? ==> |r.value| == |items|
  {
    if items == [] then Ok([])
    else if !items[0].Str? then Err(ValidationError)
    else
      var rest :- AsStrings(items[1..]);
      Ok([items[0].s] + rest)
  }

  function AsStringList(v: Value): Result<seq<string>> {
    if v.List? then AsStrings(v.items) else Err(ValidationError)
  }

  /** `SalaryInfo(**v)`: a mapping whose salary keys have the declared types;
      other keys are ignored. */
  function AsSalary(v: Value): Result<SalaryInfo> {
    if !v.Doc? then Err(ValidationError)
    else
      var f := v.fields;
      var min :- AsOptReal(Get(f, "min", Null));
      var max :- AsOptReal(Get(f, "max", Null));
      var currency :- AsOptString(Get(f, "currency", Null));
      var interval :- AsOptString(Get(f, "interval", Null));
      Ok(SalaryInfo(min, max, currency, interval))
  }

  // ---- finalize_job ----

  /** The apply_url fallback: a falsy apply_url takes a truthy listing_url. */
  function WithApplyUrl(entry: Document): (job: Document)
    ensures forall key, dflt :: key != "apply_url" ==> Get(job, key, dflt) == Get(entry, key, dflt)
    ensures !Truthy(Get(entry, "apply_url", Null)) && Truthy(Get(entry, "listing_url", Null)) ==>
      Get(job, "apply_url", Null) == Get(entry, "listing_url", Null)
    ensures Truthy(Get(entry, "apply_url", Null)) ==> job == entry
  {
    if !Truthy(Get(entry, "apply_url", Null)) && Truthy(Get(entry, "listing_url", Null))
    then entry["apply_url" := entry["listing_url"]] else entry
  }

  /** The value `key` holds after cleaning with `clean`: a truthy string is
      cleaned, a falsy value is left alone, and any other value cannot be
      cleaned (`NotText`). */
  function Cleaned(job: Document, key: string, clean: string -> string): (r: Result<Document>)
    ensures var v := Get(job, key, Null);
      (r.Err? <==> Truthy(v) && !v.Str?) && (r.Err? ==> r.error == NotText) &&
      (r.Ok? ==> forall other, dflt :: other != key ==> Get(r.value, other, dflt) == Get(job, other, dflt)) &&
      (r.Ok? && Truthy(v) ==> Get(r.value, key, Null) == Str(clean(v.s))) &&
      (r.Ok? && !Truthy(v) ==> r.value == job)
  {
    var v := Get(job, key, Null);
    if Truthy(v) && !v.Str? then Err(NotText)
    else if Truthy(v) then Ok(job[key := Str(clean(v.s))])
    else Ok(job)
  }

  /** The normalised entry after the in-place cleaning: apply_url falls back to
      listing_url, then company and title (when truthy) are normalised. */
  function Prepared(entry: Document): Result<Document> {
    var withCompany :- Cleaned(WithApplyUrl(entry), "company", NormalizationUtils.CompanyName);
    Cleaned(withCompany, "title", NormalizationUtils.NormalizeTitle)
  }

  /** The fingerprint of the cleaned entry: title, company, source_id and location,
      each as Python formats it ("" when absent). */
  function EntryFingerprint(hash: string -> string, prepared: Document): string {
    NormalizationUtils.GenerateFingerprint(hash,
      Display(Get(prepared, "title", Str(""))), Display(Get(prepared, "company", Str(""))),
      Display(Get(prepared, "source_id", Str(""))), Display(Get(prepared, "location", Str(""))))
  }

  /** `Job(**job_data)` for the cleaned entry: every field is checked against its
      declared type and any mismatch raises one validation error. `parseDate` is
      `parse_posted_date`. */
  function JobRecord(prepared: Document, raw: Document, source: string, fingerprint: string,
                     parseDate: Value -> Option<int>, now: int): (r: Result<Job>)
    ensures r.Err? ==> r.error == ValidationError
    ensures r.Ok? ==> AsString(Or(Get(prepared, "source_id", Null), Str(fingerprint))) == Ok(r.value.id)
    ensures r.Ok? ==> AsString(Get(prepared, "title", Null)) == Ok(r.value.title)
    ensures r.Ok? ==> AsOptString(Get(prepared, "apply_url", Null)) == Ok(r.value.applyUrl)
    ensures r.Ok? ==> r.value.source == source && r.value.status == New && r.value.matchScore.None?
    ensures r.Ok? ==> r.value.metadata == JobMetadata(now, Some(source), fingerprint, raw, None)
  {
    var id := AsString(Or(Get(prepared, "source_id", Null), Str(fingerprint)));
    var sourceId := AsOptString(Get(prepared, "source_id", Null));
    var title := AsString(Get(prepared, "title", Null));
    var company := AsOptString(Get(prepared, "company", Null));
    var logo := AsOptString(Get(prepared, "company_logo", Null));
    var location := AsOptString(Get(prepared, "location", Null));
    var remote := AsBool(Get(prepared, "remote", Bool(false)));
    var jobType := AsOptString(Get(prepared, "job_type", Null));
    var employmentType := AsOptString(Get(prepared, "employment_type", Null));
    var salary := AsSalary(Get(prepared, "salary", Doc(map[])));
    var postedAt := if Truthy(Get(prepared, "posted_at", Null)) then parseDate(Get(prepared, "posted_at", Null)) else None;
    var description := AsOptString(Get(prepared, "description", Null));
    var listingUrl := AsOptString(Get(prepared, "listing_url", Null));
    var applyUrl := AsOptString(Get(prepared, "apply_url", Null));
    var tags := AsStringList(Get(prepared, "tags", List([])));
    var skills := AsStringList(Get(prepared, "skills_extracted", List([])));
    if id.Err? || sourceId.Err? || title.Err? || company.Err? || logo.Err? || location.Err? || remote.Err? ||
       jobType.Err? || employmentType.Err? || salary.Err? || description.Err? || listingUrl.Err? ||
       applyUrl.Err? || tags.Err? || skills.Err?
    then Err(ValidationError)
    else
      var metadata := JobMetadata(now, Some(source), fingerprint, raw, None);
      Ok(Job(id.value, source, sourceId.value, title.value, company.value, logo.value, location.value,
             remote.value, jobType.value, employmentType.value, salary.value, postedAt, description.value,
             listingUrl.value, applyUrl.value, tags.value, skills.value, None, None, [], New, NoOutreach,
             metadata, now))
  }

  /** `finalize_job(entry, raw, source)`: `Err` is the raised exception. */
  function Finalized(entry: Document, raw: Document, source: string, hash: string -> string,
                     parseDate: Value -> Option<int>, now: int): Result<Job>
  {
    var check := NormalizationUtils.IsValidJob(entry);
    if !check.0 then Err("Invalid job: " + check.1)
    else
      var prepared :- Prepared(entry);
      JobRecord(prepared, raw, source, EntryFingerprint(hash, prepared), parseDate, now)
  }

  /** finalize_job, cleaning the entry one field at a time. */
  method FinalizeJob(entry: Document, raw: Document, source: string, hash: string -> string,
                     parseDate: Value -> Option<int>, now: int) returns (r: Result<Job>)
    ensures r == Finalized(entry, raw, source, hash, parseDate, now)
  {
    var check := NormalizationUtils.IsValidJob(entry);
    if !check.0 {
      return Err("Invalid job: " + check.1);
    }
    var job := entry;
    if !Truthy(Get(job, "apply_url", Null)) && Truthy(Get(job, "listing_url", Null)) {
      job := job["apply_url" := job["listing_url"]];
    }
    var company := Get(job, "company", Null);
    if Truthy(company) {
      if !company.Str? {
        return Err(NotText);
      }
      var name := NormalizationUtils.NormalizeCompanyName(company.s);
      job := job["company" := Str(name)];
    }
    var title := Get(job, "title", Null);
    if Truthy(title) {
      if !title.Str? {
        return Err(NotText);
      }
      job := job["title" := Str(NormalizationUtils.NormalizeTitle(title.s))];
    }
    assert Prepared(entry) == Ok(job);
    var fingerprint := EntryFingerprint(hash, job);
    r := JobRecord(job, raw, source, fingerprint, parseDate, now);
  }

  // ---- Properties of finalize_job ----

  /** A finalised job comes from a valid entry, cleaned, fingerprinted and checked. */
  lemma FinalizedSteps(entry: Document, raw: Document, source: string, hash: string -> string,
                       parseDate: Value -> Option<int>, now: int)
    requires Finalized(entry, raw, source, hash, parseDate, now).Ok?
    ensures NormalizationUtils.IsValidJob(entry).0 && Prepared(entry).Ok?
    ensures var p := Prepared(entry).value;
      Finalized(entry, raw, source, hash, parseDate, now) ==
      JobRecord(p, raw, source, EntryFingerprint(hash, p), parseDate, now)
  {
  }

  /** What the cleaning does to each field: apply_url falls back to listing_url,
      a truthy company and title are normalised, and nothing else changes. */
  lemma PreparedFields(entry: Document, key: string, dflt: Value)
    requires Prepared(entry).Ok?
    ensures var p := Prepared(entry).value;
      var company := Get(entry, "company", Null);
      var title := Get(entry, "title", Null);
      (key !in {"apply_url", "company", "title"} ==> Get(p, key, dflt) == Get(entry, key, dflt)) &&
      (Truthy(company) ==> company.Str? && Get(p, "company", dflt) == Str(NormalizationUtils.CompanyName(company.s))) &&
      (!Truthy(company) ==> Get(p, "company", dflt) == Get(entry, "company", dflt)) &&
      (Truthy(title) ==> title.Str? && Get(p, "title", dflt) == Str(NormalizationUtils.NormalizeTitle(title.s))) &&
      (!Truthy(title) ==> Get(p, "title", dflt) == Get(entry, "title", dflt)) &&
      (!Truthy(Get(entry, "apply_url", Null)) && Truthy(Get(entry, "listing_url", Null)) ==>
        Get(p, "apply_url", dflt) == Get(entry, "listing_url", dflt)) &&
      (Truthy(Get(entry, "apply_url", Null)) ==> Get(p, "apply_url", dflt) == Get(entry, "apply_url", dflt))
  {
    if key !in {"apply_url", "company", "title"} {
      PreparedOther(entry, key, dflt);
    }
    PreparedCompany(entry, dflt);
    PreparedTitle(entry, dflt);
    PreparedUrl(entry, dflt);
  }

  /** The three cleaned field names differ. */
  lemma CleanedNames()
    ensures "apply_url" != "company" && "apply_url" != "title" && "company" != "title"
  {
    assert |"apply_url"| == 9 && |"company"| == 7 && |"title"| == 5;
  }

  /** The two cleaning steps of a successful preparation. */
  lemma PreparedSteps(entry: Document)
    requires Prepared(entry).Ok?
    ensures var c := Cleaned(WithApplyUrl(entry), "company", NormalizationUtils.CompanyName);
      c.Ok? && Cleaned(c.value, "title", NormalizationUtils.NormalizeTitle) == Prepared(entry)
  {
  }

  lemma PreparedOther(entry: Document, key: string, dflt: Value)
    requires Prepared(entry).Ok? && key !in {"apply_url", "company", "title"}
    ensures Get(Prepared(entry).value, key, dflt) == Get(entry, key, dflt)
  {
    PreparedSteps(entry);
    var withUrl := WithApplyUrl(entry);
    var withCompany := Cleaned(withUrl, "company", NormalizationUtils.CompanyName).value;
    assert Get(withCompany, key, dflt) == Get(withUrl, key, dflt);
  }

  lemma PreparedCompany(entry: Document, dflt: Value)
    requires Prepared(entry).Ok?
    ensures var company := Get(entry, "company", Null);
      (Truthy(company) ==>
        company.Str? && Get(Prepared(entry).value, "company", dflt) == Str(NormalizationUtils.CompanyName(company.s))) &&
      (!Truthy(company) ==> Get(Prepared(entry).value, "company", dflt) == Get(entry, "company", dflt))
  {
    CleanedNames();
    PreparedSteps(entry);
    var withUrl := WithApplyUrl(entry);
    assert Get(withUrl, "company", Null) == Get(entry, "company", Null);
    assert Get(withUrl, "company", dflt) == Get(entry, "company", dflt);
    var withCompany := Cleaned(withUrl, "company", NormalizationUtils.CompanyName).value;
    assert Get(Prepared(entry).value, "company", dflt) == Get(withCompany, "company", dflt);
  }

  lemma PreparedTitle(entry: Document, dflt: Value)
    requires Prepared(entry).Ok?
    ensures var title := Get(entry, "title", Null);
      (Truthy(title) ==>
        title.Str? && Get(Prepared(entry).value, "title", dflt) == Str(NormalizationUtils.NormalizeTitle(title.s))) &&
      (!Truthy(title) ==> Get(Prepared(entry).value, "title", dflt) == Get(entry, "title", dflt))
  {
    CleanedNames();
    PreparedSteps(entry);
    var withUrl := WithApplyUrl(entry);
    var withCompany := Cleaned(withUrl, "company", NormalizationUtils.CompanyName).value;
    assert Get(withCompany, "title", Null) == Get(withUrl, "title", Null) == Get(entry, "title", Null);
    assert Get(withCompany, "title", dflt) == Get(withUrl, "title", dflt) == Get(entry, "title", dflt);
  }

  lemma PreparedUrl(entry: Document, dflt: Value)
    requires Prepared(entry).Ok?
    ensures var p := Prepared(entry).value;
      (!Truthy(Get(entry, "apply_url", Null)) && Truthy(Get(entry, "listing_url", Null)) ==>
        Get(p, "apply_url", dflt) == Get(entry, "listing_url", dflt)) &&
      (Truthy(Get(entry, "apply_url", Null)) ==> Get(p, "apply_url", dflt) == Get(entry, "apply_url", dflt))
  {
    CleanedNames();
    PreparedSteps(entry);
    var withUrl := WithApplyUrl(entry);
    var withCompany := Cleaned(withUrl, "company", NormalizationUtils.CompanyName).value;
    assert Get(withCompany, "apply_url", dflt) == Get(withUrl, "apply_url", dflt);
    assert Get(Prepared(entry).value, "apply_url", dflt) == Get(withCompany, "apply_url", dflt);
  }

  /** finalize_job raises "Invalid job: <reason>" exactly when validation rejects the entry. */
  lemma FinalizeRaisesIffInvalid(entry: Document, raw: Document, source: string, hash: string -> string,
                                 parseDate: Value -> Option<int>, now: int)
    ensures Finalized(entry, raw, source, hash, parseDate, now) == Err("Invalid job: " + NormalizationUtils.IsValidJob(entry).1)
      <==> !NormalizationUtils.IsValidJob(entry).0
  {
    var r := Finalized(entry, raw, source, hash, parseDate, now);
    if NormalizationUtils.IsValidJob(entry).0 && r.Err? {
      var p := Prepared(entry);
      assert r.error == NotText || r.error == ValidationError by {
        if p.Ok? {
          assert r == JobRecord(p.value, raw, source, EntryFingerprint(hash, p.value), parseDate, now);
        }
      }
      assert ("Invalid job: " + NormalizationUtils.IsValidJob(entry).1)[0] == 'I';
    }
  }

  /** Every finalised job has an apply_url, and it is not empty. */
  lemma FinalizedHasApplyUrl(entry: Document, raw: Document, source: string, hash: string -> string,
                             parseDate: Value -> Option<int>, now: int)
    requires Finalized(entry, raw, source, hash, parseDate, now).Ok?
    ensures var job := Finalized(entry, raw, source, hash, parseDate, now).value;
      job.applyUrl.Some? && job.applyUrl.value != ""
  {
    FinalizedSteps(entry, raw, source, hash, parseDate, now);
    PreparedUrl(entry, Null);
  }

  /** The text the company contributes to the fingerprint: the normalised name when
      the company is truthy, otherwise the value as formatted. */
  function CompanyText(entry: Document): string {
    var company := Get(entry, "company", Null);
    if Truthy(company) && company.Str? then NormalizationUtils.CompanyName(company.s)
    else Display(Get(entry, "company", Str("")))
  }

  /** The job's title is the normalised title, and its fingerprint covers the
      normalised title and company with the source_id and location as given. */
  lemma FinalizedFingerprint(entry: Document, raw: Document, source: string, hash: string -> string,
                             parseDate: Value -> Option<int>, now: int)
    requires Finalized(entry, raw, source, hash, parseDate, now).Ok?
    ensures Get(entry, "title", Null).Str?
    ensures var job := Finalized(entry, raw, source, hash, parseDate, now).value;
      job.title == NormalizationUtils.NormalizeTitle(Get(entry, "title", Null).s) &&
      job.metadata.fingerprint == NormalizationUtils.GenerateFingerprint(hash,
        NormalizationUtils.NormalizeTitle(Get(entry, "title", Null).s), CompanyText(entry),
        Display(Get(entry, "source_id", Str(""))), Display(Get(entry, "location", Str(""))))
  {
    FinalizedSteps(entry, raw, source, hash, parseDate, now);
    var p := Prepared(entry).value;
    PreparedFields(entry, "source_id", Str(""));
    PreparedFields(entry, "location", Str(""));
    PreparedFields(entry, "title", Null);
    PreparedFields(entry, "title", Str(""));
    assert Display(Get(p, "company", Str(""))) == CompanyText(entry);
  }

  /** The job's id is the source_id when that is truthy, otherwise the fingerprint;
      the job records where it was scraped from and the raw listing, and starts
      unscored with status NEW. */
  lemma FinalizedIdentity(entry: Document, raw: Document, source: string, hash: string -> string,
                          parseDate: Value -> Option<int>, now: int)
    requires Finalized(entry, raw, source, hash, parseDate, now).Ok?
    ensures var job := Finalized(entry, raw, source, hash, parseDate, now).value;
      (Truthy(Get(entry, "source_id", Null)) ==> Get(entry, "source_id", Null) == Str(job.id)) &&
      (!Truthy(Get(entry, "source_id", Null)) ==> job.id == job.metadata.fingerprint) &&
      job.source == source && job.metadata.scrapedFrom == Some(source) && job.metadata.rawPayload == raw &&
      job.status == New && job.matchScore.None?
  {
    FinalizedSteps(entry, raw, source, hash, parseDate, now);
    PreparedFields(entry, "source_id", Null);
  }

  // ---- Source labelling ----

  /** The source a raw listing is labelled with: its `via` field lowercased with
      spaces turned into underscores ("unknown" when absent), and google, linkedin
      and indeed folded onto their canonical names. A `via` that is not text
      makes the entry fail. */
  function SourceLabel(raw: Document): (r: Result<string>)
    ensures r.Err? <==> !Get(raw, "via", Str("unknown")).Str?
    ensures r.Ok? ==> ' ' !in r.value
  {
    var via := Get(raw, "via", Str("unknown"));
    if !via.Str? then Err(NotText)
    else
      var tag := ReplaceChar(Lower(via.s), ' ', "_");
      BoardNamesUnspaced();
      if Contains(tag, "google") then Ok("google_jobs")
      else if Contains(tag, "linkedin") then Ok("linkedin")
      else if Contains(tag, "indeed") then Ok("indeed")
      else Ok(tag)
  }

  lemma BoardNamesUnspaced()
    ensures ' ' !in "google_jobs" && ' ' !in "linkedin" && ' ' !in "indeed" && ' ' !in "_"
  {
  }

  lemma UnknownPlain(unknown: string)
    requires unknown == "unknown"
    ensures ' ' !in unknown && forall i :: 0 <= i < |unknown| ==> !IsUpper(unknown[i])
  {
  }

  /** "unknown" mentions none of the three job boards. */
  lemma UnknownNamesNoBoard(unknown: string)
    requires unknown == "unknown"
    ensures !Contains(unknown, "google") && !Contains(unknown, "linkedin") && !Contains(unknown, "indeed")
  {
    assert 'g' !in unknown && 'l' !in unknown && 'i' !in unknown;
    if Contains(unknown, "google") { ContainsHead(unknown, "google"); }
    if Contains(unknown, "linkedin") { ContainsHead(unknown, "linkedin"); }
    if Contains(unknown, "indeed") { ContainsHead(unknown, "indeed"); }
  }

  /** A listing with no `via` is labelled "unknown". */
  lemma SourceLabelDefault(raw: Document)
    requires "via" !in raw
    ensures SourceLabel(raw) == Ok("unknown")
  {
    var unknown := "unknown";
    assert Get(raw, "via", Str("unknown")) == Str(unknown);
    UnknownPlain(unknown);
    LowerNoUpper(unknown);
    ReplaceAbsent(unknown, ' ', "_");
    var tag := ReplaceChar(Lower(unknown), ' ', "_");
    assert tag == unknown;
    UnknownNamesNoBoard(unknown);
  }

  /** A tag mentioning one of the three job boards is folded onto its name, the
      first of google, linkedin, indeed that it mentions. */
  lemma SourceLabelFolds(raw: Document)
    requires Get(raw, "via", Str("unknown")).Str?
    ensures var tag := ReplaceChar(Lower(Get(raw, "via", Str("unknown")).s), ' ', "_");
      (Contains(tag, "google") ==> SourceLabel(raw) == Ok("google_jobs")) &&
      (!Contains(tag, "google") && Contains(tag, "linkedin") ==> SourceLabel(raw) == Ok("linkedin")) &&
      (!Contains(tag, "google") && !Contains(tag, "linkedin") && Contains(tag, "indeed") ==>
        SourceLabel(raw) == Ok("indeed"))
  {
  }

  // ---- normalizer_node ----

  /** What normalize_job_batch yields: the model's answer, or when it cannot be
      parsed, nothing normalised and every listing of the batch discarded. */
  datatype BatchResult = BatchResult(normalizedJobs: seq<Document>, discardedCount: int, discardReasons: seq<string>)

  function NormalizeJobBatch(batch: seq<Document>, answer: Option<BatchResult>): (r: BatchResult)
    ensures answer.Some? ==> r == answer.value
    ensures answer.None? ==>
      r.normalizedJobs == [] && r.discardedCount == |batch| && |r.discardReasons| == |batch| &&
      forall k :: 0 <= k < |batch| ==> r.discardReasons[k] == "llm_parse_error"
  {
    if answer.Some? then answer.value else BatchResult([], |batch|, Repeat("llm_parse_error", |batch|))
  }

  /** `[reason] * n`. */
  function Repeat(reason: string, n: nat): (r: seq<string>)
    ensures |r| == n && forall k :: 0 <= k < n ==> r[k] == reason
  {
    if n == 0 then [] else Repeat(reason, n - 1) + [reason]
  }

  /** The raw listing an entry is paired with: the one at the same position in the
      batch, or an empty listing past its end. */
  function RawFor(batch: seq<Document>, idx: nat): (raw: Document)
    ensures idx >= |batch| ==> raw == map[]
  {
    if idx < |batch| then batch[idx] else map[]
  }

  /** Labelling and finalising one normalised entry. */
  function ProcessEntry(entry: Document, raw: Document, hash: string -> string,
                        parseDate: Value -> Option<int>, now: int): Result<Job>
  {
    var source :- SourceLabel(raw);
    Finalized(entry, raw, source, hash, parseDate, now)
  }

  /** The jobs kept, the number discarded and the reasons collected. */
  datatype Tally = Tally(jobs: seq<Job>, discarded: int, reasons: seq<string>)

  /** The tally over the first `n` entries of a batch's answer. */
  function EntriesTally(entries: seq<Document>, batch: seq<Document>, n: nat, hash: string -> string,
                        parseDate: Value -> Option<int>, now: int): (t: Tally)
    requires n <= |entries|
    ensures |t.jobs| + t.discarded == n && |t.reasons| == t.discarded
  {
    if n == 0 then Tally([], 0, [])
    else
      var t := EntriesTally(entries, batch, n - 1, hash, parseDate, now);
      var r := ProcessEntry(entries[n - 1], RawFor(batch, n - 1), hash, parseDate, now);
      if r.Ok? then Tally(t.jobs + [r.value], t.discarded, t.reasons)
      else Tally(t.jobs, t.discarded + 1, t.reasons + [r.error])
  }

  /** Labelling one entry's listing and finalising the entry; a listing without a
      source fails the entry. */
  method FinalizeEntry(entry: Document, raw: Document, hash: string -> string,
                       parseDate: Value -> Option<int>, now: int) returns (r: Result<Job>)
    ensures r == ProcessEntry(entry, raw, hash, parseDate, now)
  {
    var source := SourceLabel(raw);
    if source.Err? {
      r := Err(source.error);
    } else {
      r := FinalizeJob(entry, raw, source.value, hash, parseDate, now);
    }
  }

  /** Finalising every entry of one batch's answer; failures are counted, not raised. */
  method FinalizeEntries(entries: seq<Document>, batch: seq<Document>, hash: string -> string,
                         parseDate: Value -> Option<int>, now: int) returns (t: Tally)
    ensures t == EntriesTally(entries, batch, |entries|, hash, parseDate, now)
  {
    t := Tally([], 0, []);
    for idx := 0 to |entries|
      invariant t == EntriesTally(entries, batch, idx, hash, parseDate, now)
    {
      var r := FinalizeEntry(entries[idx], RawFor(batch, idx), hash, parseDate, now);
      EntriesTallyNext(entries, batch, idx, idx + 1, hash, parseDate, now);
      if r.Ok? {
        t := t.(jobs := t.jobs + [r.value]);
      } else {
        t := Tally(t.jobs, t.discarded + 1, t.reasons + [r.error]);
      }
    }
  }

  lemma EntriesTallyNext(entries: seq<Document>, batch: seq<Document>, idx: nat, n: nat, hash: string -> string,
                         parseDate: Value -> Option<int>, now: int)
    requires idx < |entries| && n == idx + 1
    ensures var t := EntriesTally(entries, batch, idx, hash, parseDate, now);
      var r := ProcessEntry(entries[idx], RawFor(batch, idx), hash, parseDate, now);
      EntriesTally(entries, batch, n, hash, parseDate, now)
        == if r.Ok? then Tally(t.jobs + [r.value], t.discarded, t.reasons)
           else Tally(t.jobs, t.discarded + 1, t.reasons + [r.error])
  {
    assert n - 1 == idx;
  }

  /** The `b`-th batch: listings 10·b up to 10·b + 10, or the end. */
  function Batch(raw: seq<Document>, b: nat): seq<Document>
    requires BatchSize * b <= |raw|
  {
    var end := if BatchSize * b + BatchSize < |raw| then BatchSize * b + BatchSize else |raw|;
    raw[BatchSize * b..end]
  }

  function NumBatches(n: nat): nat {
    (n + BatchSize - 1) / BatchSize
  }

  /** A batch the node reaches starts inside the input, and only those do. */
  lemma BatchStart(n: nat, b: nat)
    ensures BatchSize * b < n <==> b < NumBatches(n)
    ensures BatchSize * b / BatchSize == b
  {
  }

  /** The tally of one batch: its entries, then the model's own discards. */
  function BatchTally(raw: seq<Document>, b: nat, answers: nat -> Option<BatchResult>, hash: string -> string,
                      parseDate: Value -> Option<int>, now: int): (u: Tally)
    requires BatchSize * b <= |raw|
    ensures var result := NormalizeJobBatch(Batch(raw, b), answers(b));
      |u.jobs| + u.discarded == |result.normalizedJobs| + result.discardedCount
  {
    var batch := Batch(raw, b);
    var result := NormalizeJobBatch(batch, answers(b));
    var t := EntriesTally(result.normalizedJobs, batch, |result.normalizedJobs|, hash, parseDate, now);
    Tally(t.jobs, t.discarded + result.discardedCount, t.reasons + result.discardReasons)
  }

  /** The tally after the first `b` batches. Nothing is lost: every entry the model
      returned is either a kept job or counted as discarded, beside the listings the
      model discarded itself. */
  function NodeTally(raw: seq<Document>, b: nat, answers: nat -> Option<BatchResult>, hash: string -> string,
                     parseDate: Value -> Option<int>, now: int): (t: Tally)
    requires b <= NumBatches(|raw|)
    ensures |t.jobs| + t.discarded == Accounted(raw, b, answers)
  {
    if b == 0 then Tally([], 0, [])
    else
      var t := NodeTally(raw, b - 1, answers, hash, parseDate, now);
      var u := BatchTally(raw, b - 1, answers, hash, parseDate, now);
      Tally(t.jobs + u.jobs, t.discarded + u.discarded, t.reasons + u.reasons)
  }

  /** One more batch: its entries' tally and the model's discards are appended. */
  lemma NodeStep(raw: seq<Document>, b: nat, answers: nat -> Option<BatchResult>, hash: string -> string,
                 parseDate: Value -> Option<int>, now: int, u: Tally)
    requires BatchSize * b < |raw| && b < NumBatches(|raw|)
    requires var batch := Batch(raw, b);
      var entries := NormalizeJobBatch(batch, answers(b)).normalizedJobs;
      u == EntriesTally(entries, batch, |entries|, hash, parseDate, now)
    ensures var t := NodeTally(raw, b, answers, hash, parseDate, now);
      var result := NormalizeJobBatch(Batch(raw, b), answers(b));
      NodeTally(raw, b + 1, answers, hash, parseDate, now) ==
      Tally(t.jobs + u.jobs, t.discarded + u.discarded + result.discardedCount,
            t.reasons + (u.reasons + result.discardReasons))
  {
  }

  /** `normalizer_node`: the finalised jobs of every batch, in order. `answers(b)`
      is the model's answer for batch `b`, `None` when it cannot be parsed. */
  method NormalizerNode(raw: seq<Document>, answers: nat -> Option<BatchResult>, hash: string -> string,
                        parseDate: Value -> Option<int>, now: int) returns (t: Tally)
    ensures raw == [] ==> t == Tally([], 0, [])
    ensures t == NodeTally(raw, NumBatches(|raw|), answers, hash, parseDate, now)
  {
    t := Tally([], 0, []);
    if raw == [] {
      return;
    }
    var i := 0;
    ghost var b := 0;
    ghost var nb := NumBatches(|raw|);
    while i < |raw|
      invariant i == BatchSize * b && b <= nb
      invariant t == NodeTally(raw, b, answers, hash, parseDate, now)
      decreases |raw| - i
    {
      BatchStart(|raw|, b);
      var batch := raw[i..if i + BatchSize < |raw| then i + BatchSize else |raw|];
      assert batch == Batch(raw, b) && i / BatchSize == b;
      var result := NormalizeJobBatch(batch, answers(i / BatchSize));
      var u := FinalizeEntries(result.normalizedJobs, batch, hash, parseDate, now);
      NodeStep(raw, b, answers, hash, parseDate, now, u);
      t := Tally(t.jobs + u.jobs, t.discarded + u.discarded + result.discardedCount,
                 t.reasons + (u.reasons + result.discardReasons));
      i := i + BatchSize;
      b := b + 1;
    }
    BatchStart(|raw|, b);
    assert b == nb;
  }

  // ---- Properties of the node ----

  /** Every batch holds between one and ten listings, and the batches, in order,
      are exactly the input. */
  lemma {:induction false} BatchesCover(raw: seq<Document>, k: nat)
    requires k <= NumBatches(|raw|)
    ensures BatchSize * k <= |raw| + BatchSize - 1
    ensures forall b :: 0 <= b < k ==> BatchSize * b < |raw| && 1 <= |Batch(raw, b)| <= BatchSize
    ensures Concat(raw, k) == raw[..if BatchSize * k < |raw| then BatchSize * k else |raw|]
  {
    if k > 0 {
      BatchesCover(raw, k - 1);
    }
  }

  /** The first `k` batches joined together. */
  function Concat(raw: seq<Document>, k: nat): seq<Document>
    requires k <= NumBatches(|raw|)
  {
    if k == 0 then [] else Concat(raw, k - 1) + Batch(raw, k - 1)
  }

  /** The number of entries the model returned over the first `b` batches, plus
      the listings it discarded itself. */
  function Accounted(raw: seq<Document>, b: nat, answers: nat -> Option<BatchResult>): int
    requires b <= NumBatches(|raw|)
  {
    if b == 0 then 0
    else
      var result := NormalizeJobBatch(Batch(raw, b - 1), answers(b - 1));
      Accounted(raw, b - 1, answers) + |result.normalizedJobs| + result.discardedCount
  }

  /** `job` is what finalising entry `idx` of a batch's answer gives. */
  predicate FinalizedEntry(entries: seq<Document>, batch: seq<Document>, idx: int, job: Job,
                           hash: string -> string, parseDate: Value -> Option<int>, now: int)
  {
    0 <= idx < |entries| && ProcessEntry(entries[idx], RawFor(batch, idx), hash, parseDate, now) == Ok(job)
  }

  /** Each entry that is labelled and finalised has a non-empty apply_url. */
  lemma ProcessedHasApplyUrl(entry: Document, raw: Document, hash: string -> string,
                             parseDate: Value -> Option<int>, now: int)
    requires ProcessEntry(entry, raw, hash, parseDate, now).Ok?
    ensures var job := ProcessEntry(entry, raw, hash, parseDate, now).value;
      job.applyUrl.Some? && job.applyUrl.value != ""
  {
    FinalizedHasApplyUrl(entry, raw, SourceLabel(raw).value, hash, parseDate, now);
  }

  /** Each kept job of a batch is the finalisation of one of its first `n` entries. */
  lemma {:induction false} EntriesJobsFinalized(entries: seq<Document>, batch: seq<Document>, n: nat,
                                                hash: string -> string, parseDate: Value -> Option<int>, now: int)
    requires n <= |entries|
    ensures forall job :: job in EntriesTally(entries, batch, n, hash, parseDate, now).jobs ==>
      exists idx :: 0 <= idx < n && FinalizedEntry(entries, batch, idx, job, hash, parseDate, now)
  {
    if n > 0 {
      EntriesJobsFinalized(entries, batch, n - 1, hash, parseDate, now);
      EntriesStep(entries, batch, n - 1, n, hash, parseDate, now);
    }
  }

  /** Every job of `jobs` is the finalisation of one of the first `n` entries. */
  ghost predicate AllFinalized(jobs: seq<Job>, entries: seq<Document>, batch: seq<Document>, n: nat,
                               hash: string -> string, parseDate: Value -> Option<int>, now: int)
  {
    forall job :: job in jobs ==>
      exists idx :: 0 <= idx < n && FinalizedEntry(entries, batch, idx, job, hash, parseDate, now)
  }

  lemma EntriesStep(entries: seq<Document>, batch: seq<Document>, m: nat, n: nat,
                    hash: string -> string, parseDate: Value -> Option<int>, now: int)
    requires n == m + 1 <= |entries|
    requires AllFinalized(EntriesTally(entries, batch, m, hash, parseDate, now).jobs, entries, batch, m, hash, parseDate, now)
    ensures forall job :: job in EntriesTally(entries, batch, n, hash, parseDate, now).jobs ==>
      exists idx :: 0 <= idx < n && FinalizedEntry(entries, batch, idx, job, hash, parseDate, now)
  {
    var t := EntriesTally(entries, batch, m, hash, parseDate, now);
    var u := EntriesTally(entries, batch, n, hash, parseDate, now);
    var r := ProcessEntry(entries[m], RawFor(batch, m), hash, parseDate, now);
    EntriesTallyNext(entries, batch, m, n, hash, parseDate, now);
    forall job | job in u.jobs
      ensures exists idx :: 0 <= idx < n && FinalizedEntry(entries, batch, idx, job, hash, parseDate, now)
    {
      KeptFrom(t.jobs, r, job);
      if job in t.jobs {
        var idx :| 0 <= idx < m && FinalizedEntry(entries, batch, idx, job, hash, parseDate, now);
      } else {
        FinalizedAt(entries, batch, m, job, hash, parseDate, now);
      }
    }
  }

  lemma FinalizedAt(entries: seq<Document>, batch: seq<Document>, idx: nat, job: Job,
                    hash: string -> string, parseDate: Value -> Option<int>, now: int)
    requires idx < |entries| && ProcessEntry(entries[idx], RawFor(batch, idx), hash, parseDate, now) == Ok(job)
    ensures FinalizedEntry(entries, batch, idx, job, hash, parseDate, now)
  {
  }

  /** A job kept after one more entry was kept before or is that entry's job. */
  lemma KeptFrom(kept: seq<Job>, r: Result<Job>, job: Job)
    requires job in (if r.Ok? then kept + [r.value] else kept)
    ensures job in kept || r == Ok(job)
  {
  }

  /** Every job the node returns was finalised from an entry of some batch, and so
      carries a non-empty apply_url. */
  lemma {:induction false} NodeJobsFinalized(raw: seq<Document>, b: nat, answers: nat -> Option<BatchResult>,
                                             hash: string -> string, parseDate: Value -> Option<int>, now: int)
    requires b <= NumBatches(|raw|)
    ensures forall job :: job in NodeTally(raw, b, answers, hash, parseDate, now).jobs ==>
      job.applyUrl.Some? && job.applyUrl.value != "" &&
      exists k, idx :: 0 <= k < b && BatchSize * k <= |raw| &&
        var batch := Batch(raw, k);
        FinalizedEntry(NormalizeJobBatch(batch, answers(k)).normalizedJobs, batch, idx, job, hash, parseDate, now)
  {
    if b > 0 {
      NodeJobsFinalized(raw, b - 1, answers, hash, parseDate, now);
      BatchStart(|raw|, b - 1);
      var batch := Batch(raw, b - 1);
      var entries := NormalizeJobBatch(batch, answers(b - 1)).normalizedJobs;
      EntriesJobsFinalized(entries, batch, |entries|, hash, parseDate, now);
      var t := NodeTally(raw, b - 1, answers, hash, parseDate, now);
      var u := BatchTally(raw, b - 1, answers, hash, parseDate, now);
      assert NodeTally(raw, b, answers, hash, parseDate, now).jobs == t.jobs + u.jobs;
      forall job | job in u.jobs
        ensures job.applyUrl.Some? && job.applyUrl.value != "" &&
          exists k, idx :: 0 <= k < b && BatchSize * k <= |raw| &&
            var batch := Batch(raw, k);
            FinalizedEntry(NormalizeJobBatch(batch, answers(k)).normalizedJobs, batch, idx, job, hash, parseDate, now)
      {
        var idx :| 0 <= idx < |entries| && FinalizedEntry(entries, batch, idx, job, hash, parseDate, now);
        ProcessedHasApplyUrl(entries[idx], RawFor(batch, idx), hash, parseDate, now);
      }
    }
  }

  /** An entry past the end of its batch is finalised with an empty raw listing and
      the source "unknown". */
  lemma EntryPastBatch(entry: Document, batch: seq<Document>, idx: nat, hash: string -> string,
                       parseDate: Value -> Option<int>, now: int)
    requires idx >= |batch|
    ensures ProcessEntry(entry, RawFor(batch, idx), hash, parseDate, now) ==
      Finalized(entry, map[], "unknown", hash, parseDate, now)
  {
    SourceLabelDefault(map[]);
  }
}
