/** The records of the job hunter: job statuses, user profiles, salaries, jobs
    with their tracking metadata, and scan runs, with the values a record gets
    when a field is not given. Times are whole seconds; `now` is the clock. */
module Models {
  import opened Wrappers
  import opened Values
  import opened Text

  /** Where a job is in the application funnel. */
  datatype JobStatus = New | Matched | Applied | Rejected | Interview | Offer

  /** The string each status is stored as. */
  function StatusName(s: JobStatus): (name: string)
    ensures name != ""
  {
    match s
    case New => "new"
    case Matched => "matched"
    case Applied => "applied"
    case Rejected => "rejected"
    case Interview => "interview"
    case Offer => "offer"
  }

  /** `JobStatus(name)`: the status stored as `name`; any other string is refused. */
  function ParseStatus(name: string): Option<JobStatus> {
    if name == "new" then Some(New)
    else if name == "matched" then Some(Matched)
    else if name == "applied" then Some(Applied)
    else if name == "rejected" then Some(Rejected)
    else if name == "interview" then Some(Interview)
    else if name == "offer" then Some(Offer)
    else None
  }

  /** Statuses and their stored names are in one-to-one correspondence. */
  lemma StatusNameRoundTrip(s: JobStatus, name: string)
    ensures ParseStatus(StatusName(s)) == Some(s)
    ensures ParseStatus(name) == Some(s) <==> name == StatusName(s)
  {
  }

  /** The closed set of stored status names. */
  lemma StatusNames(name: string)
    ensures ParseStatus(name).Some? <==>
      name in ["new", "matched", "applied", "rejected", "interview", "offer"]
  {
  }

  datatype UserProfile = UserProfile(
    name: string,
    skills: seq<string>,
    keywords: seq<string>,
    experienceYears: int,
    resumeText: Option<string>,
    resumeFileUrl: Option<string>,
    resumeParsedText: Option<string>,
    linkedinUrl: Option<string>,
    summary: Option<string>,
    education: seq<Document>,
    workExperience: seq<Document>,
    preferences: Document)

  /** `UserProfile(name=name)`. */
  function NewUserProfile(name: string): (p: UserProfile)
    ensures p.name == name
    ensures p.skills == [] && p.keywords == [] && p.education == [] && p.workExperience == []
    ensures p.experienceYears == 0 && p.preferences == map[]
    ensures p.resumeText.None? && p.resumeFileUrl.None? && p.resumeParsedText.None?
    ensures p.linkedinUrl.None? && p.summary.None?
  {
    UserProfile(name, [], [], 0, None, None, None, None, None, [], [], map[])
  }

  datatype User = User(id: string, email: string, profile: UserProfile, createdAt: int)

  /** `User(_id=id, email=email)`: an unnamed profile, created now. */
  function NewUser(id: string, email: string, now: int): (u: User)
    ensures u.id == id && u.email == email && u.createdAt == now
    ensures u.profile == NewUserProfile("")
  {
    User(id, email, NewUserProfile(""), now)
  }

  datatype SalaryInfo = SalaryInfo(min: Option<real>, max: Option<real>, currency: Option<string>, interval: Option<string>)

  /** `SalaryInfo()`: every field absent. */
  const NoSalaryInfo := SalaryInfo(None, None, None, None)

  datatype OutreachContent = OutreachContent(emailSubject: Option<string>, emailBody: Option<string>, linkedinDm: Option<string>)

  const NoOutreach := OutreachContent(None, None, None)

  /** Tracking data; a fingerprint is required. */
  datatype JobMetadata = JobMetadata(
    collectedAt: int,
    scrapedFrom: Option<string>,
    fingerprint: string,
    rawPayload: Document,
    scanRunId: Option<string>)

  /** `JobMetadata(fingerprint=fingerprint)`, collected now. */
  function NewMetadata(fingerprint: string, now: int): (m: JobMetadata)
    ensures m.fingerprint == fingerprint && m.collectedAt == now
    ensures m.scrapedFrom.None? && m.rawPayload == map[] && m.scanRunId.None?
  {
    JobMetadata(now, None, fingerprint, map[], None)
  }

  datatype Job = Job(
    id: string,
    source: string,
    sourceId: Option<string>,
    title: string,
    company: Option<string>,
    companyLogo: Option<string>,
    location: Option<string>,
    remote: bool,
    jobType: Option<string>,
    employmentType: Option<string>,
    salary: SalaryInfo,
    postedAt: Option<int>,
    description: Option<string>,
    listingUrl: Option<string>,
    applyUrl: Option<string>,
    tags: seq<string>,
    skillsExtracted: seq<string>,
    matchScore: Option<real>,
    matchReasoning: Option<string>,
    missingSkills: seq<string>,
    status: JobStatus,
    outreach: OutreachContent,
    metadata: JobMetadata,
    createdAt: int)

  /** A job given only its required fields: id, source, title and metadata. */
  function NewJob(id: string, source: string, title: string, metadata: JobMetadata, now: int): (j: Job)
    ensures j.id == id && j.source == source && j.title == title && j.metadata == metadata
    ensures j.status == New && !j.remote
    ensures j.tags == [] && j.skillsExtracted == [] && j.missingSkills == []
    ensures j.salary == NoSalaryInfo && j.outreach == NoOutreach
    ensures j.matchScore.None? && j.listingUrl.None? && j.applyUrl.None?
    ensures j.createdAt == now
  {
    Job(id, source, None, title, None, None, None, false, None, None, NoSalaryInfo, None, None, None, None,
        [], [], None, None, [], New, NoOutreach, metadata, now)
  }

  datatype ScanRun = ScanRun(
    id: string,
    status: string,
    sources: seq<string>,
    jobsFound: int,
    jobsMatched: int,
    startedAt: int,
    completedAt: Option<int>,
    error: Option<string>)

  /** `ScanRun(_id=id)`: pending, no counts, started now. */
  function NewScanRun(id: string, now: int): (r: ScanRun)
    ensures r.id == id && r.status == "pending" && r.sources == []
    ensures r.jobsFound == 0 && r.jobsMatched == 0
    ensures r.startedAt == now && r.completedAt.None? && r.error.None?
  {
    ScanRun(id, "pending", [], 0, 0, now, None, None)
  }

  // ---- Stored form (`model_dump(by_alias=True)`) ----

  function OptStr(v: Option<string>): Value {
    if v.Some? then Str(v.value) else Null
  }

  function OptReal(v: Option<real>): Value {
    if v.Some? then Real(v.value) else Null
  }

  function OptDate(v: Option<int>): Value {
    if v.Some? then Date(v.value) else Null
  }

  function StrValues(xs: seq<string>): (r: seq<Value>)
    ensures |r| == |xs| && forall i :: 0 <= i < |xs| ==> r[i] == Str(xs[i])
  {
    if xs == [] then [] else [Str(xs[0])] + StrValues(xs[1..])
  }

  function SalaryDocument(s: SalaryInfo): Document {
    map["min" := OptReal(s.min), "max" := OptReal(s.max), "currency" := OptStr(s.currency),
        "interval" := OptStr(s.interval)]
  }

  function OutreachDocument(o: OutreachContent): Document {
    map["email_subject" := OptStr(o.emailSubject), "email_body" := OptStr(o.emailBody),
        "linkedin_dm" := OptStr(o.linkedinDm)]
  }

  function MetadataDocument(m: JobMetadata): (d: Document)
    ensures "fingerprint" in d && d["fingerprint"] == Str(m.fingerprint)
  {
    map["collected_at" := Date(m.collectedAt), "scraped_from" := OptStr(m.scrapedFrom),
        "fingerprint" := Str(m.fingerprint), "raw_payload" := Doc(m.rawPayload),
        "scan_run_id" := OptStr(m.scanRunId)]
  }

  /** The document a job is stored as: every field under its stored name, the id
      under `_id`, and nested records as sub-documents. */
  function JobDocument(j: Job): Document {
    map[
      "source" := Str(j.source), "source_id" := OptStr(j.sourceId),
      "title" := Str(j.title), "company" := OptStr(j.company), "company_logo" := OptStr(j.companyLogo),
      "location" := OptStr(j.location), "remote" := Bool(j.remote), "job_type" := OptStr(j.jobType),
      "employment_type" := OptStr(j.employmentType), "salary" := Doc(SalaryDocument(j.salary)),
      "posted_at" := OptDate(j.postedAt), "description" := OptStr(j.description),
      "listing_url" := OptStr(j.listingUrl), "apply_url" := OptStr(j.applyUrl),
      "tags" := List(StrValues(j.tags)), "skills_extracted" := List(StrValues(j.skillsExtracted)),
      "match_score" := OptReal(j.matchScore), "match_reasoning" := OptStr(j.matchReasoning),
      "missing_skills" := List(StrValues(j.missingSkills)), "outreach" := Doc(OutreachDocument(j.outreach)),
      "created_at" := Date(j.createdAt), "status" := Str(StatusName(j.status)),
      "metadata" := Doc(MetadataDocument(j.metadata)), "_id" := Str(j.id)
    ]
  }

  /** The stored job keeps its id under `_id`, its status by name, and its
      metadata as a sub-document. */
  lemma JobDocumentKeys(j: Job)
    ensures var d := JobDocument(j);
      "_id" in d && d["_id"] == Str(j.id) &&
      "metadata" in d && d["metadata"] == Doc(MetadataDocument(j.metadata)) &&
      "status" in d && d["status"] == Str(StatusName(j.status))
  {
  }

  /** No stored field is named by the dotted path to the fingerprint. */
  lemma JobDocumentNoDottedKey(j: Job)
    ensures "metadata.fingerprint" !in JobDocument(j)
  {
  }

  /** The stored job answers a lookup of `metadata.fingerprint` with its fingerprint. */
  lemma JobDocumentFingerprint(j: Job)
    ensures Lookup(JobDocument(j), "metadata.fingerprint") == Str(j.metadata.fingerprint)
  {
    JobDocumentKeys(j);
    JobDocumentNoDottedKey(j);
    FingerprintPath(JobDocument(j), Doc(MetadataDocument(j.metadata)), j.metadata.fingerprint);
  }

  /** A document whose metadata holds a fingerprint answers the dotted lookup with it. */
  lemma FingerprintPath(d: Document, metadata: Value, fp: string)
    requires "metadata.fingerprint" !in d && "metadata" in d && d["metadata"] == metadata
    requires metadata.Doc? && "fingerprint" in metadata.fields && metadata.fields["fingerprint"] == Str(fp)
    ensures Lookup(d, "metadata.fingerprint") == Str(fp)
  {
    assert "metadata.fingerprint" == "metadata" + "." + "fingerprint";
    LookupNested(d, "metadata", "fingerprint");
  }
}
