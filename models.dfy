/**
  The three Mongoose schemas (server/src/models/Student.js, Company.js,
  ScanEvent.js): the stored records, the documents handlers pass to
  `create`, and what the schema adds when it casts one into the other
  (the `trim` and `lowercase` setters, the defaults and the `required`
  validators). The `unique` indexes are invariants of the store.
 */
module Models {

  import opened Js
  import opened Text

  /** A document `_id`; the store draws fresh ones from a counter. */
  type ObjectId = nat

  /** The uploaded CV: bytes, MIME type, original file name and size. */
  datatype Cv = Cv(data: seq<bv8>, contentType: string, fileName: string, size: int)

  datatype Student = Student(
    id: ObjectId,
    slug: string,
    accessToken: string,
    name: string,
    institutionalEmail: string,
    linkedinUrl: string,
    cv: Option<Cv>)

  datatype Company = Company(
    id: ObjectId,
    name: string,
    email: string,
    logoUrl: string,
    websiteUrl: string,
    isDefaultLogin: bool,
    passwordHash: string,
    active: bool)

  /** One row of the scan ledger: which company scanned which student, when. */
  datatype ScanEvent = ScanEvent(
    id: ObjectId,
    student: ObjectId,
    company: ObjectId,
    scannedAt: int,
    ipAddress: string,
    userAgent: string)

  /** The object passed to `Student.create`; `None` is a field left undefined. */
  datatype StudentFields = StudentFields(
    slug: string,
    accessToken: string,
    name: string,
    institutionalEmail: string,
    linkedinUrl: Option<string>,
    cv: Option<Cv>)

  /** The object passed to `Company.create`. */
  datatype CompanyFields = CompanyFields(
    name: string,
    email: string,
    logoUrl: Option<string>,
    websiteUrl: Option<string>,
    isDefaultLogin: Option<bool>,
    passwordHash: string,
    active: Option<bool>)

  /** The object passed to `ScanEvent.create`. */
  datatype ScanFields = ScanFields(
    student: ObjectId,
    company: ObjectId,
    scannedAt: Option<int>,
    ipAddress: Option<string>,
    userAgent: Option<string>)

  /** A `$set` of every company field, as the seeding script writes it. */
  datatype CompanyUpdate = CompanyUpdate(
    name: string,
    email: string,
    websiteUrl: string,
    logoUrl: string,
    isDefaultLogin: bool,
    passwordHash: string,
    active: bool)

  /** What a rejected write throws: a failed `required` validator or a
      violated unique index (E11000). */
  datatype DbError = ValidationFailed | DuplicateKey

  /** The schema's `trim: true`, with `default: ""` for an undefined value. */
  function TrimmedOrEmpty(x: Option<string>): (r: string)
    ensures IsTrimmed(r)
  {
    match x
    case None => ""
    case Some(v) => Trim(v)
  }

  predicate IsNormalizedEmail(e: string) {
    IsTrimmed(e) && IsLower(e)
  }

  /** What every stored student satisfies after casting and validation. */
  predicate WellFormedStudent(s: Student) {
    && s.slug != "" && s.accessToken != ""
    && s.name != "" && IsTrimmed(s.name)
    && s.institutionalEmail != "" && IsNormalizedEmail(s.institutionalEmail)
    && IsTrimmed(s.linkedinUrl)
  }

  /** What every stored company satisfies: the setters run on inserts and on
      updates alike. The `required` validators run only on inserts (an update
      with `findOneAndUpdate` skips them), so non-emptiness is not part of it. */
  predicate WellFormedCompany(c: Company) {
    && IsTrimmed(c.name) && IsNormalizedEmail(c.email)
    && IsTrimmed(c.logoUrl) && IsTrimmed(c.websiteUrl)
  }

  /** `Student.create` up to the insert: the setters on `name`,
      `institutionalEmail` and `linkedinUrl`, the default for `linkedinUrl`,
      and the `required` validators, which reject an empty string. */
  function CastStudent(id: ObjectId, f: StudentFields): (r: Result<Student, DbError>)
    ensures r.Ok? <==> f.slug != "" && f.accessToken != ""
                       && !AllWhitespace(f.name) && !AllWhitespace(f.institutionalEmail)
    ensures r.Err? ==> r.error == ValidationFailed
    ensures r.Ok? ==> && WellFormedStudent(r.value)
                      && r.value.id == id && r.value.slug == f.slug && r.value.accessToken == f.accessToken
                      && r.value.name == Trim(f.name)
                      && r.value.institutionalEmail == NormalizeEmail(f.institutionalEmail)
                      && r.value.linkedinUrl == TrimmedOrEmpty(f.linkedinUrl)
                      && r.value.cv == f.cv
  {
    var name := Trim(f.name);
    var email := NormalizeEmail(f.institutionalEmail);
    if f.slug == "" || f.accessToken == "" || name == "" || email == "" then Err(ValidationFailed)
    else Ok(Student(id, f.slug, f.accessToken, name, email, TrimmedOrEmpty(f.linkedinUrl), f.cv))
  }

  /** `Company.create` up to the insert: the setters and defaults of the
      schema (`isDefaultLogin` false, `active` true, empty branding) and its
      `required` validators. */
  function CastCompany(id: ObjectId, f: CompanyFields): (r: Result<Company, DbError>)
    ensures r.Ok? <==> !AllWhitespace(f.name) && !AllWhitespace(f.email) && f.passwordHash != ""
    ensures r.Err? ==> r.error == ValidationFailed
    ensures r.Ok? ==> && WellFormedCompany(r.value)
                      && r.value.id == id
                      && r.value.name == Trim(f.name) && r.value.email == NormalizeEmail(f.email)
                      && r.value.logoUrl == TrimmedOrEmpty(f.logoUrl)
                      && r.value.websiteUrl == TrimmedOrEmpty(f.websiteUrl)
                      && r.value.isDefaultLogin == (f.isDefaultLogin == Some(true))
                      && r.value.active == (f.active != Some(false))
                      && r.value.passwordHash == f.passwordHash
  {
    var name := Trim(f.name);
    var email := NormalizeEmail(f.email);
    if name == "" || email == "" || f.passwordHash == "" then Err(ValidationFailed)
    else
      Ok(Company(id, name, email, TrimmedOrEmpty(f.logoUrl), TrimmedOrEmpty(f.websiteUrl),
                 match f.isDefaultLogin case Some(b) => b case None => false,
                 f.passwordHash,
                 match f.active case Some(b) => b case None => true))
  }

  /** `ScanEvent.create`: `scannedAt` defaults to the time of the write,
      `ipAddress` and `userAgent` to "". Both references are always given, so
      the cast never fails. */
  function CastScan(id: ObjectId, f: ScanFields, now: int): (e: ScanEvent)
    ensures e.id == id && e.student == f.student && e.company == f.company
    ensures e.scannedAt == (if f.scannedAt.Some? then f.scannedAt.value else now)
    ensures f.ipAddress.None? ==> e.ipAddress == ""
    ensures f.userAgent.None? ==> e.userAgent == ""
  {
    ScanEvent(id, f.student, f.company,
              match f.scannedAt case Some(t) => t case None => now,
              match f.ipAddress case Some(a) => a case None => "",
              match f.userAgent case Some(a) => a case None => "")
  }

  /** The update a `$set` makes to a company, with the schema's setters. */
  function ApplyUpdate(id: ObjectId, u: CompanyUpdate): (c: Company)
    ensures c.id == id && c.isDefaultLogin == u.isDefaultLogin && c.active == u.active
    ensures c.email == NormalizeEmail(u.email) && c.name == Trim(u.name)
    ensures c.websiteUrl == Trim(u.websiteUrl) && c.logoUrl == Trim(u.logoUrl)
    ensures c.passwordHash == u.passwordHash
    ensures WellFormedCompany(c)
  {
    Company(id, Trim(u.name), NormalizeEmail(u.email), Trim(u.logoUrl), Trim(u.websiteUrl),
            u.isDefaultLogin, u.passwordHash, u.active)
  }

  /** The setters change nothing in a document whose strings are already
      trimmed and whose email is already lower-cased: the handlers normalise
      before they write, so what they build is what is stored. */
  lemma {:induction false} CastStudentKeepsNormalized(id: ObjectId, f: StudentFields)
    requires f.slug != "" && f.accessToken != "" && f.name != "" && f.institutionalEmail != ""
    requires IsTrimmed(f.name) && IsNormalizedEmail(f.institutionalEmail)
    requires f.linkedinUrl.Some? && IsTrimmed(f.linkedinUrl.value)
    ensures CastStudent(id, f) == Ok(Student(id, f.slug, f.accessToken, f.name, f.institutionalEmail,
                                             f.linkedinUrl.value, f.cv))
  {
    LowerOfLower(f.institutionalEmail);
  }

  lemma {:induction false} CastCompanyKeepsNormalized(id: ObjectId, f: CompanyFields)
    requires f.name != "" && f.email != "" && f.passwordHash != ""
    requires IsTrimmed(f.name) && IsNormalizedEmail(f.email)
    requires f.logoUrl.Some? && IsTrimmed(f.logoUrl.value)
    requires f.websiteUrl.Some? && IsTrimmed(f.websiteUrl.value)
    ensures CastCompany(id, f) == Ok(Company(id, f.name, f.email, f.logoUrl.value, f.websiteUrl.value,
                                             f.isDefaultLogin == Some(true), f.passwordHash,
                                             f.active != Some(false)))
  {
    LowerOfLower(f.email);
  }

  /** `slug` is unique across students (`unique: true`). `accessToken` has no
      unique index, so nothing here constrains it. */
  predicate UniqueSlugs(ss: seq<Student>) {
    forall i, j :: 0 <= i < j < |ss| ==> ss[i].slug != ss[j].slug
  }

  /** `email` is unique across companies (`unique: true`). */
  predicate UniqueEmails(cs: seq<Company>) {
    forall i, j :: 0 <= i < j < |cs| ==> cs[i].email != cs[j].email
  }

  predicate DistinctStudentIds(ss: seq<Student>) {
    forall i, j :: 0 <= i < j < |ss| ==> ss[i].id != ss[j].id
  }

  predicate DistinctCompanyIds(cs: seq<Company>) {
    forall i, j :: 0 <= i < j < |cs| ==> cs[i].id != cs[j].id
  }

  /** Only the event ids are distinct: the ledger has no unique index on the
      (student, company) pair. */
  predicate DistinctScanIds(es: seq<ScanEvent>) {
    forall i, j :: 0 <= i < j < |es| ==> es[i].id != es[j].id
  }
}
