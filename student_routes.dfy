/**
  server/src/routes/studentRoutes.js: registration of a student, the public
  profile and CV, the private dashboard opened with the access token, and the
  scan a logged-in company records.

  The random slug and token (`nanoid(10)`, `nanoid(30)`) and the time of a
  scan are parameters; the QR code image is not modelled.
 */
module StudentRoutes {

  import opened Js
  import opened Text
  import opened Models
  import opened Store
  import opened Ledger
  import opened Http
  import opened Auth

  // ---------------------------------------------------------------------
  // Helpers

  /** The domain test on an already normalised address: there is an "@"
      after the first character, and the text after the last one is listed. */
  predicate DomainAllowed(normalized: string, allowed: seq<string>) {
    var at := LastIndexOf(normalized, '@');
    at > 0 && normalized[at + 1..] in allowed
  }

  /** `isAllowedInstitutionalEmail`: the domain after the last "@" of the
      lower-cased, trimmed address must be on the allow-list; an address with
      no "@" after its first character is refused. */
  predicate IsAllowedInstitutionalEmail(email: Option<string>, allowed: seq<string>) {
    DomainAllowed(NormalizeEmail(Or(email, "")), allowed)
  }

  /** A normalised address passes exactly when it is a non-empty local part,
      "@", and a domain without "@" that is on the list. */
  lemma DomainAllowedSpec(n: string, allowed: seq<string>)
    ensures DomainAllowed(n, allowed) <==>
              exists local: string, domain: string ::
                && n == local + "@" + domain
                && local != "" && '@' !in domain && domain in allowed
  {
    var at := LastIndexOf(n, '@');
    if DomainAllowed(n, allowed) {
      assert n == n[..at] + "@" + n[at + 1..];
    }
    if exists local: string, domain: string ::
         && n == local + "@" + domain && local != "" && '@' !in domain && domain in allowed
    {
      var local: string, domain: string :|
        && n == local + "@" + domain && local != "" && '@' !in domain && domain in allowed;
      LastIndexOfJoin(local, '@', domain);
      assert n[|local| + 1..] == domain;
    }
  }

  /** An address without "@", or whose only "@" comes first, is refused
      whatever the list holds. */
  lemma RefusedWithoutLocalPart(email: Option<string>, allowed: seq<string>)
    requires forall i :: 1 <= i < |NormalizeEmail(Or(email, ""))| ==> NormalizeEmail(Or(email, ""))[i] != '@'
    ensures !IsAllowedInstitutionalEmail(email, allowed)
  {
    var n := NormalizeEmail(Or(email, ""));
    var at := LastIndexOf(n, '@');
    assert at <= 0;
  }

  /** `startsWith("http://") || startsWith("https://")`, case-sensitive. */
  predicate HasWebScheme(s: string) {
    StartsWith(s, "http://") || StartsWith(s, "https://")
  }

  /** `normalizeLinkedin`: "" for a missing or blank value, the trimmed value
      when it already starts with "http://" or "https://", and otherwise the
      trimmed value behind "https://". */
  function NormalizeLinkedin(url: Option<string>): string {
    if !Truthy(url) then ""
    else
      var trimmed := Trim(url.value);
      if trimmed == "" then ""
      else if HasWebScheme(trimmed) then trimmed
      else "https://" + trimmed
  }

  /** The normalised value is trimmed; it is "" exactly for a missing or
      blank value; a trimmed value with a scheme is kept, and any other is
      put behind "https://". */
  lemma NormalizeLinkedinSpec(url: Option<string>)
    ensures var r := NormalizeLinkedin(url);
            && IsTrimmed(r)
            && (r == "" <==> !Truthy(url) || AllWhitespace(url.value))
            && (Truthy(url) && HasWebScheme(Trim(url.value)) ==> r == Trim(url.value))
            && (Truthy(url) && !AllWhitespace(url.value) && !HasWebScheme(Trim(url.value)) ==>
                  r == "https://" + Trim(url.value))
  {
    if Truthy(url) {
      var t := Trim(url.value);
      if t != "" && !HasWebScheme(t) {
        HttpsTrimmed(t);
      }
    }
  }

  /** A normalised LinkedIn URL is left as it is by a second normalisation. */
  lemma NormalizeLinkedinIdempotent(url: Option<string>)
    ensures NormalizeLinkedin(Some(NormalizeLinkedin(url))) == NormalizeLinkedin(url)
  {
    NormalizeLinkedinSpec(url);
    var r := NormalizeLinkedin(url);
    NormalizeLinkedinSpec(Some(r));
    if r != "" && !HasWebScheme(Trim(url.value)) {
      assert r[..8] == "https://";
    }
  }

  /** Every non-empty normalised LinkedIn URL passes `/^https?:\/\//i`, so the
      handler's "LinkedIn inválido" answer can never be sent. */
  lemma NormalizeLinkedinHasScheme(url: Option<string>)
    ensures NormalizeLinkedin(url) != "" ==> HasHttpScheme(NormalizeLinkedin(url))
  {
    NormalizeLinkedinSpec(url);
    var r := NormalizeLinkedin(url);
    if r != "" {
      var t := Trim(url.value);
      if StartsWith(t, "http://") {
        StartsWithIgnoresCase(t, "http://");
      } else if StartsWith(t, "https://") {
        StartsWithIgnoresCase(t, "https://");
      } else {
        HttpsHasHttpScheme(t);
      }
    }
  }

  /** `getPublicProfileUrl`: the base URL without its trailing slashes, then
      "/p/" and the slug. */
  function PublicProfileUrl(appBaseUrl: string, slug: string): string {
    StripTrailingSlashes(appBaseUrl) + "/p/" + slug
  }

  /** `getDashboardUrl`. */
  function DashboardUrl(appBaseUrl: string, slug: string, token: string): string {
    StripTrailingSlashes(appBaseUrl) + "/student/" + slug + "/dashboard?token=" + token
  }

  /** The links do not depend on how many slashes end the base URL, and they
      start with the base URL itself when it has none. */
  lemma UrlsIgnoreTrailingSlash(appBaseUrl: string, slug: string, token: string)
    ensures PublicProfileUrl(appBaseUrl + "/", slug) == PublicProfileUrl(appBaseUrl, slug)
    ensures DashboardUrl(appBaseUrl + "/", slug, token) == DashboardUrl(appBaseUrl, slug, token)
    ensures appBaseUrl == [] || appBaseUrl[|appBaseUrl| - 1] != '/' ==>
              && PublicProfileUrl(appBaseUrl, slug) == appBaseUrl + "/p/" + slug
              && DashboardUrl(appBaseUrl, slug, token) == appBaseUrl + "/student/" + slug + "/dashboard?token=" + token
  {
    assert (appBaseUrl + "/")[..|appBaseUrl|] == appBaseUrl;
  }

  // ---------------------------------------------------------------------
  // POST /  (registration)

  /** The uploaded file as multer hands it over. */
  datatype Upload = Upload(buffer: seq<bv8>, mimetype: string, originalname: string, size: int)

  /** The multipart fields of the registration form and the optional CV. */
  datatype Registration = Registration(
    name: Option<string>,
    institutionalEmail: Option<string>,
    linkedinUrl: Option<string>,
    file: Option<Upload>)

  /** The 201 body; the QR image is left out. */
  datatype Registered = Registered(
    slug: string,
    accessToken: string,
    publicProfileUrl: string,
    dashboardUrl: string)

  /** The four 400 answers of the handler. */
  datatype RegistrationFailure = MissingFields | DomainRefused | InvalidLinkedin | NotPdf

  function Message(e: RegistrationFailure, allowed: seq<string>): string {
    match e
    case MissingFields => "Nome e email institucional são obrigatórios"
    case DomainRefused => "O email deve pertencer a: " + Join(allowed, ", ")
    case InvalidLinkedin => "LinkedIn inválido"
    case NotPdf => "O CV deve estar em PDF"
  }

  /** The checks of the handler in their order. */
  function RegistrationError(allowed: seq<string>, f: Registration): Option<RegistrationFailure> {
    if !Truthy(f.name) || !Truthy(f.institutionalEmail) then Some(MissingFields)
    else if !IsAllowedInstitutionalEmail(f.institutionalEmail, allowed) then Some(DomainRefused)
    else
      var linkedin := NormalizeLinkedin(f.linkedinUrl);
      if linkedin != "" && !HasHttpScheme(linkedin) then Some(InvalidLinkedin)
      else if f.file.Some? && f.file.value.mimetype != "application/pdf" then Some(NotPdf)
      else None
  }

  /** The errors come in a fixed order: missing fields, then a refused domain,
      then a CV that is not a PDF; the LinkedIn check never fires; and a form
      that passes all three checks is accepted. */
  lemma RegistrationErrorOrder(allowed: seq<string>, f: Registration)
    ensures RegistrationError(allowed, f) == Some(MissingFields) <==>
              !Truthy(f.name) || !Truthy(f.institutionalEmail)
    ensures RegistrationError(allowed, f) == Some(DomainRefused) <==>
              Truthy(f.name) && Truthy(f.institutionalEmail)
              && !IsAllowedInstitutionalEmail(f.institutionalEmail, allowed)
    ensures RegistrationError(allowed, f) != Some(InvalidLinkedin)
    ensures RegistrationError(allowed, f) == Some(NotPdf) <==>
              Truthy(f.name) && Truthy(f.institutionalEmail)
              && IsAllowedInstitutionalEmail(f.institutionalEmail, allowed)
              && f.file.Some? && f.file.value.mimetype != "application/pdf"
    ensures RegistrationError(allowed, f).None? <==>
              Truthy(f.name) && Truthy(f.institutionalEmail)
              && IsAllowedInstitutionalEmail(f.institutionalEmail, allowed)
              && (f.file.None? || f.file.value.mimetype == "application/pdf")
  {
    if Truthy(f.name) && Truthy(f.institutionalEmail) && IsAllowedInstitutionalEmail(f.institutionalEmail, allowed) {
      NormalizeLinkedinHasScheme(f.linkedinUrl);
      var linkedin := NormalizeLinkedin(f.linkedinUrl);
      assert !(linkedin != "" && !HasHttpScheme(linkedin));
      assert RegistrationError(allowed, f) ==
               if f.file.Some? && f.file.value.mimetype != "application/pdf" then Some(NotPdf) else None;
    }
  }

  /** The document the handler passes to `Student.create`. */
  function RegistrationFields(f: Registration, slug: string, token: string): StudentFields
    requires Truthy(f.name) && Truthy(f.institutionalEmail)
  {
    StudentFields(
      slug, token, Trim(f.name.value), NormalizeEmail(f.institutionalEmail.value),
      Some(NormalizeLinkedin(f.linkedinUrl)),
      match f.file
      case Some(u) => Some(Cv(u.buffer, u.mimetype, u.originalname, u.size))
      case None => None)
  }

  /** The student the schema makes of the handler's document: the setters
      change nothing more, and the only validator that can still fail is the
      one on a blank name. */
  lemma {:induction false} RegistrationCast(n: ObjectId, f: Registration, slug: string, token: string)
    requires Truthy(f.name) && Truthy(f.institutionalEmail) && slug != "" && token != ""
    requires !AllWhitespace(NormalizeEmail(f.institutionalEmail.value))
    ensures CastStudent(n, RegistrationFields(f, slug, token)) ==
              if AllWhitespace(f.name.value) then Err(ValidationFailed)
              else Ok(Student(n, slug, token, Trim(f.name.value), NormalizeEmail(f.institutionalEmail.value),
                              NormalizeLinkedin(f.linkedinUrl), RegistrationFields(f, slug, token).cv))
  {
    var fields := RegistrationFields(f, slug, token);
    NormalizeLinkedinSpec(f.linkedinUrl);
    if !AllWhitespace(f.name.value) {
      CastStudentKeepsNormalized(n, fields);
    }
  }

  /** With the name and an address that is not blank, the insert succeeds
      exactly when the name is not blank either and the slug is free. */
  lemma RegistrationAccepted(ss: seq<Student>, n: ObjectId, f: Registration, slug: string, token: string)
    requires Truthy(f.name) && Truthy(f.institutionalEmail) && slug != "" && token != ""
    requires !AllWhitespace(NormalizeEmail(f.institutionalEmail.value))
    ensures InsertStudent(ss, n, RegistrationFields(f, slug, token)).result.Ok? <==>
              !AllWhitespace(f.name.value) && FindStudentBySlug(ss, slug).None?
  {
    RegistrationCast(n, f, slug, token);
  }

  /** What a successful insert stores. */
  lemma RegistrationStored(ss: seq<Student>, n: ObjectId, f: Registration, slug: string, token: string)
    requires Truthy(f.name) && Truthy(f.institutionalEmail) && slug != "" && token != ""
    requires !AllWhitespace(NormalizeEmail(f.institutionalEmail.value))
    ensures var w := InsertStudent(ss, n, RegistrationFields(f, slug, token));
            w.result.Ok? ==> && w.rows == ss + [w.result.value]
                             && w.result.value == Student(n, slug, token, Trim(f.name.value),
                                                          NormalizeEmail(f.institutionalEmail.value),
                                                          NormalizeLinkedin(f.linkedinUrl),
                                                          RegistrationFields(f, slug, token).cv)
  {
    RegistrationCast(n, f, slug, token);
  }

  /** A form that passes the checks is stored with a trimmed name, the
      lower-cased and trimmed email and the normalised LinkedIn URL, unless
      the name is blank (the `required` validator throws) or the slug is
      already taken (the unique index throws). */
  lemma RegisteredStudent(ss: seq<Student>, n: ObjectId, allowed: seq<string>,
                          f: Registration, slug: string, token: string)
    requires Truthy(f.name) && Truthy(f.institutionalEmail) && slug != "" && token != ""
    requires IsAllowedInstitutionalEmail(f.institutionalEmail, allowed)
    ensures var w := InsertStudent(ss, n, RegistrationFields(f, slug, token));
            && (w.result.Ok? <==> !AllWhitespace(f.name.value) && FindStudentBySlug(ss, slug).None?)
            && (w.result.Ok? ==> && w.rows == ss + [w.result.value]
                                 && w.result.value == Student(n, slug, token, Trim(f.name.value),
                                                              NormalizeEmail(f.institutionalEmail.value),
                                                              NormalizeLinkedin(f.linkedinUrl),
                                                              RegistrationFields(f, slug, token).cv))
  {
    AllowedEmailNotBlank(f.institutionalEmail, allowed);
    RegistrationAccepted(ss, n, f, slug, token);
    RegistrationStored(ss, n, f, slug, token);
  }

  /** An address that passes the domain check is not blank once normalised. */
  lemma AllowedEmailNotBlank(email: Option<string>, allowed: seq<string>)
    requires IsAllowedInstitutionalEmail(email, allowed)
    ensures !AllWhitespace(NormalizeEmail(Or(email, "")))
  {
    var n := NormalizeEmail(Or(email, ""));
    assert n != [] && !IsWhitespace(n[0]);
  }

  /** How a registration ends once the checks have passed. */
  function RegistrationReply(r: Result<Student, DbError>, appBaseUrl: string): Response<Registered> {
    match r
    case Ok(s) => Success(201, Registered(s.slug, s.accessToken, PublicProfileUrl(appBaseUrl, s.slug),
                                          DashboardUrl(appBaseUrl, s.slug, s.accessToken)))
    case Err(_) => Thrown()
  }

  /** `POST /api/students`. A refused form changes nothing; an accepted one
      is handed to `Student.create`, whose failure becomes a 500. */
  method Register(db: Database, allowed: seq<string>, appBaseUrl: string, f: Registration,
                  slug: string, token: string) returns (resp: Response<Registered>)
    requires db.Valid()
    modifies db
    ensures db.Valid()
    ensures RegistrationError(allowed, f).Some? ==>
              resp == Failure(400, Message(RegistrationError(allowed, f).value, allowed)) && unchanged(db)
    ensures RegistrationError(allowed, f).None? ==>
              var w := InsertStudent(old(db.students), old(db.nextId), RegistrationFields(f, slug, token));
              && db.students == w.rows
              && resp == RegistrationReply(w.result, appBaseUrl)
    ensures db.companies == old(db.companies) && db.scans == old(db.scans)
  {
    var error := RegistrationError(allowed, f);
    if error.Some? {
      return Failure(400, Message(error.value, allowed));
    }
    var r := db.CreateStudent(RegistrationFields(f, slug, token));
    resp := RegistrationReply(r, appBaseUrl);
  }

  // ---------------------------------------------------------------------
  // GET /:slug and GET /:slug/cv

  datatype Profile = Profile(
    slug: string,
    name: string,
    institutionalEmail: string,
    linkedinUrl: string,
    hasCv: bool)

  const ProfileNotFound: string := "Perfil não encontrado"

  /** The profile as both student routes show it; `hasCv` is
      `Boolean(cv?.data)`, and a stored CV always has its buffer. */
  function ProfileOf(s: Student): (p: Profile)
    ensures p.hasCv <==> s.cv.Some?
  {
    Profile(s.slug, s.name, s.institutionalEmail, s.linkedinUrl, s.cv.Some?)
  }

  /** `GET /api/students/:slug`. */
  function PublicProfile(ss: seq<Student>, slug: string): (r: Response<Profile>)
    ensures r.Failure? <==> FindStudentBySlug(ss, slug).None?
    ensures r.Failure? ==> r.status == 404 && r.message == ProfileNotFound
    ensures r.Success? ==> r.status == 200 && r.body.slug == slug
    ensures r.Success? ==> r.body == ProfileOf(FindStudentBySlug(ss, slug).value)
  {
    match FindStudentBySlug(ss, slug)
    case None => Failure(404, ProfileNotFound)
    case Some(s) => Success(200, ProfileOf(s))
  }

  /** The body of `GET /:slug/cv` with its two headers. */
  datatype CvFile = CvFile(contentType: string, contentDisposition: string, data: seq<bv8>)

  /** `GET /api/students/:slug/cv`: 404 without a student or a CV; the type
      defaults to "application/pdf" and the file name to "<name>_CV.pdf". */
  function CvDownload(ss: seq<Student>, slug: string): (r: Response<CvFile>)
    ensures r.Failure? <==> FindStudentBySlug(ss, slug).None? || FindStudentBySlug(ss, slug).value.cv.None?
    ensures r.Failure? ==> r.status == 404 && r.message == "CV não encontrado"
    ensures r.Success? ==> var cv := FindStudentBySlug(ss, slug).value.cv.value;
                           && r.body.data == cv.data
                           && r.body.contentType == (if cv.contentType != "" then cv.contentType else "application/pdf")
    ensures r.Success? ==> var s := FindStudentBySlug(ss, slug).value;
                           var name := if s.cv.value.fileName != "" then s.cv.value.fileName else s.name + "_CV.pdf";
                           r.body.contentDisposition == "inline; filename=\"" + name + "\""
  {
    var found := FindStudentBySlug(ss, slug);
    if found.None? || found.value.cv.None? then Failure(404, "CV não encontrado")
    else
      var s := found.value;
      var cv := s.cv.value;
      var fileName := if cv.fileName != "" then cv.fileName else s.name + "_CV.pdf";
      Success(200, CvFile(if cv.contentType != "" then cv.contentType else "application/pdf",
                          "inline; filename=\"" + fileName + "\"", cv.data))
  }

  // ---------------------------------------------------------------------
  // GET /:slug/dashboard

  /** The company of a scan as the student sees it; the placeholder for a
      company that no longer exists has a null id and no logo or website. */
  datatype ScanCompany = ScanCompany(
    id: Option<ObjectId>,
    name: string,
    email: string,
    logoUrl: Option<string>,
    websiteUrl: Option<string>)

  const RemovedCompany: ScanCompany := ScanCompany(None, "Empresa removida", "", None, None)

  datatype StudentScanRow = StudentScanRow(id: ObjectId, scannedAt: int, company: ScanCompany)

  datatype StudentDashboard = StudentDashboard(
    student: Profile,
    publicProfileUrl: string,
    dashboardUrl: string,
    scans: seq<StudentScanRow>)

  const StudentScanLimit: nat := 500

  /** A company that still exists, as the student sees it. */
  function ShownCompany(c: Company): (r: ScanCompany)
    ensures r.id == Some(c.id) && r != RemovedCompany
  {
    ScanCompany(Some(c.id), c.name, c.email, Some(c.logoUrl), Some(c.websiteUrl))
  }

  /** `populate("company")` and the `map` of the response. */
  function CompanyRow(cs: seq<Company>, e: ScanEvent): (row: StudentScanRow)
    ensures row.id == e.id && row.scannedAt == e.scannedAt
    ensures row.company == RemovedCompany <==> FindCompanyById(cs, e.company).None?
    ensures FindCompanyById(cs, e.company).Some? ==>
              row.company.id == Some(e.company) && row.company == ShownCompany(FindCompanyById(cs, e.company).value)
  {
    var company := match FindCompanyById(cs, e.company)
      case None => RemovedCompany
      case Some(c) => ShownCompany(c);
    StudentScanRow(e.id, e.scannedAt, company)
  }

  function CompanyRows(cs: seq<Company>, es: seq<ScanEvent>): (rows: seq<StudentScanRow>)
    ensures |rows| == |es|
    ensures forall k :: 0 <= k < |es| ==> rows[k] == CompanyRow(cs, es[k])
  {
    if es == [] then [] else [CompanyRow(cs, es[0])] + CompanyRows(cs, es[1..])
  }

  /** `GET /api/students/:slug/dashboard?token=...`: the slug is looked up
      first (404), then the token must be present and equal to the stored
      one (403); only then are the scans read. */
  function StudentDashboardOf(ss: seq<Student>, cs: seq<Company>, es: seq<ScanEvent>,
                              appBaseUrl: string, slug: string, token: Option<string>)
    : Response<StudentDashboard>
  {
    match FindStudentBySlug(ss, slug)
    case None => Failure(404, ProfileNotFound)
    case Some(s) =>
      if !Truthy(token) || token.value != s.accessToken then Failure(403, "Acesso inválido")
      else
        Success(200, StudentDashboard(
          ProfileOf(s), PublicProfileUrl(appBaseUrl, s.slug),
          DashboardUrl(appBaseUrl, s.slug, s.accessToken),
          CompanyRows(cs, View(es, OfStudent(s.id), StudentScanLimit))))
  }

  /** The dashboard answers 404 for an unknown slug whatever the token, 403
      for a missing or wrong token, and otherwise 200 with the rows of the
      student's view of the ledger. */
  lemma StudentDashboardAccess(ss: seq<Student>, cs: seq<Company>, es: seq<ScanEvent>,
                               appBaseUrl: string, slug: string, token: Option<string>)
    ensures var r := StudentDashboardOf(ss, cs, es, appBaseUrl, slug, token);
            var found := FindStudentBySlug(ss, slug);
            && (found.None? <==> r == Failure(404, ProfileNotFound))
            && ((found.Some? && (!Truthy(token) || token.value != found.value.accessToken)) <==>
                  r == Failure(403, "Acesso inválido"))
            && (r.Success? ==> && found.Some? && token == Some(found.value.accessToken) && r.status == 200
                               && r.body.scans == CompanyRows(cs, View(es, OfStudent(found.value.id), StudentScanLimit)))
  {
  }

  /** The rows of a student's view: at most 500, only that student's events,
      each taken from the ledger, newest first, with the placeholder exactly
      where the company no longer exists. */
  lemma StudentRowsSpec(cs: seq<Company>, es: seq<ScanEvent>, student: ObjectId)
    ensures var v := View(es, OfStudent(student), StudentScanLimit);
            var rows := CompanyRows(cs, v);
            && |rows| == |v| && |rows| <= 500
            && (forall k :: 0 <= k < |rows| ==>
                  && rows[k].id == v[k].id && rows[k].scannedAt == v[k].scannedAt
                  && v[k].student == student && v[k] in es
                  && (rows[k].company == RemovedCompany <==> FindCompanyById(cs, v[k].company).None?)
                  && (FindCompanyById(cs, v[k].company).Some? ==>
                        rows[k].company == ShownCompany(FindCompanyById(cs, v[k].company).value)))
            && (forall i, j :: 0 <= i < j < |rows| ==> rows[i].scannedAt >= rows[j].scannedAt)
  {
    var v := View(es, OfStudent(student), StudentScanLimit);
    ViewBasics(es, OfStudent(student), StudentScanLimit);
    var rows := CompanyRows(cs, v);
    forall i, j | 0 <= i < j < |rows| ensures rows[i].scannedAt >= rows[j].scannedAt {
      assert rows[i].scannedAt == v[i].scannedAt && rows[j].scannedAt == v[j].scannedAt;
    }
  }

  // ---------------------------------------------------------------------
  // POST /:slug/scan

  /** The request headers the scan handler reads besides the token. */
  datatype ScanHeaders = ScanHeaders(
    forwardedFor: Option<string>,
    remoteAddress: Option<string>,
    userAgent: Option<string>)

  /** `x-forwarded-for || socket.remoteAddress || ""`. */
  function ClientAddress(h: ScanHeaders): string {
    if Truthy(h.forwardedFor) then h.forwardedFor.value else Or(h.remoteAddress, "")
  }

  /** The document the handler passes to `ScanEvent.create`. */
  function ScanOf(student: Student, company: Company, h: ScanHeaders): ScanFields {
    ScanFields(student.id, company.id, None, Some(ClientAddress(h)), Some(Or(h.userAgent, "")))
  }

  /** `POST /api/students/:slug/scan` behind `requireCompanyAuth`. A request
      the guard refuses gets its 401 and an unknown slug a 404, and neither
      writes; an accepted scan of a known student appends exactly one event
      naming the student and the authenticated company and keeps every
      earlier event. */
  method RecordScan(db: Database, req: Request, verify: string -> Option<Subject>,
                    slug: string, h: ScanHeaders, now: int) returns (resp: Response<string>)
    requires db.Valid()
    modifies db, req
    ensures db.Valid()
    ensures db.students == old(db.students) && db.companies == old(db.companies)
    ensures var d := Authenticate(req.authorization, verify, old(db.companies));
            var found := FindStudentBySlug(old(db.students), slug);
            && (d.Reject? ==> resp == Failure(401, d.message) && db.scans == old(db.scans))
            && (d.Admit? && found.None? ==> resp == Failure(404, ProfileNotFound) && db.scans == old(db.scans))
            && (d.Admit? && found.Some? ==>
                  && resp == Success(201, "Leitura registada")
                  && db.scans == old(db.scans) + [CastScan(old(db.nextId), ScanOf(found.value, d.company, h), now)])
  {
    var o := RequireCompanyAuth(req, verify, db);
    if o.Respond? {
      return Failure(o.status, o.message);
    }
    var found := FindStudentBySlug(db.students, slug);
    if found.None? {
      return Failure(404, ProfileNotFound);
    }
    var company := req.company.value;
    var _ := db.AppendScan(ScanOf(found.value, company, h), now);
    resp := Success(201, "Leitura registada");
  }

  /** The ledger keeps no pair unique: two accepted scans of the same student
      by the same company leave two more events in that student's list. */
  lemma ScanningTwiceRecordsTwice(es: seq<ScanEvent>, e1: ScanEvent, e2: ScanEvent)
    requires e1.student == e2.student && e1.company == e2.company
    ensures var p := OfStudent(e1.student);
            Where(es + [e1] + [e2], p) == Where(es, p) + [e1, e2]
  {
    var p := OfStudent(e1.student);
    WhereAppend(es, e1, p);
    WhereAppend(es + [e1], e2, p);
  }
}
