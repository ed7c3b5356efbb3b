/**
  server/src/routes/companyRoutes.js: provisioning a company with the setup
  key, the login of the default companies, and the two routes behind the
  bearer guard (`/me` and the company's dashboard).

  `bcrypt.hash`, `bcrypt.compare`, `jwt.sign`, the `hostname` of
  `new URL(...)` (`None` when the constructor throws) and
  `encodeURIComponent` are parameters.
 */
module CompanyRoutes {

  import opened Js
  import opened Text
  import opened Models
  import opened Store
  import opened Ledger
  import opened Http
  import opened Auth
  import opened LiteralPattern

  // ---------------------------------------------------------------------
  // Branding

  /** `normalizeWebsiteUrl`: an explicit URL is trimmed and, unless it
      already has an http(s) scheme in any case, put behind "https://";
      without one, the domain after the last "@" of the normalised email is
      put behind "https://", and an email without "@" after its first
      character gives "". */
  function NormalizeWebsiteUrl(websiteUrl: Option<string>, email: Option<string>): string {
    var trimmed := Trim(Or(websiteUrl, ""));
    if trimmed != "" then
      if HasHttpScheme(trimmed) then trimmed else "https://" + trimmed
    else WebsiteFromEmail(email)
  }

  /** The website `normalizeWebsiteUrl` derives from the email alone. */
  function WebsiteFromEmail(email: Option<string>): string {
    match AfterLast(NormalizeEmail(Or(email, "")), '@')
    case None => ""
    case Some(domain) => "https://" + domain
  }

  /** The website derived from a trimmed email is a trimmed URL with an
      http(s) scheme. */
  lemma DomainWebsiteShape(n: string)
    requires IsTrimmed(n) && AfterLast(n, '@').Some?
    ensures IsTrimmed("https://" + AfterLast(n, '@').value) && HasHttpScheme("https://" + AfterLast(n, '@').value)
  {
    var domain := AfterLast(n, '@').value;
    if domain != [] {
      assert domain[|domain| - 1] == n[|n| - 1];
    }
    HttpsTrimmed(domain);
  }

  /** The derived website is empty exactly when no explicit website is
      given and the email gives no domain. */
  lemma EmptyWebsiteHasNoDomain(websiteUrl: Option<string>, email: Option<string>)
    ensures NormalizeWebsiteUrl(websiteUrl, email) == "" <==>
              Trim(Or(websiteUrl, "")) == "" && AfterLast(NormalizeEmail(Or(email, "")), '@').None?
  {
    if Trim(Or(websiteUrl, "")) != "" {
      ExplicitWebsiteNotEmpty(websiteUrl, email);
    } else {
      WebsiteOnlyFromEmail(websiteUrl, email);
    }
  }

  /** An explicit website gives a non-empty result. */
  lemma ExplicitWebsiteNotEmpty(websiteUrl: Option<string>, email: Option<string>)
    requires Trim(Or(websiteUrl, "")) != ""
    ensures NormalizeWebsiteUrl(websiteUrl, email) != ""
  {
    var t := Trim(Or(websiteUrl, ""));
    if HasHttpScheme(t) {
      assert NormalizeWebsiteUrl(websiteUrl, email) == t;
    } else {
      assert NormalizeWebsiteUrl(websiteUrl, email) == "https://" + t;
    }
  }

  /** Without an explicit website the result comes from the email, and is
      empty exactly when the email gives no domain. */
  lemma WebsiteOnlyFromEmail(websiteUrl: Option<string>, email: Option<string>)
    requires Trim(Or(websiteUrl, "")) == ""
    ensures NormalizeWebsiteUrl(websiteUrl, email) == WebsiteFromEmail(email)
    ensures WebsiteFromEmail(email) == "" <==> AfterLast(NormalizeEmail(Or(email, "")), '@').None?
  {
  }

  /** A derived website is either empty or a trimmed URL with an http(s)
      scheme. */
  lemma WebsiteUrlShape(websiteUrl: Option<string>, email: Option<string>)
    ensures var r := NormalizeWebsiteUrl(websiteUrl, email);
            r == "" || (IsTrimmed(r) && HasHttpScheme(r))
  {
    var t := Trim(Or(websiteUrl, ""));
    if t != "" {
      ExplicitWebsiteShape(t);
    } else {
      EmailWebsiteShape(email);
    }
  }

  /** An explicit website, trimmed, keeps or gains an http(s) scheme and
      stays trimmed. */
  lemma ExplicitWebsiteShape(t: string)
    requires t != "" && IsTrimmed(t)
    ensures var r := if HasHttpScheme(t) then t else "https://" + t;
            IsTrimmed(r) && HasHttpScheme(r)
  {
    if !HasHttpScheme(t) {
      HttpsTrimmed(t);
    }
  }

  /** The website derived from an email is empty or a trimmed URL with an
      http(s) scheme. */
  lemma EmailWebsiteShape(email: Option<string>)
    ensures var r := WebsiteFromEmail(email);
            r == "" || (IsTrimmed(r) && HasHttpScheme(r))
  {
    var n := NormalizeEmail(Or(email, ""));
    if AfterLast(n, '@').Some? {
      DomainWebsiteShape(n);
    }
  }

  /** Deriving the website again from a derived website changes nothing,
      so the logo route, which derives it once more, sees the stored value. */
  lemma NormalizeWebsiteUrlIdempotent(websiteUrl: Option<string>, email: Option<string>)
    ensures NormalizeWebsiteUrl(Some(NormalizeWebsiteUrl(websiteUrl, email)), email) ==
            NormalizeWebsiteUrl(websiteUrl, email)
  {
    var r := NormalizeWebsiteUrl(websiteUrl, email);
    WebsiteUrlShape(websiteUrl, email);
    if r == "" {
      EmptyWebsiteHasNoDomain(websiteUrl, email);
      assert Trim(Or(Some(r), "")) == "";
    } else {
      assert Or(Some(r), "") == r;
      assert Trim(r) == r;
    }
  }

  /** `normalizeLogoUrl`: the trimmed explicit logo; else the clearbit logo
      of the website's host; else a generated avatar of the name, or of
      "Empresa" when there is no name. */
  function NormalizeLogoUrl(logoUrl: Option<string>, websiteUrl: Option<string>, email: Option<string>,
                            name: Option<string>, hostname: string -> Option<string>,
                            encode: string -> string): (r: string)
    ensures var t := Trim(Or(logoUrl, ""));
            var host := hostname(NormalizeWebsiteUrl(websiteUrl, email));
            && (t != "" ==> r == t)
            && (t == "" && host.Some? && host.value != "" ==> r == "https://logo.clearbit.com/" + host.value)
            && (t == "" && (host.None? || host.value == "") ==>
                  r == "https://ui-avatars.com/api/?name=" + encode(Or(name, "Empresa"))
                       + "&background=d34600&color=fff")
  {
    var trimmed := Trim(Or(logoUrl, ""));
    if trimmed != "" then trimmed
    else
      match hostname(NormalizeWebsiteUrl(websiteUrl, email))
      case Some(domain) =>
        if domain != "" then "https://logo.clearbit.com/" + domain
        else "https://ui-avatars.com/api/?name=" + encode(Or(name, "Empresa")) + "&background=d34600&color=fff"
      case None =>
        "https://ui-avatars.com/api/?name=" + encode(Or(name, "Empresa")) + "&background=d34600&color=fff"
  }

  /** The company as every company route shows it (`logoUrl || ""` and
      `websiteUrl || ""` on stored strings change nothing). */
  datatype CompanyView = CompanyView(id: ObjectId, name: string, email: string, logoUrl: string, websiteUrl: string)

  function ViewOf(c: Company): (v: CompanyView)
    ensures v.id == c.id && v.name == c.name && v.email == c.email
    ensures v.logoUrl == c.logoUrl && v.websiteUrl == c.websiteUrl
  {
    CompanyView(c.id, c.name, c.email, c.logoUrl, c.websiteUrl)
  }

  // ---------------------------------------------------------------------
  // POST /provision

  /** The JSON body of `/provision`. */
  datatype ProvisionBody = ProvisionBody(
    name: Option<string>,
    email: Option<string>,
    password: Option<string>,
    logoUrl: Option<string>,
    websiteUrl: Option<string>)

  /** The bcrypt cost the route asks for. */
  const BcryptRounds: nat := 10

  /** The guards before any lookup: the setup key (403), then the fields and
      the password length (400). */
  function ProvisionGuard(adminSetupKey: string, setupKey: Option<string>, b: ProvisionBody)
    : Option<Response<CompanyView>>
  {
    if !Truthy(setupKey) || setupKey.value != adminSetupKey then Some(Failure(403, "Não autorizado"))
    else if !Truthy(b.name) || !Truthy(b.email) || !Truthy(b.password) || |b.password.value| < 8 then
      Some(Failure(400, "Dados inválidos"))
    else None
  }

  /** The guard lets a request through exactly when it carries the setup key
      and a name, an email and a password of at least 8 characters; a wrong
      key is reported before bad fields. */
  lemma ProvisionGuardSpec(adminSetupKey: string, setupKey: Option<string>, b: ProvisionBody)
    ensures ProvisionGuard(adminSetupKey, setupKey, b).None? <==>
              && setupKey == Some(adminSetupKey) && adminSetupKey != ""
              && Truthy(b.name) && Truthy(b.email) && Truthy(b.password) && |b.password.value| >= 8
    ensures setupKey != Some(adminSetupKey) || adminSetupKey == "" ==>
              ProvisionGuard(adminSetupKey, setupKey, b) == Some(Failure(403, "Não autorizado"))
  {
  }

  /** The document `/provision` passes to `Company.create`: the email
      normalised, the name trimmed, the derived website and logo, the hash of
      the password, and neither `isDefaultLogin` nor `active`, which take
      their defaults. */
  function ProvisionFields(b: ProvisionBody, passwordHash: string, hostname: string -> Option<string>,
                           encode: string -> string): (f: CompanyFields)
    requires Truthy(b.name) && Truthy(b.email)
    ensures f.isDefaultLogin.None? && f.active.None?
  {
    var website := NormalizeWebsiteUrl(b.websiteUrl, b.email);
    CompanyFields(
      Trim(b.name.value), NormalizeEmail(b.email.value),
      Some(NormalizeLogoUrl(b.logoUrl, Some(website), b.email, b.name, hostname, encode)),
      Some(website), None, passwordHash, None)
  }

  /** How a provisioning ends once it reaches `Company.create`. */
  function ProvisionReply(r: Result<Company, DbError>): Response<CompanyView> {
    match r
    case Ok(c) => Success(201, ViewOf(c))
    case Err(_) => Thrown()
  }

  /** `POST /api/company/provision`. Nothing is written unless the guard
      passes and no company has the normalised email; then the company is
      created from `ProvisionFields`, and a failure of the insert is a 500. */
  method Provision(db: Database, adminSetupKey: string, setupKey: Option<string>, b: ProvisionBody,
                   hash: string -> string, hostname: string -> Option<string>, encode: string -> string)
    returns (resp: Response<CompanyView>)
    requires db.Valid()
    modifies db
    ensures db.Valid()
    ensures db.students == old(db.students) && db.scans == old(db.scans)
    ensures ProvisionGuard(adminSetupKey, setupKey, b).Some? ==>
              resp == ProvisionGuard(adminSetupKey, setupKey, b).value && unchanged(db)
    ensures ProvisionGuard(adminSetupKey, setupKey, b).None? &&
            FindCompanyByEmail(old(db.companies), NormalizeEmail(b.email.value)).Some? ==>
              resp == Failure(409, "Empresa já existe") && unchanged(db)
    ensures ProvisionGuard(adminSetupKey, setupKey, b).None? &&
            FindCompanyByEmail(old(db.companies), NormalizeEmail(b.email.value)).None? ==>
              var w := InsertCompany(old(db.companies), old(db.nextId),
                                     ProvisionFields(b, hash(b.password.value), hostname, encode));
              db.companies == w.rows && resp == ProvisionReply(w.result)
  {
    var guard := ProvisionGuard(adminSetupKey, setupKey, b);
    if guard.Some? {
      return guard.value;
    }
    if FindCompanyByEmail(db.companies, NormalizeEmail(b.email.value)).Some? {
      return Failure(409, "Empresa já existe");
    }
    var fields := ProvisionFields(b, hash(b.password.value), hostname, encode);
    var r := db.CreateCompany(fields);
    resp := ProvisionReply(r);
  }

  /** What a successful provisioning stores: one more company, at the end,
      with the normalised email, the trimmed name, the derived website, the
      derived logo as trimmed by the schema, the password hash, and
      `isDefaultLogin` false and `active` true. The insert fails only on a
      blank name or an empty hash. */
  lemma ProvisionedCompany(cs: seq<Company>, n: ObjectId, b: ProvisionBody, passwordHash: string,
                           hostname: string -> Option<string>, encode: string -> string)
    requires Truthy(b.name) && Truthy(b.email)
    requires FindCompanyByEmail(cs, NormalizeEmail(b.email.value)).None?
    ensures var w := InsertCompany(cs, n, ProvisionFields(b, passwordHash, hostname, encode));
            && (w.result.Ok? <==> !AllWhitespace(b.name.value) && !AllWhitespace(b.email.value) && passwordHash != "")
            && (w.result.Ok? ==>
                  var c := w.result.value;
                  var website := NormalizeWebsiteUrl(b.websiteUrl, b.email);
                  && w.rows == cs + [c]
                  && c == Company(n, Trim(b.name.value), NormalizeEmail(b.email.value),
                                  Trim(NormalizeLogoUrl(b.logoUrl, Some(website), b.email, b.name, hostname, encode)),
                                  website, false, passwordHash, true))
  {
    var f := ProvisionFields(b, passwordHash, hostname, encode);
    NormalizeEmailIdempotent(b.email.value);
    TrimKeepsBlankness(b.name.value);
    WebsiteUrlShape(b.websiteUrl, b.email);
    assert f.email == NormalizeEmail(b.email.value);
  }

  // ---------------------------------------------------------------------
  // POST /auth/login

  datatype LoginBody = LoginBody(name: Option<string>, password: Option<string>)

  datatype LoginReply = LoginReply(token: string, company: CompanyView)

  /** `Company.findOne({ name: { $regex: ^<escaped>$, $options: "i" },
      isDefaultLogin: true })`: the first default-login company whose name
      the anchored pattern matches. */
  function FindLoginCompany(cs: seq<Company>, name: string): (r: Option<Company>)
    ensures r.Some? ==> r.value in cs && r.value.isDefaultLogin
                        && MatchAnchoredIgnoreCase(LoginPattern(name), r.value.name) == Some(true)
    ensures r.None? <==> forall k :: 0 <= k < |cs| ==>
              !(cs[k].isDefaultLogin && MatchAnchoredIgnoreCase(LoginPattern(name), cs[k].name) == Some(true))
  {
    if cs == [] then None
    else if cs[0].isDefaultLogin && MatchAnchoredIgnoreCase(LoginPattern(name), cs[0].name) == Some(true) then
      Some(cs[0])
    else
      var r := FindLoginCompany(cs[1..], name);
      assert forall k :: 1 <= k < |cs| ==> cs[k] == cs[1..][k - 1];
      r
  }

  /** The lookup is a literal, case-insensitive comparison of names among the
      default-login companies: a company is found exactly when one of them
      has the name ignoring case, and what is found is one of them. */
  lemma FindLoginCompanySpec(cs: seq<Company>, name: string)
    ensures FindLoginCompany(cs, name).Some? ==>
              var c := FindLoginCompany(cs, name).value;
              c in cs && c.isDefaultLogin && EqualsIgnoreCase(name, c.name)
    ensures FindLoginCompany(cs, name).None? <==>
              forall k :: 0 <= k < |cs| ==> !(cs[k].isDefaultLogin && EqualsIgnoreCase(name, cs[k].name))
  {
    forall k | 0 <= k < |cs| {
      LoginPatternIsLiteral(name, cs[k].name);
    }
    if FindLoginCompany(cs, name).Some? {
      LoginPatternIsLiteral(name, FindLoginCompany(cs, name).value.name);
    }
  }

  /** A company that is not a default-login company is never found by the
      login, whatever name is typed. */
  lemma NonDefaultNeverFound(cs: seq<Company>, name: string, c: Company)
    requires !c.isDefaultLogin
    ensures FindLoginCompany(cs, name) != Some(c)
  {
  }

  /** `POST /api/company/auth/login`. */
  function Login(cs: seq<Company>, b: LoginBody, compare: (string, string) -> bool,
                 sign: ObjectId -> string): Response<LoginReply>
  {
    if !Truthy(b.name) || !Truthy(b.password) then Failure(400, "Credenciais inválidas")
    else
      match FindLoginCompany(cs, Trim(b.name.value))
      case None => Failure(401, "Login de empresa inválido")
      case Some(c) =>
        if !c.active then Failure(401, "Empresa inativa")
        else if !compare(b.password.value, c.passwordHash) then Failure(401, "Login de empresa inválido")
        else Success(200, LoginReply(sign(c.id), ViewOf(c)))
  }

  /** The only statuses are 400 (missing fields), 401 (no such company, an
      inactive one, or a wrong password) and 200; a token is issued exactly
      when a default-login company has the trimmed name ignoring case, is
      active and accepts the password, and it is signed for that company. */
  lemma LoginSpec(cs: seq<Company>, b: LoginBody, compare: (string, string) -> bool, sign: ObjectId -> string)
    ensures var r := Login(cs, b, compare, sign);
            && (r == Failure(400, "Credenciais inválidas") <==> !Truthy(b.name) || !Truthy(b.password))
            && (r.Failure? ==> r.status == 400 || r.status == 401)
            && (r.Success? <==>
                  && Truthy(b.name) && Truthy(b.password)
                  && FindLoginCompany(cs, Trim(b.name.value)).Some?
                  && FindLoginCompany(cs, Trim(b.name.value)).value.active
                  && compare(b.password.value, FindLoginCompany(cs, Trim(b.name.value)).value.passwordHash))
            && (r.Success? ==>
                  var c := FindLoginCompany(cs, Trim(b.name.value)).value;
                  && r.status == 200 && r.body.token == sign(c.id) && r.body.company == ViewOf(c)
                  && c in cs && c.isDefaultLogin && c.active && EqualsIgnoreCase(Trim(b.name.value), c.name))
  {
    if Truthy(b.name) {
      FindLoginCompanySpec(cs, Trim(b.name.value));
    }
  }

  /** A company created through `/provision` never logs in through
      `/auth/login`: it is stored with `isDefaultLogin` false, and the login
      only finds default-login companies, in any store and for any name. */
  lemma ProvisionedNeverLogsIn(cs: seq<Company>, n: ObjectId, b: ProvisionBody, passwordHash: string,
                               hostname: string -> Option<string>, encode: string -> string,
                               later: seq<Company>, name: string)
    requires Truthy(b.name) && Truthy(b.email)
    ensures var w := InsertCompany(cs, n, ProvisionFields(b, passwordHash, hostname, encode));
            w.result.Ok? ==> !w.result.value.isDefaultLogin && FindLoginCompany(later, name) != Some(w.result.value)
  {
  }

  // ---------------------------------------------------------------------
  // GET /me and GET /dashboard (behind requireCompanyAuth)

  /** `GET /api/company/me`. */
  method Me(db: Database, req: Request, verify: string -> Option<Subject>) returns (resp: Response<CompanyView>)
    modifies req
    ensures var d := Authenticate(req.authorization, verify, db.companies);
            && (d.Reject? ==> resp == Failure(401, d.message))
            && (d.Admit? ==> resp == Success(200, ViewOf(d.company)) && req.company == Some(d.company))
  {
    var o := RequireCompanyAuth(req, verify, db);
    if o.Respond? {
      return Failure(o.status, o.message);
    }
    resp := Success(200, ViewOf(req.company.value));
  }

  /** The student of a scan as the company sees it; `hasCv` is
      `Boolean(cv?.size)`, so a CV of size 0 does not count. */
  datatype StudentEntry = StudentEntry(
    id: ObjectId,
    name: string,
    institutionalEmail: string,
    slug: string,
    linkedinUrl: string,
    hasCv: bool)

  datatype CompanyScanRow = CompanyScanRow(id: ObjectId, scannedAt: int, student: Option<StudentEntry>)

  datatype CompanyDashboard = CompanyDashboard(company: CompanyView, scans: seq<CompanyScanRow>)

  const CompanyScanLimit: nat := 200

  /** A student that still exists, as the company sees it: `hasCv` needs a
      stored CV with a non-zero size. */
  function EntryOf(s: Student): (r: StudentEntry)
    ensures r.id == s.id && r.slug == s.slug && r.name == s.name
    ensures r.hasCv <==> s.cv.Some? && s.cv.value.size != 0
  {
    StudentEntry(s.id, s.name, s.institutionalEmail, s.slug, s.linkedinUrl, s.cv.Some? && s.cv.value.size != 0)
  }

  /** `populate("student")` and the `map` of the response; a student that no
      longer exists becomes `null`. */
  function StudentRow(ss: seq<Student>, e: ScanEvent): (row: CompanyScanRow)
    ensures row.id == e.id && row.scannedAt == e.scannedAt
    ensures row.student.None? <==> FindStudentById(ss, e.student).None?
    ensures row.student.Some? ==>
              var s := FindStudentById(ss, e.student).value;
              && row.student.value.id == e.student
              && row.student.value.hasCv == (s.cv.Some? && s.cv.value.size != 0)
              && row.student == Some(EntryOf(s))
  {
    var student := match FindStudentById(ss, e.student)
      case None => None
      case Some(s) => Some(EntryOf(s));
    CompanyScanRow(e.id, e.scannedAt, student)
  }

  function StudentRows(ss: seq<Student>, es: seq<ScanEvent>): (rows: seq<CompanyScanRow>)
    ensures |rows| == |es|
    ensures forall k :: 0 <= k < |es| ==> rows[k] == StudentRow(ss, es[k])
  {
    if es == [] then [] else [StudentRow(ss, es[0])] + StudentRows(ss, es[1..])
  }

  /** The dashboard of an authenticated company. */
  function CompanyDashboardOf(ss: seq<Student>, es: seq<ScanEvent>, c: Company): CompanyDashboard {
    CompanyDashboard(ViewOf(c), StudentRows(ss, View(es, OfCompany(c.id), CompanyScanLimit)))
  }

  /** The company's rows: at most 200, only its own events, each taken from
      the ledger, newest first, with `null` exactly where the student no
      longer exists. */
  lemma CompanyRowsSpec(ss: seq<Student>, es: seq<ScanEvent>, c: Company)
    ensures var v := View(es, OfCompany(c.id), CompanyScanLimit);
            var rows := CompanyDashboardOf(ss, es, c).scans;
            && |rows| == |v| && |rows| <= 200
            && (forall k :: 0 <= k < |rows| ==>
                  && rows[k].id == v[k].id && rows[k].scannedAt == v[k].scannedAt
                  && v[k].company == c.id && v[k] in es
                  && (rows[k].student.None? <==> FindStudentById(ss, v[k].student).None?)
                  && (FindStudentById(ss, v[k].student).Some? ==>
                        rows[k].student == Some(EntryOf(FindStudentById(ss, v[k].student).value))))
            && (forall i, j :: 0 <= i < j < |rows| ==> rows[i].scannedAt >= rows[j].scannedAt)
  {
    var v := View(es, OfCompany(c.id), CompanyScanLimit);
    ViewBasics(es, OfCompany(c.id), CompanyScanLimit);
    var rows := StudentRows(ss, v);
    forall i, j | 0 <= i < j < |rows| ensures rows[i].scannedAt >= rows[j].scannedAt {
      assert rows[i].scannedAt == v[i].scannedAt && rows[j].scannedAt == v[j].scannedAt;
    }
  }

  /** `GET /api/company/dashboard`: a 401 from the guard, or the dashboard of
      the company the token names. */
  method Dashboard(db: Database, req: Request, verify: string -> Option<Subject>)
    returns (resp: Response<CompanyDashboard>)
    modifies req
    ensures var d := Authenticate(req.authorization, verify, db.companies);
            && (d.Reject? ==> resp == Failure(401, d.message))
            && (d.Admit? ==> resp == Success(200, CompanyDashboardOf(db.students, db.scans, d.company)))
  {
    var o := RequireCompanyAuth(req, verify, db);
    if o.Respond? {
      return Failure(o.status, o.message);
    }
    resp := Success(200, CompanyDashboardOf(db.students, db.scans, req.company.value));
  }
}
