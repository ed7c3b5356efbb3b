/**
  The logic of client/src/App.jsx that does not draw anything: the company
  branding helpers, reading a profile QR code, the four-step registration
  wizard, the stored sessions and the choice of route.

  `new URL(...).pathname` (`None` when the constructor throws),
  `decodeURIComponent` (`None` when it throws a URIError),
  `encodeURIComponent` and `JSON.parse` are parameters; the network calls
  are represented by their outcome.
 */
module ClientApp {

  import opened Js
  import opened Text
  import opened CompanyRoutes
  import opened StudentRoutes

  // ---------------------------------------------------------------------
  // Company branding

  /** `getDomainFromEmail`: the text after the last "@" of the trimmed,
      lower-cased email. Trimming and lower-casing commute
      (`NormalizeEmailEitherOrder`). */
  function GetDomainFromEmail(email: Option<string>): string {
    DomainOf(NormalizeEmail(Or(email, "")))
  }

  /** The domain of a normalised address: "" when no "@" follows its first
      character, else the text after its last "@". */
  function DomainOf(n: string): (r: string)
    ensures '@' !in r
    ensures (forall i :: 1 <= i < |n| ==> n[i] != '@') ==> r == ""
    ensures (exists i :: 1 <= i < |n| && n[i] == '@') ==> |r| + 2 <= |n| && n[|n| - |r| - 1] == '@' && r == n[|n| - |r|..]
  {
    match AfterLast(n, '@')
    case None => ""
    case Some(d) => d
  }

  /** `getCompanyWebsite`: the trimmed explicit website, else "https://"
      followed by the email's domain, else "". */
  function GetCompanyWebsite(company: Option<CompanyView>): (r: string)
    ensures company.None? ==> r == ""
    ensures company.Some? && Trim(company.value.websiteUrl) != "" ==> r == Trim(company.value.websiteUrl)
    ensures company.Some? && Trim(company.value.websiteUrl) == "" ==>
              var d := GetDomainFromEmail(Some(company.value.email));
              r == if d == "" then "" else "https://" + d
  {
    match company
    case None => ""
    case Some(c) =>
      var explicit := Trim(c.websiteUrl);
      if explicit != "" then explicit
      else
        var domain := GetDomainFromEmail(Some(c.email));
        if domain != "" then "https://" + domain else ""
  }

  /** `getCompanyLogo`: the trimmed explicit logo, else the favicon of the
      email's domain, else an avatar of the name or of "Empresa". */
  function GetCompanyLogo(company: Option<CompanyView>, encode: string -> string): (r: string)
    ensures var explicit := if company.None? then "" else Trim(company.value.logoUrl);
            var domain := if company.None? then "" else GetDomainFromEmail(Some(company.value.email));
            var name := if company.None? || company.value.name == "" then "Empresa" else company.value.name;
            && (explicit != "" ==> r == explicit)
            && (explicit == "" && domain != "" ==>
                  r == "https://www.google.com/s2/favicons?sz=128&domain=" + encode(domain))
            && (explicit == "" && domain == "" ==>
                  r == "https://ui-avatars.com/api/?name=" + encode(name) + "&background=d34600&color=fff")
  {
    var explicit := if company.None? then "" else Trim(company.value.logoUrl);
    if explicit != "" then explicit
    else
      var domain := if company.None? then "" else GetDomainFromEmail(Some(company.value.email));
      if domain != "" then "https://www.google.com/s2/favicons?sz=128&domain=" + encode(domain)
      else
        var name := if company.None? || company.value.name == "" then "Empresa" else company.value.name;
        "https://ui-avatars.com/api/?name=" + encode(name) + "&background=d34600&color=fff"
  }

  /** The website the client shows for a company is the one the server
      stored when it provisioned it: a derived website is trimmed, and when
      it is empty the client finds no domain in the stored email either. */
  lemma ClientShowsStoredWebsite(websiteUrl: Option<string>, email: string, c: CompanyView)
    requires c.email == NormalizeEmail(email)
    requires c.websiteUrl == NormalizeWebsiteUrl(websiteUrl, Some(email))
    ensures GetCompanyWebsite(Some(c)) == c.websiteUrl
  {
    if c.websiteUrl == "" {
      NoStoredWebsite(websiteUrl, email, c);
    } else {
      WebsiteUrlShape(websiteUrl, Some(email));
      TrimmedWebsiteShown(c);
    }
  }

  lemma TrimmedWebsiteShown(c: CompanyView)
    requires c.websiteUrl != "" && IsTrimmed(c.websiteUrl)
    ensures GetCompanyWebsite(Some(c)) == c.websiteUrl
  {
    assert Trim(c.websiteUrl) == c.websiteUrl;
  }

  lemma NoStoredWebsite(websiteUrl: Option<string>, email: string, c: CompanyView)
    requires c.email == NormalizeEmail(email)
    requires c.websiteUrl == "" && NormalizeWebsiteUrl(websiteUrl, Some(email)) == ""
    ensures GetCompanyWebsite(Some(c)) == ""
  {
    StoredDomainIsEmpty(websiteUrl, email);
    StoredEmailDomain(email, c);
    EmptyWebsiteShown(c);
  }

  /** The client finds in a stored, normalised email the domain the server
      found in the email it was given. */
  lemma StoredEmailDomain(email: string, c: CompanyView)
    requires c.email == NormalizeEmail(email)
    ensures GetDomainFromEmail(Some(c.email)) == DomainOf(NormalizeEmail(email))
  {
    NormalizeEmailIdempotent(email);
    assert Or(Some(c.email), "") == c.email;
  }

  lemma EmptyWebsiteShown(c: CompanyView)
    requires c.websiteUrl == "" && GetDomainFromEmail(Some(c.email)) == ""
    ensures GetCompanyWebsite(Some(c)) == ""
  {
    assert Trim(c.websiteUrl) == "";
  }

  /** An empty derived website means the email has no domain. */
  lemma StoredDomainIsEmpty(websiteUrl: Option<string>, email: string)
    requires NormalizeWebsiteUrl(websiteUrl, Some(email)) == ""
    ensures DomainOf(NormalizeEmail(email)) == ""
  {
    assert Or(Some(email), "") == email;
    EmptyWebsiteHasNoDomain(websiteUrl, Some(email));
    assert AfterLast(NormalizeEmail(email), '@').None?;
  }

  // ---------------------------------------------------------------------
  // Paths

  /** `path.match(/^\/p\/([^/]+)$/)`: the segment of "/p/<segment>". */
  function ProfileSegment(path: string): Option<string> {
    if |path| > 3 && path[..3] == "/p/" && '/' !in path[3..] then Some(path[3..]) else None
  }

  /** The path matches exactly when it is "/p/" and a non-empty segment
      without "/", and the match is that segment. */
  lemma ProfileSegmentSpec(path: string)
    ensures ProfileSegment(path).Some? <==>
              exists seg :: seg != "" && '/' !in seg && path == "/p/" + seg
    ensures ProfileSegment(path).Some? ==> path == "/p/" + ProfileSegment(path).value
  {
    if ProfileSegment(path).Some? {
      assert path == "/p/" + path[3..];
    }
    if exists seg :: seg != "" && '/' !in seg && path == "/p/" + seg {
      var seg :| seg != "" && '/' !in seg && path == "/p/" + seg;
      assert path[3..] == seg;
    }
  }

  /** `path.match(/^\/student\/([^/]+)\/dashboard$/)`. */
  function DashboardSegment(path: string): Option<string> {
    if |path| > 19 && path[..9] == "/student/" && path[|path| - 10..] == "/dashboard" && '/' !in path[9..|path| - 10]
    then Some(path[9..|path| - 10])
    else None
  }

  /** The dashboard path of a segment without "/" gives that segment back. */
  lemma DashboardSegmentOf(seg: string)
    requires seg != "" && '/' !in seg
    ensures DashboardSegment("/student/" + seg + "/dashboard") == Some(seg)
  {
    var path := "/student/" + seg + "/dashboard";
    assert path[..9] == "/student/";
    assert path[|path| - 10..] == "/dashboard";
    assert path[9..|path| - 10] == seg;
  }

  /** A path with "/" only as a separator has no run of slashes to collapse
      and none at its end. */
  lemma ProfilePathIsNormal(seg: string)
    requires seg != "" && '/' !in seg
    ensures StripTrailingSlashes(CollapseSlashes("/p/" + seg)) == "/p/" + seg
  {
    var path := "/p/" + seg;
    forall i | 0 <= i < |path| - 1 ensures !(path[i] == '/' && path[i + 1] == '/') {
      if i >= 2 {
        assert path[i + 1] == seg[i - 2];
      }
    }
    assert path[|path| - 1] == seg[|seg| - 1];
  }

  // ---------------------------------------------------------------------
  // Reading a profile QR code

  /** `directMatch`: a text that is itself "/p/<segment>" after trimming.
      `None`: `decodeURIComponent` throws, outside any `try`. */
  function DirectSlug(raw: string, decode: string -> Option<string>): Option<string> {
    match ProfileSegment(Trim(raw))
    case None => Some("")
    case Some(seg) => decode(seg)
  }

  /** `extractSlugFromQr`. For a text that parses as a URL, runs of "/" in
      its path are collapsed and trailing "/" removed before the match; a
      text that does not parse, or whose segment does not decode, is matched
      as it is after trimming. "" is no profile; `None`: the function throws. */
  function ExtractSlugFromQr(raw: string, pathname: string -> Option<string>, decode: string -> Option<string>)
    : (r: Option<string>)
    ensures r.None? ==> ProfileSegment(Trim(raw)).Some? && decode(ProfileSegment(Trim(raw)).value).None?
    ensures pathname(raw).Some? && ProfileSegment(StripTrailingSlashes(CollapseSlashes(pathname(raw).value))).None? ==>
              r == Some("")
  {
    match pathname(raw)
    case None => DirectSlug(raw, decode)
    case Some(p) =>
      match ProfileSegment(StripTrailingSlashes(CollapseSlashes(p)))
      case None => Some("")
      case Some(seg) =>
        match decode(seg)
        case Some(slug) => Some(slug)
        case None => DirectSlug(raw, decode)
  }

  /** A slug comes only out of a profile path: either the URL's path or the
      trimmed text is "/p/<segment>", and the slug is the decoded segment. */
  lemma ExtractedSlugComesFromProfilePath(raw: string, pathname: string -> Option<string>,
                                          decode: string -> Option<string>)
    ensures var r := ExtractSlugFromQr(raw, pathname, decode);
            r.Some? && r.value != "" ==>
              || (exists seg :: pathname(raw).Some? &&
                    StripTrailingSlashes(CollapseSlashes(pathname(raw).value)) == "/p/" + seg &&
                    seg != "" && '/' !in seg && decode(seg) == r)
              || (exists seg :: Trim(raw) == "/p/" + seg && seg != "" && '/' !in seg && decode(seg) == r)
  {
    var r := ExtractSlugFromQr(raw, pathname, decode);
    if r.Some? && r.value != "" {
      if pathname(raw).Some? && ProfileSegment(StripTrailingSlashes(CollapseSlashes(pathname(raw).value))).Some? &&
         decode(ProfileSegment(StripTrailingSlashes(CollapseSlashes(pathname(raw).value))).value).Some? {
        var path := StripTrailingSlashes(CollapseSlashes(pathname(raw).value));
        ProfileSegmentSpec(path);
        var seg := ProfileSegment(path).value;
        assert path == "/p/" + seg && seg != "" && '/' !in seg && decode(seg) == r;
      } else {
        ProfileSegmentSpec(Trim(raw));
        var seg := ProfileSegment(Trim(raw)).value;
        assert Trim(raw) == "/p/" + seg && seg != "" && '/' !in seg && decode(seg) == r;
      }
    }
  }

  /** The QR code of a public profile, whose URL's path is "/p/" and the
      slug, reads back as the slug when the slug decodes to itself, as the
      slugs the server generates do. */
  lemma ProfileQrRoundTrip(appBaseUrl: string, slug: string, pathname: string -> Option<string>,
                           decode: string -> Option<string>)
    requires slug != "" && '/' !in slug && decode(slug) == Some(slug)
    requires pathname(PublicProfileUrl(appBaseUrl, slug)) == Some("/p/" + slug)
    ensures ExtractSlugFromQr(PublicProfileUrl(appBaseUrl, slug), pathname, decode) == Some(slug)
  {
    ProfilePathIsNormal(slug);
    ProfileSegmentSpec("/p/" + slug);
    assert ("/p/" + slug)[3..] == slug;
  }

  /** The text "/p/<slug>" on its own, which is no URL, also reads back
      when the slug has no white space for `trim` to take. */
  lemma DirectQrRoundTrip(slug: string, pathname: string -> Option<string>, decode: string -> Option<string>)
    requires slug != "" && '/' !in slug && HasNoWhitespace(slug) && decode(slug) == Some(slug)
    requires pathname("/p/" + slug).None?
    ensures ExtractSlugFromQr("/p/" + slug, pathname, decode) == Some(slug)
  {
    var raw := "/p/" + slug;
    assert raw[0] == '/' && raw[|raw| - 1] == slug[|slug| - 1];
    assert Trim(raw) == raw;
    assert raw[3..] == slug;
  }

  /** The company's scanner: the session token and what the scanner shows. */
  class CompanyScanner {
    var companyToken: string
    var scannerStatus: string
    var scannerOpen: bool

    constructor(token: string)
      ensures companyToken == token && scannerStatus == "A iniciar câmara..." && !scannerOpen
    {
      companyToken := token;
      scannerStatus := "A iniciar câmara...";
      scannerOpen := false;
    }

    /** `handleCompanyQrRead`. `outcome` is how `registerScan` and the
        dashboard refresh end: `None` when both succeed, else the message of
        the error. `requested` is the slug `registerScan` is called with:
        there is none without a token, and none for a code that is not a
        profile. */
    method HandleCompanyQrRead(raw: string, pathname: string -> Option<string>, decode: string -> Option<string>,
                               outcome: Option<string>)
      returns (requested: Option<string>)
      modifies this`scannerStatus, this`scannerOpen
      ensures companyToken == "" ==> requested.None? && unchanged(this)
      ensures companyToken != "" ==>
                var slug := ExtractSlugFromQr(raw, pathname, decode);
                && (slug.None? ==> requested.None? && unchanged(this))
                && (slug == Some("") ==> requested.None? && scannerStatus == "QR inválido para este evento."
                                         && scannerOpen == old(scannerOpen))
                && (slug.Some? && slug.value != "" ==> requested == slug)
      ensures requested.Some? && outcome.None? ==> scannerStatus == "Leitura registada com sucesso." && !scannerOpen
      ensures requested.Some? && outcome.Some? ==>
                scannerStatus == (if outcome.value == "" then "Erro ao registar leitura." else outcome.value)
                && scannerOpen == old(scannerOpen)
      ensures requested.None? || requested.value != ""
    {
      if companyToken == "" {
        return None;
      }
      var slug := ExtractSlugFromQr(raw, pathname, decode);
      if slug.None? {
        return None;
      }
      if slug.value == "" {
        scannerStatus := "QR inválido para este evento.";
        return None;
      }
      requested := slug;
      match outcome {
        case None =>
          scannerStatus := "Leitura registada com sucesso.";
          scannerOpen := false;
        case Some(message) =>
          scannerStatus := if message == "" then "Erro ao registar leitura." else message;
      }
    }
  }

  // ---------------------------------------------------------------------
  // The registration wizard

  const TotalSteps: int := 4

  /** A run of `[^\s@]+`. */
  predicate EmailPart(x: string) {
    x != "" && HasNoWhitespace(x) && '@' !in x
  }

  /** `/^[^\s@]+@[^\s@]+\.[^\s@]+$/`, written as the regular expression
      reads. */
  ghost predicate EmailShape(s: string) {
    exists local, host, tld ::
      s == local + "@" + host + "." + tld && EmailPart(local) && EmailPart(host) && EmailPart(tld)
  }

  /** The test the client runs: no white space, a single "@" that is not
      the first character, and a "." after it that is neither right after
      the "@" nor the last character. */
  predicate EmailPatternTest(s: string) {
    && HasNoWhitespace(s)
    && IndexOf(s, '@') > 0
    && '@' !in s[IndexOf(s, '@') + 1..]
    && exists i :: IndexOf(s, '@') + 1 < i < |s| - 1 && s[i] == '.'
  }

  /** One "@" placed: the part before it and the part after it. */
  lemma AtSplit(local: string, rest: string)
    requires '@' !in local && '@' !in rest
    ensures var s := local + "@" + rest;
            IndexOf(s, '@') == |local| && s[|local| + 1..] == rest
  {
    var s := local + "@" + rest;
    assert s[|local|] == '@' && s[..|local|] == local && s[|local| + 1..] == rest;
  }

  lemma SliceHasNoWhitespace(s: string, a: int, b: int)
    requires 0 <= a <= b <= |s| && HasNoWhitespace(s)
    ensures HasNoWhitespace(s[a..b])
  {
    forall k | 0 <= k < b - a ensures !IsWhitespace(s[a..b][k]) {
      assert s[a..b][k] == s[a + k];
    }
  }

  lemma ConcatHasNoWhitespace(a: string, b: string)
    requires HasNoWhitespace(a) && HasNoWhitespace(b)
    ensures HasNoWhitespace(a + b)
  {
    forall k | 0 <= k < |a + b| ensures !IsWhitespace((a + b)[k]) {
      if k >= |a| {
        assert (a + b)[k] == b[k - |a|];
      }
    }
  }

  /** A slice of an address with no white space, holding no "@", is a
      `[^\s@]+` run when it is not empty. */
  lemma SliceIsEmailPart(s: string, a: int, b: int)
    requires 0 <= a < b <= |s| && HasNoWhitespace(s) && '@' !in s[a..b]
    ensures EmailPart(s[a..b])
  {
    SliceHasNoWhitespace(s, a, b);
  }

  lemma NotInSlice(s: string, from: int, a: int, b: int, c: char)
    requires 0 <= from <= a <= b <= |s| && c !in s[from..]
    ensures c !in s[a..b]
  {
  }

  lemma EmailShapeFromTest(s: string)
    requires EmailPatternTest(s)
    ensures EmailShape(s)
  {
    var at := IndexOf(s, '@');
    var i :| at + 1 < i < |s| - 1 && s[i] == '.';
    ShapeFromSplit(s, at, i);
  }

  /** Cutting the address at its "@" and at a later "." gives the three runs. */
  lemma ShapeFromSplit(s: string, at: int, i: int)
    requires HasNoWhitespace(s)
    requires 0 < at && at + 1 < i < |s| - 1 && s[at] == '@' && s[i] == '.'
    requires '@' !in s[..at] && '@' !in s[at + 1..]
    ensures EmailShape(s)
  {
    assert s[0..at] == s[..at];
    SliceIsEmailPart(s, 0, at);
    NotInSlice(s, at + 1, at + 1, i, '@');
    SliceIsEmailPart(s, at + 1, i);
    NotInSlice(s, at + 1, i + 1, |s|, '@');
    SliceIsEmailPart(s, i + 1, |s|);
    EmailShapeOf(s[0..at], s[at + 1..i], s[i + 1..|s|]);
    assert s == s[0..at] + "@" + s[at + 1..i] + "." + s[i + 1..|s|];
  }

  lemma EmailShapeOf(local: string, host: string, tld: string)
    requires EmailPart(local) && EmailPart(host) && EmailPart(tld)
    ensures EmailShape(local + "@" + host + "." + tld)
  {
  }

  /** The three runs and the two separators carry no white space. */
  lemma ShapeHasNoWhitespace(local: string, host: string, tld: string)
    requires HasNoWhitespace(local) && HasNoWhitespace(host) && HasNoWhitespace(tld)
    ensures HasNoWhitespace(local + "@" + host + "." + tld)
  {
    assert HasNoWhitespace("@") && HasNoWhitespace(".");
    ConcatHasNoWhitespace(local, "@");
    ConcatHasNoWhitespace(local + "@", host);
    ConcatHasNoWhitespace(local + "@" + host, ".");
    ConcatHasNoWhitespace(local + "@" + host + ".", tld);
  }

  /** Where the "@" and the "." of `local@host.tld` are. */
  lemma ShapeSeparators(local: string, host: string, tld: string)
    requires local != "" && '@' !in local && '@' !in host && '@' !in tld
    ensures var s := local + "@" + host + "." + tld;
            && IndexOf(s, '@') == |local| && '@' !in s[|local| + 1..]
            && s[|local| + 1 + |host|] == '.'
  {
    var s := local + "@" + host + "." + tld;
    var rest := host + "." + tld;
    AtSplit(local, rest);
    assert s == local + "@" + rest;
  }

  lemma EmailTestFromShape(s: string)
    requires EmailShape(s)
    ensures EmailPatternTest(s)
  {
    var local, host, tld :| s == local + "@" + host + "." + tld && EmailPart(local) && EmailPart(host) && EmailPart(tld);
    ShapeHasNoWhitespace(local, host, tld);
    ShapeSeparators(local, host, tld);
    var i := |local| + 1 + |host|;
    assert s[i] == '.';
  }

  /** The client's test accepts exactly the strings the regular expression
      matches. */
  lemma EmailPatternTestSpec(s: string)
    ensures EmailPatternTest(s) <==> EmailShape(s)
  {
    if EmailPatternTest(s) {
      EmailShapeFromTest(s);
    }
    if EmailShape(s) {
      EmailTestFromShape(s);
    }
  }

  /** `getStepError`: the message that keeps the wizard on its step, or "".
      `cvType` is the MIME type of the chosen file, if any. */
  function StepError(step: int, name: string, institutionalEmail: string, cvType: Option<string>): string {
    if step == 1 && Trim(name) == "" then "Indique o seu nome completo."
    else if step == 2 && Trim(institutionalEmail) == "" then "Indique o email institucional."
    else if step == 2 && !EmailPatternTest(Trim(institutionalEmail)) then "Email inválido."
    else if step == 4 && cvType.Some? && cvType.value != "application/pdf" then "O CV deve estar em formato PDF."
    else ""
  }

  /** Step 1 passes exactly with a name that is not blank, step 2 exactly
      with a trimmed address the pattern accepts, step 4 exactly without a
      file or with a PDF, and every other step always passes. */
  lemma StepErrorSpec(step: int, name: string, institutionalEmail: string, cvType: Option<string>)
    ensures var r := StepError(step, name, institutionalEmail, cvType);
            && (r != "" ==> step == 1 || step == 2 || step == 4)
            && (step == 1 ==> (r == "" <==> !AllWhitespace(name)))
            && (step == 2 ==> (r == "" <==> EmailPatternTest(Trim(institutionalEmail))))
            && (step == 4 ==> (r == "" <==> cvType.None? || cvType.value == "application/pdf"))
  {
    if step == 1 {
      NameStepGate(name, institutionalEmail, cvType);
    } else if step == 2 {
      EmailStepGate(name, institutionalEmail, cvType);
    }
  }

  lemma NameStepGate(name: string, institutionalEmail: string, cvType: Option<string>)
    ensures StepError(1, name, institutionalEmail, cvType) == "" <==> !AllWhitespace(name)
  {
  }

  lemma EmailStepGate(name: string, institutionalEmail: string, cvType: Option<string>)
    ensures StepError(2, name, institutionalEmail, cvType) == "" <==> EmailPatternTest(Trim(institutionalEmail))
  {
    if Trim(institutionalEmail) == "" {
      assert !EmailPatternTest("");
    }
  }

  /** `Math.round(n / d)` for a non-negative `n` and a positive `d`. */
  function Round(n: nat, d: nat): (r: nat)
    requires d > 0
    ensures r * 2 * d <= 2 * n + d < (r + 1) * 2 * d
  {
    (2 * n + d) / (2 * d)
  }

  /** `progress`: the percentage of the wizard done. */
  function Progress(step: nat): nat {
    Round(step * 100, TotalSteps)
  }

  /** Each of the four steps is a quarter: 25, 50, 75 and 100 per cent. */
  lemma ProgressQuarters(step: nat)
    requires 1 <= step <= TotalSteps
    ensures Progress(step) == 25 * step
    ensures 25 <= Progress(step) <= 100
  {
  }

  /** The wizard's state: the step shown, the error shown and the fields
      typed so far. */
  class Wizard {
    var step: int
    var error: string
    var name: string
    var institutionalEmail: string
    var cvType: Option<string>

    ghost predicate Valid()
      reads this
    {
      1 <= step <= TotalSteps
    }

    constructor()
      ensures Valid() && step == 1 && error == "" && name == "" && institutionalEmail == "" && cvType.None?
    {
      step := 1;
      error := "";
      name := "";
      institutionalEmail := "";
      cvType := None;
    }

    /** The form's inputs. */
    method Edit(name': string, institutionalEmail': string, cvType': Option<string>)
      modifies this`name, this`institutionalEmail, this`cvType
      ensures name == name' && institutionalEmail == institutionalEmail' && cvType == cvType'
    {
      name := name';
      institutionalEmail := institutionalEmail';
      cvType := cvType';
    }

    /** `nextStep`: the step's error stops the wizard where it is; without
        one the error is cleared and the wizard moves on, never past the last
        step. */
    method NextStep()
      requires Valid()
      modifies this`step, this`error
      ensures Valid()
      ensures var e := StepError(old(step), name, institutionalEmail, cvType);
              && (e != "" ==> step == old(step) && error == e)
              && (e == "" ==> error == "" && step == (if old(step) < TotalSteps then old(step) + 1 else TotalSteps))
    {
      var validation := StepError(step, name, institutionalEmail, cvType);
      if validation != "" {
        error := validation;
      } else {
        error := "";
        step := if step + 1 < TotalSteps then step + 1 else TotalSteps;
      }
    }

    /** `previousStep`: back one step, never before the first, with the
        error cleared. */
    method PreviousStep()
      requires Valid()
      modifies this`step, this`error
      ensures Valid()
      ensures error == "" && step == (if old(step) > 1 then old(step) - 1 else 1)
    {
      error := "";
      step := if step - 1 > 1 then step - 1 else 1;
    }
  }

  /** The wizard only passes the e-mail step with an address of the shape
      `local@host.tld`, trimmed, and the name step with a name. */
  lemma WizardGates(name: string, institutionalEmail: string, cvType: Option<string>)
    ensures StepError(1, name, institutionalEmail, cvType) == "" <==> !AllWhitespace(name)
    ensures StepError(2, name, institutionalEmail, cvType) == "" <==> EmailShape(Trim(institutionalEmail))
    ensures StepError(3, name, institutionalEmail, cvType) == ""
  {
    StepErrorSpec(1, name, institutionalEmail, cvType);
    StepErrorSpec(2, name, institutionalEmail, cvType);
    EmailPatternTestSpec(Trim(institutionalEmail));
  }

  // ---------------------------------------------------------------------
  // Stored sessions and routes

  /** What the client keeps in `localStorage` for a student. */
  datatype StoredSession = StoredSession(slug: Option<string>, token: Option<string>, name: Option<string>)

  /** What it keeps for a company. */
  datatype StoredCompanySession = StoredCompanySession(token: Option<string>, company: Option<CompanyView>)

  /** `readStoredSession`: `raw` is the stored text, if any, and `parse` is
      `JSON.parse` (`None` when it throws or gives no object). */
  function ReadStoredSession(raw: Option<string>, parse: string -> Option<StoredSession>): (r: Option<StoredSession>)
    ensures r.Some? <==> Truthy(raw) && parse(raw.value).Some? && Truthy(parse(raw.value).value.slug)
                         && Truthy(parse(raw.value).value.token)
    ensures r.Some? ==> r == parse(raw.value)
  {
    if !Truthy(raw) then None
    else match parse(raw.value)
      case None => None
      case Some(s) => if !Truthy(s.slug) || !Truthy(s.token) then None else Some(s)
  }

  /** `readStoredCompanySession`: accepted with a token. */
  function ReadStoredCompanySession(raw: Option<string>, parse: string -> Option<StoredCompanySession>)
    : (r: Option<StoredCompanySession>)
    ensures r.Some? <==> Truthy(raw) && parse(raw.value).Some? && Truthy(parse(raw.value).value.token)
    ensures r.Some? ==> r == parse(raw.value)
  {
    if !Truthy(raw) then None
    else match parse(raw.value)
      case None => None
      case Some(s) => if !Truthy(s.token) then None else Some(s)
  }

  /** The dashboard's token: the one in the URL, else the stored one when
      the stored session is this student's, else "". */
  function DashboardToken(tokenFromUrl: Option<string>, stored: Option<StoredSession>, slug: string): string {
    Or(tokenFromUrl, if stored.Some? && stored.value.slug == Some(slug) then Or(stored.value.token, "") else "")
  }

  /** A token reaches a student's dashboard only from the URL or from that
      student's own stored session; another student's stored token never
      does, and an accepted session for the student always gives one. */
  lemma DashboardTokenSpec(tokenFromUrl: Option<string>, raw: Option<string>, parse: string -> Option<StoredSession>,
                           slug: string)
    ensures var stored := ReadStoredSession(raw, parse);
            var t := DashboardToken(tokenFromUrl, stored, slug);
            && (Truthy(tokenFromUrl) ==> t == tokenFromUrl.value)
            && (!Truthy(tokenFromUrl) && t != "" ==>
                  stored.Some? && stored.value.slug == Some(slug) && stored.value.token == Some(t))
            && (!Truthy(tokenFromUrl) && stored.Some? && stored.value.slug == Some(slug) ==> t != "")
  {
  }

  /** What the route effect settles on. */
  datatype Route =
    | CompanyHome(token: string, company: Option<CompanyView>)
    | PublicRoute(slug: string)
    | DashboardRoute(slug: string, token: string, rewriteUrl: bool)
    | ResumeDashboard(slug: string, token: string)
    | Landing
    | Unresolved

  /** `resolveRoute`, given the path, the `token` query parameter and the
      stored sessions as read. `rewriteUrl` is the `replaceState` that puts
      a stored token into the address; `Unresolved` is a segment that does
      not decode, which throws. */
  function ResolveRoute(pathname: string, tokenFromUrl: Option<string>, stored: Option<StoredSession>,
                        storedCompany: Option<StoredCompanySession>, decode: string -> Option<string>): (r: Route)
    ensures r.DashboardRoute? ==> r.token == DashboardToken(tokenFromUrl, stored, r.slug)
                                  && (r.rewriteUrl <==> !Truthy(tokenFromUrl) && r.token != "")
  {
    var stripped := StripTrailingSlashes(pathname);
    var path := if stripped == "" then "/" else stripped;
    if path == "/empresas" then
      match storedCompany
      case None => CompanyHome("", None)
      case Some(s) => CompanyHome(Or(s.token, ""), s.company)
    else if ProfileSegment(path).Some? then
      match decode(ProfileSegment(path).value)
      case None => Unresolved
      case Some(slug) => PublicRoute(slug)
    else if DashboardSegment(path).Some? then
      match decode(DashboardSegment(path).value)
      case None => Unresolved
      case Some(slug) =>
        var finalToken := DashboardToken(tokenFromUrl, stored, slug);
        DashboardRoute(slug, finalToken, !Truthy(tokenFromUrl) && finalToken != "")
    else if stored.Some? && Truthy(stored.value.slug) && Truthy(stored.value.token) then
      ResumeDashboard(stored.value.slug.value, stored.value.token.value)
    else Landing
  }

  /** The address `navigateToDashboard` writes leads back to the same
      dashboard with the same token, without another rewrite. */
  lemma DashboardAddressRoundTrip(slug: string, token: string, encode: string -> string,
                                  decode: string -> Option<string>, stored: Option<StoredSession>,
                                  storedCompany: Option<StoredCompanySession>)
    requires encode(slug) != "" && '/' !in encode(slug) && decode(encode(slug)) == Some(slug)
    requires token != ""
    ensures ResolveRoute("/student/" + encode(slug) + "/dashboard", Some(token), stored, storedCompany, decode) ==
            DashboardRoute(slug, token, false)
  {
    var path := "/student/" + encode(slug) + "/dashboard";
    DashboardSegmentOf(encode(slug));
    assert path[|path| - 1] == 'd';
    assert path[1] == 's';
  }
}
