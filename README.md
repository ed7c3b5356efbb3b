# Jornadas: student profiles, company scans and dashboards, in Dafny

The system runs a careers-fair event. A student registers a profile with an
institutional e-mail address, an optional LinkedIn URL and an optional PDF
CV. Registration gives the student:

- a public profile at `/p/<slug>`, shown as a QR code;
- a private dashboard reached with a secret access token.

Companies are provisioned by an administrator, or seeded as "default
login" accounts. A company logs in by name and password and scans students'
QR codes. Each scan appends one event to a ledger. The ledger is read back
two ways: the student sees which companies scanned them (newest first, at
most 500), and the company sees whom it scanned (newest first, at most 200).

The model covers the server's routes, guard, seeding script, configuration
and record schemas, and the browser client's pure helpers and state updates:

| file | module | models |
|---|---|---|
| js.dfy | `Js` | `Option`, `Result`, JavaScript truthiness of strings and `x \|\| d` |
| text.dfy | `Text` | `trim`, `toLowerCase`, `lastIndexOf`, `indexOf`, `split`, the slash-rewriting regular expressions |
| literal_pattern.dfy | `LiteralPattern` | the regular-expression escaping of the login lookup |
| config.dfy | `Config` | server/src/config.js |
| models.dfy | `Models` | the Student, Company and ScanEvent schemas: setters, defaults, `required` |
| store.dfy | `Store` | the three collections as a `Database` class, unique indexes, `create`, `findOneAndUpdate` |
| ledger.dfy | `Ledger` | `find` by party, `sort({ scannedAt: -1 })`, `limit(n)` |
| http.dfy | `Http` | responses, and the error handler's 500 |
| auth.dfy | `Auth` | server/src/middleware/auth.js |
| student_routes.dfy | `StudentRoutes` | server/src/routes/studentRoutes.js |
| company_routes.dfy | `CompanyRoutes` | server/src/routes/companyRoutes.js |
| seed_companies.dfy | `SeedCompanies` | server/src/scripts/seedCompanies.js |
| client_app.dfy | `ClientApp` | the logic of client/src/App.jsx |

## How the model is built

- Functions and lemmas model the pure code and state its properties. State
  changes are methods on classes:
  - the database, `Store.Database`, holds collections as sequences and a
    fresh-id counter;
  - the request object the guard fills in, `Auth.Request`;
  - the client's wizard, `ClientApp.Wizard`;
  - the client's scanner, `ClientApp.CompanyScanner`.
- Every method's `ensures` ties the new state to a function of the old state
  (`InsertStudent`, `InsertCompany`, `UpsertByEmail`, `SeedAll`,
  `StepError`). The lemmas next to those functions prove what the source
  promises about them.
- The collections are `seq`s in insertion order, so `findOne` is the first
  match.
- `_id`s come from a counter. `Database.Valid` keeps these invariants:
  - `slug` is unique among students;
  - `email` is unique among companies;
  - ids are distinct and below the counter;
  - every stored document went through the schema's setters.
- Everything outside the program is a parameter:
  - `nanoid` (the slug and token passed in);
  - `Date.now` (`now`);
  - `bcrypt.hash` / `bcrypt.compare` (`hash`, `compare`);
  - `jwt.sign` / `jwt.verify` (`sign`, `verify`, where `verify` gives `None`
    for a token that fails);
  - the WHATWG URL parser (`hostname`, `pathname`, with `None` where the
    constructor throws);
  - `encodeURIComponent` / `decodeURIComponent` (`encode`, `decode`, with
    `None` for a URIError);
  - `JSON.parse` (`parse`);
  - `Number` (`number`).
- A Mongoose write that fails validation or hits a unique index throws. The
  error handler (server/src/index.js, not part of this model) turns that
  into `Http.Thrown()`: status 500, "Erro interno".

Behaviours of the code that the model keeps as written:

- Registration does not retry when a generated slug collides. The insert
  throws and the answer is a 500.
- `accessToken` is indexed but not unique.
- A name of only blanks passes the handler's `!name` and is emptied by the
  schema's `trim`. The `required` validator then refuses it, so the answer
  is a 500.
- The student routes compute `hasCv` as `Boolean(cv.data)`, which is true
  for any stored CV. The company dashboard uses `Boolean(cv.size)`, which is
  false for a CV of size 0.
- `normalizeWebsiteUrl` gives "https://" for an address that ends in "@".
- `/provision` passes the untrimmed name to `normalizeLogoUrl`.
- The login looks up companies by name only, and only `isDefaultLogin`
  companies. A company made by `/provision` can never log in
  (`CompanyRoutes.ProvisionedNeverLogsIn`).
- The scan route answers 401 (guard) or 404 (unknown slug), never 400 or
  403.

## Model

| member | source | states |
|---|---|---|
| Js.Or | server/src/routes/companyRoutes.js:12 | `x \|\| d` on an optional string: the value when it is a non-empty string, else the default |
| Text.Trim | client/src/App.jsx:54 | `trim` leaves no white space at either end, changes nothing in a trimmed string, and is empty exactly for an all-white-space input |
| Text.TrimIsCore | client/src/App.jsx:54 | what `trim` returns is a slice of the input whose cut-off prefix and suffix are both white space; with the contract of `Trim` this fixes the result |
| Text.Lower | server/src/models/Student.js:8 | `lowercase: true` keeps the length and lower-cases each character in place |
| Text.LowerIsLower | server/src/models/Company.js:6 | a lower-cased string is lower-case, and lower-casing it again changes nothing |
| Text.TrimKeepsBlankness | server/src/routes/studentRoutes.js:27-28 | a string is blank exactly when its trimmed form is, and trimming twice is trimming once |
| Text.LowerTrimCommute | server/src/routes/companyRoutes.js:16 | lower-casing and trimming commute, so `toLowerCase().trim()` and `trim().toLowerCase()` agree |
| Text.NormalizeEmail | server/src/models/Company.js:6 | a normalised address is trimmed and lower-case, and empty exactly when the input was blank |
| Text.NormalizeEmailEitherOrder | client/src/App.jsx:54 | the client's `trim().toLowerCase()` and the server's `toLowerCase().trim()` normalise an address alike |
| Text.NormalizeEmailIdempotent | server/src/models/Student.js:8 | normalising an address a second time changes nothing |
| Text.LastIndexOf | server/src/routes/studentRoutes.js:19 | -1 exactly when the character is absent, else a position holding it with none after it |
| Text.IndexOf | client/src/App.jsx:384 | -1 exactly when the character is absent, else a position holding it with none before it |
| Text.AfterLast | server/src/routes/studentRoutes.js:19-21 | `None` exactly when no "@" follows the first character, else the suffix after the last "@", which holds no "@" |
| Text.Split | server/src/config.js:13 | `split(d)` gives at least one part, no part holds the separator, and a string without it is one part |
| Text.JoinSplit | server/src/config.js:13 | joining the parts of a split with the separator gives the string back |
| Text.SplitHead | server/src/middleware/auth.js:8 | the first part of a split is the text before the first separator, and there is a second part exactly when the separator occurs |
| Text.StartsWithIgnoresCase | server/src/routes/studentRoutes.js:29-59 | a string that starts with a prefix also passes the case-insensitive test for it |
| Text.StripTrailingSlashes | server/src/routes/studentRoutes.js:36 | `replace(/\/+$/, "")`: a prefix of the input that does not end in "/", and everything cut off is "/" |
| Text.CollapseSlashes | client/src/App.jsx:447 | `replace(/\/{2,}/g, "/")`: no "//" remains, a string without one is unchanged, and the first character is kept |
| Text.CollapseSlashesSpec | client/src/App.jsx:447 | the rewrite equals the reference `DropRepeatedSlashes`: every character is kept, in order, except each "/" right after another "/", so each run of slashes becomes one |
| Text.DropRepeatedFront | client/src/App.jsx:447 | the reference rewrite read from the front: a leading "//" loses one slash, any other first character is kept before the rewritten rest |
| LiteralPattern.Escape | server/src/routes/companyRoutes.js:82 | escaping adds at most one backslash per character, so the pattern is no shorter than the name and at most twice as long |
| LiteralPattern.LiteralOfEscape | server/src/routes/companyRoutes.js:82 | the escaped name, read as a pattern, stands for exactly the name |
| LiteralPattern.LoginPatternIsLiteral | server/src/routes/companyRoutes.js:81-84 | the anchored case-insensitive pattern `^<escaped>$` matches a stored name exactly when the two are equal ignoring case; metacharacters match literally |
| Config.NormalizeDomain | server/src/config.js:14 | each allow-list entry is trimmed and lower-case |
| Config.NormalizeAll | server/src/config.js:14 | `map` keeps one entry per part, in order, each the normalised part |
| Config.KeepNonEmpty | server/src/config.js:15 | `filter(Boolean)` keeps exactly the non-empty parts, in their order: a subsequence of the input whose multiset is the input's with every "" removed |
| Config.ParseAllowedDomains | server/src/config.js:12-15 | the allow-list is a subsequence of the normalised comma-separated parts: in order, none empty, each trimmed and lower-case, no more entries than parts |
| Config.AllowedDomainsMembership | server/src/config.js:12-15 | a domain is allowed exactly when it is non-empty and is a normalised part of the variable, or of "isep.ipp.pt" when the variable is unset |
| Config.DefaultAllowList | server/src/config.js:12 | with the variable unset or empty the allow-list is exactly ["isep.ipp.pt"] |
| Config.Defaults | server/src/config.js:6-11 | with nothing set: port 4000, `jwtExpiresIn` "8h", `appBaseUrl` "http://localhost:5173", `adminSetupKey` "setup-dev-key"; these three strings are never empty |
| Config.EmptyEnvSettings | server/src/config.js:5-16 | with no variable set the whole configuration is port 4000, the local MongoDB URI, "dev-secret", "8h", "setup-dev-key", "http://localhost:5173" and the allow-list ["isep.ipp.pt"] |
| Models.TrimmedOrEmpty | server/src/models/Company.js:7-8 | `default: ""` plus `trim: true` leaves a trimmed string |
| Models.CastStudent | server/src/models/Student.js:5-15 | a student document passes validation exactly when its slug, token, trimmed name and normalised address are non-empty; the stored student has the trimmed name, the normalised address, the trimmed LinkedIn URL or "", and the CV as given |
| Models.CastCompany | server/src/models/Company.js:5-11 | a company document passes validation exactly when name and email are not blank and the hash is non-empty; the stored company has the trimmed name, normalised email, trimmed branding or "", `isDefaultLogin` false and `active` true unless set |
| Models.CastScan | server/src/models/ScanEvent.js:5-9 | an event keeps its student and company references; `scannedAt` defaults to the time of the write, and the IP address and user agent to "" |
| Models.ApplyUpdate | server/src/scripts/seedCompanies.js:43-56 | a `$set` goes through the schema's setters: normalised email, trimmed strings, the given flags and hash |
| Models.CastStudentKeepsNormalized | server/src/models/Student.js:7-9 | the setters change nothing in a student document whose strings are already normalised |
| Models.CastCompanyKeepsNormalized | server/src/models/Company.js:5-8 | the setters change nothing in a company document whose strings are already normalised |
| Store.FindStudentBySlug | server/src/routes/studentRoutes.js:100 | `findOne({ slug })`: a stored student with that slug, or `None` exactly when there is none |
| Store.FindStudentById | server/src/routes/companyRoutes.js:127 | `populate("student")`: the student with that id, or `None` exactly when it no longer exists |
| Store.FindCompanyById | server/src/middleware/auth.js:15 | `findById`: the company with that id, or `None` exactly when there is none |
| Store.EmailIndex | server/src/scripts/seedCompanies.js:43-44 | the position of the first company with the email, or -1 exactly when there is none |
| Store.FindCompanyByEmail | server/src/routes/companyRoutes.js:50 | `findOne({ email })`: a company with that email, or `None` exactly when there is none |
| Store.FindStudentBySlugUnique | server/src/models/Student.js:5 | with unique slugs a lookup by a stored slug finds exactly that student |
| Store.FindCompanyByIdUnique | server/src/middleware/auth.js:15 | with distinct ids a lookup by a stored id finds exactly that company |
| Store.UpsertByEmailSpec | server/src/scripts/seedCompanies.js:43-57 | after an upsert: emails stay unique; exactly the company with the email carries the update; others keep their place and contents; an existing company keeps its id; the count grows by one exactly when the email was new |
| Store.UpsertKeepsPlaces | server/src/scripts/seedCompanies.js:43-57 | an upsert moves no company, keeps every id and email, touches only the company with the email, and leaves the email present |
| Store.UpsertByEmailTwice | server/src/scripts/seedCompanies.js:43-57 | a second upsert with the same email leaves exactly what the second alone would; repeating an upsert changes neither emails nor count |
| Store.AppendStudentValid | server/src/models/Student.js:5 | appending a well-formed student with a fresh id and a new slug keeps the students' invariant |
| Store.AppendCompanyValid | server/src/models/Company.js:6 | appending a well-formed company with a fresh id and a new email keeps the companies' invariant |
| Store.AppendScanValid | server/src/models/ScanEvent.js:3-12 | appending any event with a fresh id keeps the ledger's invariant; pairs need not be unique |
| Store.Upserted | server/src/scripts/seedCompanies.js:56 | `{ new: true }` returns the document as upserted: the update with the id it got |
| Store.UpsertCompanyValid | server/src/scripts/seedCompanies.js:43-57 | upserting a well-formed document keeps the companies' invariant |
| Store.InsertStudent | server/src/routes/studentRoutes.js:70-84 | `Student.create` succeeds exactly when validation passes and the slug is new, and then appends the cast student; a duplicate slug is a duplicate-key error; a failure writes nothing |
| Store.InsertCompany | server/src/routes/companyRoutes.js:57-63 | `Company.create` succeeds exactly when validation passes and the normalised email is new, and then appends one company; a failure writes nothing |
| Store.UpsertCompany | server/src/scripts/seedCompanies.js:43-57 | `findOneAndUpdate` with `upsert` always succeeds and returns the stored document, which is the update with its id |
| Store.Database.constructor | server/src/db.js:4-9 | an empty database satisfies the invariant |
| Store.Database.CreateStudent | server/src/routes/studentRoutes.js:70 | the students become `InsertStudent` of the old ones; nothing else changes; the invariant holds |
| Store.Database.CreateCompany | server/src/routes/companyRoutes.js:57 | the companies become `InsertCompany` of the old ones; nothing else changes; the invariant holds |
| Store.Database.AppendScan | server/src/routes/studentRoutes.js:185-190 | exactly one event is appended and earlier events are kept; students and companies are unchanged |
| Store.Database.UpsertCompanyByEmail | server/src/scripts/seedCompanies.js:43-57 | the companies become `UpsertByEmail` of the old ones and the stored document is returned; students and scans are unchanged |
| Ledger.Where | server/src/routes/studentRoutes.js:142 | `find({ student })` / `find({ company })`: only the party's events, each as often as in the ledger |
| Ledger.WhereAppend | server/src/routes/studentRoutes.js:185-190 | appending an event adds it to its own party's view only |
| Ledger.InsertionPoint | server/src/routes/studentRoutes.js:144 | an event goes after every event at least as new and before the first older one |
| Ledger.InsertKeepsOrder | server/src/routes/studentRoutes.js:144 | inserting at that point keeps a list newest first |
| Ledger.Insert | server/src/routes/studentRoutes.js:144 | inserting an event into a newest-first list keeps it newest first and adds exactly that event |
| Ledger.SortNewestFirst | server/src/routes/studentRoutes.js:144 | `sort({ scannedAt: -1 })`: newest first, and a permutation of its input |
| Ledger.Take | server/src/routes/studentRoutes.js:145 | `limit(n)`: the first `min(n, length)` events |
| Ledger.ViewSpec | server/src/routes/companyRoutes.js:126-129 | a view has at most `limit` events, as many as the party has up to the limit, newest first; no event left out is newer than one shown |
| Ledger.ViewBasics | server/src/routes/companyRoutes.js:126-129 | a view is within its limit, newest first, and holds only the party's events from the ledger |
| Ledger.ViewContents | server/src/routes/studentRoutes.js:142-145 | a view shows only the party's events, all from the ledger, and all of them when they fit under the limit |
| Http.Thrown | server/src/index.js:22-29 | a thrown write is answered 500 "Erro interno" |
| Auth.BearerToken | server/src/middleware/auth.js:7-10 | an accepted token is non-empty and holds no space |
| Auth.SplitFirst | server/src/middleware/auth.js:8 | the scheme is the text before the first space, or the whole header |
| Auth.BearerScheme | server/src/middleware/auth.js:8-10 | the scheme is exactly "Bearer" with a second part exactly when the header starts with "Bearer " |
| Auth.SchemeBeforeFirstSpace | server/src/middleware/auth.js:8 | a space at position i with none before it makes the scheme the first i characters |
| Auth.BearerTokenShape | server/src/middleware/auth.js:7-10 | a header is accepted exactly when it is "Bearer " and a non-space character; the token is the text up to the next space |
| Auth.Authenticate | server/src/middleware/auth.js:7-22 | an admitted company is stored and active |
| Auth.AuthenticateSpec | server/src/middleware/auth.js:7-22 | the guard admits company c exactly when the bearer token verifies to c's id and c is stored and active |
| Auth.RejectsWithoutBearer | server/src/middleware/auth.js:10-11 | without "Bearer " and a token the answer is "Não autenticado" whatever the verifier says |
| Auth.Request.constructor | server/src/middleware/auth.js:5 | a request starts with no company bound |
| Auth.RequireCompanyAuth | server/src/middleware/auth.js:5-26 | `next` is called exactly when the guard admits, with `req.company` set to the admitted company; otherwise the answer is 401 with the guard's message and `req.company` is unchanged |
| StudentRoutes.DomainAllowedSpec | server/src/routes/studentRoutes.js:17-23 | a normalised address is allowed exactly when it has a non-empty part, an "@", and a domain without "@" that is on the allow-list |
| StudentRoutes.RefusedWithoutLocalPart | server/src/routes/studentRoutes.js:19-20 | an address without "@" after its first character is refused |
| StudentRoutes.NormalizeLinkedinSpec | server/src/routes/studentRoutes.js:25-33 | "" exactly for a missing or blank value; a trimmed value with a scheme is kept; otherwise "https://" is prefixed; the result is trimmed |
| StudentRoutes.NormalizeLinkedinIdempotent | server/src/routes/studentRoutes.js:25-33 | normalising a normalised LinkedIn URL changes nothing |
| StudentRoutes.NormalizeLinkedinHasScheme | server/src/routes/studentRoutes.js:58-61 | every non-empty result passes `/^https?:\/\//i`, so the "LinkedIn inválido" answer is never given |
| StudentRoutes.UrlsIgnoreTrailingSlash | server/src/routes/studentRoutes.js:35-43 | the links ignore trailing "/" on the base; without one they are `base + "/p/" + slug` and `base + "/student/" + slug + "/dashboard?token=" + token` |
| StudentRoutes.RegistrationErrorOrder | server/src/routes/studentRoutes.js:48-65 | missing fields come first, then a refused domain, then a non-PDF CV; the LinkedIn error never occurs; no error exactly when all checks pass |
| StudentRoutes.RegistrationCast | server/src/routes/studentRoutes.js:70-84 | a blank name fails validation; otherwise the stored student has the trimmed name, the normalised address, the normalised LinkedIn URL, the CV, and the generated slug and token |
| StudentRoutes.RegistrationAccepted | server/src/routes/studentRoutes.js:70-84 | the insert succeeds exactly when the trimmed name is not empty and the slug is new |
| StudentRoutes.RegistrationStored | server/src/routes/studentRoutes.js:70-84 | a successful insert appends exactly that student |
| StudentRoutes.RegisteredStudent | server/src/routes/studentRoutes.js:52-84 | an allowed address is stored normalised, with a trimmed name, and its domain is on the allow-list |
| StudentRoutes.AllowedEmailNotBlank | server/src/routes/studentRoutes.js:17-23 | an address that passes the domain check is not blank |
| StudentRoutes.Register | server/src/routes/studentRoutes.js:45-97 | a refused form gets its 400 message and changes nothing; an accepted one stores `InsertStudent` of the form and answers with the links, or 500; companies and scans are unchanged |
| StudentRoutes.ProfileOf | server/src/routes/studentRoutes.js:107-113 | `hasCv` is true exactly when a CV is stored |
| StudentRoutes.PublicProfile | server/src/routes/studentRoutes.js:99-114 | 404 "Perfil não encontrado" exactly for an unknown slug, else 200 with the public profile (slug, name, address, LinkedIn URL, whether a CV is stored) of the student with that slug |
| StudentRoutes.CvDownload | server/src/routes/studentRoutes.js:116-128 | 404 "CV não encontrado" exactly when the student or the CV is missing; otherwise the stored bytes, sent with the stored content type or "application/pdf", inline, under the stored file name or `<name>_CV.pdf` |
| StudentRoutes.CompanyRow | server/src/routes/studentRoutes.js:163-175 | each row keeps the event's id and time; the placeholder `{null, "Empresa removida", ""}` appears exactly when the company is gone, and otherwise the company's id, name, email, logo and website |
| StudentRoutes.CompanyRows | server/src/routes/studentRoutes.js:163 | one row per event, in order |
| StudentRoutes.StudentDashboardAccess | server/src/routes/studentRoutes.js:130-145 | 404 exactly for an unknown slug, whatever the token; 403 exactly for a missing or wrong token; 200 only with the stored token, carrying the rows of the student's view |
| StudentRoutes.StudentRowsSpec | server/src/routes/studentRoutes.js:142-175 | at most 500 rows, only the student's events, all from the ledger, newest first, with the placeholder exactly where the company is gone and the company's fields elsewhere |
| StudentRoutes.RecordScan | server/src/routes/studentRoutes.js:179-193 | a guard refusal is a 401 and an unknown slug a 404, and neither writes; otherwise exactly one event for the student and the authenticated company is appended, the earlier ones are kept, and the answer is 201 |
| StudentRoutes.ScanningTwiceRecordsTwice | server/src/models/ScanEvent.js:3-12 | two scans of the same pair leave two more events in the student's list |
| CompanyRoutes.EmptyWebsiteHasNoDomain | server/src/routes/companyRoutes.js:11-20 | the derived website is "" exactly when the explicit value is missing or blank and the normalised email has no "@" after its first character |
| CompanyRoutes.ExplicitWebsiteShape | server/src/routes/companyRoutes.js:12-15 | a trimmed explicit value with an http(s) scheme in any case is kept, another gains "https://"; either way the result is trimmed and has the scheme |
| CompanyRoutes.EmailWebsiteShape | server/src/routes/companyRoutes.js:16-19 | the website derived from the email alone is "" or "https://" and a domain, trimmed |
| CompanyRoutes.WebsiteOnlyFromEmail | server/src/routes/companyRoutes.js:13-19 | without an explicit value the email alone decides the website, and it is "" exactly when the email gives no domain |
| Text.HttpsTrimmed | server/src/routes/companyRoutes.js:14 | "https://" before a value is a trimmed URL with a scheme |
| CompanyRoutes.DomainWebsiteShape | server/src/routes/companyRoutes.js:19 | the website derived from a domain is a trimmed URL with a scheme |
| CompanyRoutes.WebsiteUrlShape | server/src/routes/companyRoutes.js:11-20 | a derived website is "" or a trimmed URL with an http(s) scheme |
| CompanyRoutes.NormalizeWebsiteUrlIdempotent | server/src/routes/companyRoutes.js:11-20 | deriving the website from a derived website changes nothing |
| CompanyRoutes.NormalizeLogoUrl | server/src/routes/companyRoutes.js:22-37 | the trimmed explicit logo; else the clearbit logo of the website's host; else the ui-avatars URL of the name or "Empresa" |
| CompanyRoutes.ViewOf | server/src/routes/companyRoutes.js:65-71 | the view shows the company's id, name, email, logo and website |
| CompanyRoutes.ProvisionGuardSpec | server/src/routes/companyRoutes.js:40-48 | the request passes exactly with the right setup key, a name, an email and a password of at least 8 characters; a wrong or missing key is 403 before anything else |
| CompanyRoutes.ProvisionFields | server/src/routes/companyRoutes.js:57-63 | the document sets neither `isDefaultLogin` nor `active` |
| CompanyRoutes.Provision | server/src/routes/companyRoutes.js:39-72 | a guard failure or an existing normalised email (409 "Empresa já existe") changes nothing; otherwise the companies become `InsertCompany` of the document and the answer is 201 with the view, or 500 |
| CompanyRoutes.ProvisionedCompany | server/src/routes/companyRoutes.js:55-63 | the insert succeeds exactly for a non-blank name and email and a non-empty hash; it appends one company with the trimmed name, normalised email, derived branding, `isDefaultLogin` false and `active` true |
| CompanyRoutes.FindLoginCompany | server/src/routes/companyRoutes.js:80-84 | only a stored default-login company whose name matches the literal pattern is found; `None` exactly when none matches |
| CompanyRoutes.FindLoginCompanySpec | server/src/routes/companyRoutes.js:80-84 | the lookup finds a default-login company whose name equals the given name ignoring case, and fails exactly when there is none |
| CompanyRoutes.NonDefaultNeverFound | server/src/routes/companyRoutes.js:83 | a company that is not a default login is never found |
| CompanyRoutes.LoginSpec | server/src/routes/companyRoutes.js:74-113 | 400 exactly for a missing name or password; failures are only 400 or 401; success exactly when a default-login company has the trimmed name ignoring case, is active and accepts the password; the token is signed for that company's id and the reply carries that company's public fields |
| CompanyRoutes.ProvisionedNeverLogsIn | server/src/routes/companyRoutes.js:57-63 | a provisioned company is stored with `isDefaultLogin` false and is never found by the login, in any later store |
| CompanyRoutes.Me | server/src/routes/companyRoutes.js:115-123 | the guard's 401, or 200 with the admitted company's view |
| CompanyRoutes.StudentRow | server/src/routes/companyRoutes.js:139-152 | each row keeps the event's id and time; the student is `null` exactly when it is gone, and otherwise its id, name, address, slug and LinkedIn URL; `hasCv` is whether a CV of non-zero size is stored |
| CompanyRoutes.StudentRows | server/src/routes/companyRoutes.js:139 | one row per event, in order |
| CompanyRoutes.CompanyRowsSpec | server/src/routes/companyRoutes.js:125-153 | at most 200 rows, only the company's events, all from the ledger, newest first, `null` exactly where the student is gone and the student's fields elsewhere |
| CompanyRoutes.Dashboard | server/src/routes/companyRoutes.js:125-154 | the guard's 401, or 200 with the admitted company's view and rows |
| SeedCompanies.NormalizeSeedInputSpec | server/src/scripts/seedCompanies.js:31-39 | an input passes exactly with a non-blank email and name and a trimmed password of at least 8 characters; its values are the normalised email and the trimmed strings |
| SeedCompanies.SeedDocument | server/src/scripts/seedCompanies.js:43-55 | the `$set` document is well formed, carries the given strings and the password's hash, and has `isDefaultLogin` and `active` true |
| SeedCompanies.SeedValuesNormalized | server/src/scripts/seedCompanies.js:31-35 | the values that pass the guard are already normalised |
| SeedCompanies.DocumentOf | server/src/scripts/seedCompanies.js:43-57 | the document of a passing input is well formed, a default login and active, under the input's normalised email |
| SeedCompanies.DocumentOpt | server/src/scripts/seedCompanies.js:37-54 | no document exactly when the input fails the guard; a document is in the form the setters give and is an active default login |
| SeedCompanies.Documents | server/src/scripts/seedCompanies.js:65 | one document per input, in order |
| SeedCompanies.UpsertSeedCompany | server/src/scripts/seedCompanies.js:30-60 | a failing input throws and changes nothing; a passing one upserts its document by email and returns it; this is exactly one `SeedStep` |
| SeedCompanies.UpsertDocument | server/src/scripts/seedCompanies.js:43-59 | with no document nothing is written; with one, the upsert by email stores it under its email and returns it as stored; either way this is exactly one `SeedStep` |
| SeedCompanies.SeedStep | server/src/scripts/seedCompanies.js:65-69 | once failed nothing changes; a missing document fails the run; otherwise the document is upserted and the counter moves on |
| SeedCompanies.SeedAllFails | server/src/scripts/seedCompanies.js:65-69 | a run completes exactly when every input passes |
| SeedCompanies.SeedAllNext | server/src/scripts/seedCompanies.js:65 | one more input is one more step |
| SeedCompanies.SeedAfterFailure | server/src/scripts/seedCompanies.js:76-81 | after the first failure the remaining inputs change nothing |
| SeedCompanies.SeedEach | server/src/scripts/seedCompanies.js:65-69 | the loop leaves the companies and counter of `SeedAll` over the inputs, in order, stopping at the first failure, and reports whether it completed |
| SeedCompanies.Run | server/src/scripts/seedCompanies.js:62-74 | `run` is that loop over `DEFAULT_COMPANIES` |
| SeedCompanies.DefaultInputPasses | server/src/scripts/seedCompanies.js:37 | an input with non-blank email and name and the default password passes |
| SeedCompanies.DefaultsPass | server/src/scripts/seedCompanies.js:6-28 | all three default companies pass the guard |
| SeedCompanies.DefaultSeedCompletes | server/src/scripts/seedCompanies.js:65-69 | the seed of the defaults never stops early |
| SeedCompanies.SeedKeepsPlaces | server/src/scripts/seedCompanies.js:43-57 | a completed run keeps emails unique, never shrinks the collection, and keeps every existing company's place, id and email |
| SeedCompanies.SeedKeepsOthers | server/src/scripts/seedCompanies.js:43-55 | a company whose email no input has is left untouched |
| SeedCompanies.SeedHasEmails | server/src/scripts/seedCompanies.js:43-57 | after a completed run every input's email is present |
| SeedCompanies.SeedFlags | server/src/scripts/seedCompanies.js:51-53 | every company with an input's email is a default login and active |
| SeedCompanies.RerunAddsNothing | server/src/scripts/seedCompanies.js:43-57 | a run whose emails are all present adds no company |
| SeedCompanies.DefaultDocuments | server/src/scripts/seedCompanies.js:6-28 | the default documents all exist, are default logins and active |
| SeedCompanies.SeededAsDefaultLogins | server/src/scripts/seedCompanies.js:43-57 | after a run over passing documents, the company found under each document's email is a default login and active |
| SeedCompanies.DefaultsSeeded | server/src/scripts/seedCompanies.js:6-57 | after the seed, the company found under each default company's normalised email is a default login and active |
| SeedCompanies.RerunKeepsPlaces | server/src/scripts/seedCompanies.js:43-57 | a second run over the same emails keeps the count and every company's id and email |
| SeedCompanies.SeedTwice | server/src/scripts/seedCompanies.js:62-69 | running the seed again, with new hashes, leaves the same count, ids and emails |
| ClientApp.DomainOf | client/src/App.jsx:55-57 | "" when no "@" follows the first character, else the whole suffix after the last "@" (possibly empty), which holds no "@" |
| ClientApp.GetCompanyWebsite | client/src/App.jsx:60-65 | the trimmed explicit website; else "https://" and the email's domain; else "" |
| ClientApp.GetCompanyLogo | client/src/App.jsx:67-75 | the trimmed explicit logo; else a favicon URL of the encoded domain; else a ui-avatars URL of the encoded name or "Empresa" |
| ClientApp.ClientShowsStoredWebsite | client/src/App.jsx:60-65 | the website the client shows for a provisioned company is the one the server stored |
| ClientApp.ProfileSegmentSpec | client/src/App.jsx:448 | a path matches `/^\/p\/([^/]+)$/` exactly when it is "/p/" and a non-empty segment without "/", and the match is that segment |
| ClientApp.DashboardSegmentOf | client/src/App.jsx:171 | the dashboard path of a segment without "/" matches and gives the segment |
| ClientApp.ProfilePathIsNormal | client/src/App.jsx:447 | collapsing and stripping slashes leaves "/p/<slug>" as it is |
| ClientApp.ExtractSlugFromQr | client/src/App.jsx:444-455 | it throws only when a segment of the trimmed text does not decode; a parsed URL whose normalised path is not a profile path gives "" |
| ClientApp.ExtractedSlugComesFromProfilePath | client/src/App.jsx:444-455 | a non-empty slug is the decoded segment of a profile path, either the URL's normalised path or the trimmed text |
| ClientApp.ProfileQrRoundTrip | client/src/App.jsx:444-449 | the QR code of a public profile reads back as its slug |
| ClientApp.DirectQrRoundTrip | client/src/App.jsx:451-453 | the text "/p/<slug>", which is no URL, reads back as the slug |
| ClientApp.CompanyScanner.constructor | client/src/App.jsx:40 | the scanner starts showing "A iniciar câmara...", closed |
| ClientApp.CompanyScanner.HandleCompanyQrRead | client/src/App.jsx:457-475 | nothing happens without a token; a code that is no profile shows "QR inválido para este evento." and scans nothing; only a non-empty slug is scanned; success shows "Leitura registada com sucesso." and closes the scanner; failure shows the error's message or "Erro ao registar leitura." |
| ClientApp.EmailPatternTestSpec | client/src/App.jsx:384 | the client's test accepts exactly the strings `local@host.tld` with three non-empty runs free of white space and "@" |
| ClientApp.StepErrorSpec | client/src/App.jsx:379-393 | step 1 passes exactly with a non-blank name; step 2 exactly with a trimmed address passing the pattern; step 4 exactly without a file or with a PDF; other steps always pass |
| ClientApp.Round | client/src/App.jsx:51 | `Math.round(n / d)` is the integer nearest to n / d, halves rounding up |
| ClientApp.ProgressQuarters | client/src/App.jsx:51 | the progress of steps 1 to 4 is 25, 50, 75 and 100 |
| ClientApp.Wizard.constructor | client/src/App.jsx:26 | the wizard starts at step 1 with no error and empty fields |
| ClientApp.Wizard.Edit | client/src/App.jsx:46-49 | the inputs update the fields |
| ClientApp.Wizard.NextStep | client/src/App.jsx:395-403 | with a step error the step stays and the error is shown; otherwise the error clears and the step advances, never past 4 |
| ClientApp.Wizard.PreviousStep | client/src/App.jsx:405-408 | the error clears and the step goes back, never below 1 |
| ClientApp.WizardGates | client/src/App.jsx:379-393 | step 1 passes exactly with a non-blank name, step 2 exactly with a `local@host.tld` address, step 3 always |
| ClientApp.ReadStoredSession | client/src/App.jsx:77-87 | a stored student session is accepted exactly when it parses and has both a slug and a token |
| ClientApp.ReadStoredCompanySession | client/src/App.jsx:89-99 | a stored company session is accepted exactly when it parses and has a token |
| ClientApp.DashboardTokenSpec | client/src/App.jsx:173-176 | the dashboard token is the URL's when given; otherwise only the stored session of that same student supplies one, and it always does |
| ClientApp.ResolveRoute | client/src/App.jsx:153-197 | a dashboard route carries the selected token, and the address is rewritten exactly when the token came from storage |
| ClientApp.DashboardAddressRoundTrip | client/src/App.jsx:138-150 | the address of a dashboard leads back to the same slug and token, without a second rewrite |

## Left out

- MongoDB and Mongoose I/O, and the Express wiring: storage is the
  in-memory `Database`, and each handler is modelled by the response it
  decides. server/src/index.js and server/src/db.js are not part of this
  model.
- Multer's upload handling and its 4 MB limit: the uploaded file arrives as
  a value.
- The QR image (`QRCode.toDataURL`): foreign rendering, and the
  `qrCodeDataUrl` field is left out of the responses.
- Randomness, time and cryptography: `nanoid`, `Date.now`, `bcrypt` and
  `jwt` are parameters, so the model does not capture token expiry or the
  secret.
- The URL parser and URI coding are parameters. `ClientApp.ProfileQrRoundTrip`
  and `ClientApp.DirectQrRoundTrip` therefore assume what the parser gives
  for the profile URL, and that the slug decodes to itself.
- `Text.Lower` lower-cases ASCII letters only. Unicode case mapping is not
  modelled, and lengths count code points, not UTF-16 units.
- The order among events with equal `scannedAt` is left to the database in
  the source. The model fixes one (ties in reverse input order), and no
  property depends on it.
- Request bodies are taken as optional strings. A non-string field, which
  the source answers with 400 or 500 depending on the first check it
  reaches, is not modelled.
- client/src/api.js, the camera and `BarcodeDetector` loop, `scanLockRef`,
  timers, `localStorage` writes (`persistSession`,
  `persistCompanySession`, `clearCompanySession`), `window.history`, and
  all JSX rendering: browser I/O and display.
- `submitForm` is left out: it calls the network and only re-runs
  `getStepError`.
- The intermediate "A registar leitura..." status is overwritten before
  `handleCompanyQrRead` ends and is not modelled. The dashboard refresh is
  folded into `outcome`.
- `ClientApp.ReadStoredSession`: the stored JSON is taken as already
  decoded into optional strings. A stored non-string `slug` or `token` is
  not modelled.
- `ClientApp.ResolveRoute`: the effects of the route (setting React state,
  `replaceState`) are read off its result rather than performed.
- `ClientApp.ResolveRoute`: listening for `popstate` is not modelled.
- Console logging and `process.exit(1)` in the seed script are not
  modelled. A failing run is `ok == false` with the store as the failed
  step left it.
- The `timestamps` fields of the three schemas are not modelled. Neither is
  the non-unique index on `accessToken`, which has no effect on behaviour.
