/**
  server/src/config.js: the settings read from the environment, each with a
  default, and the allow-list of institutional email domains.

  The reading of `process.env` is not modelled: the variables are passed in
  as an `Env`, with "" for a variable that is unset (JavaScript's `||` treats
  the two alike).
 */
module Config {

  import opened Js
  import opened Text

  datatype Env = Env(
    port: string,
    mongoUri: string,
    jwtSecret: string,
    jwtExpiresIn: string,
    adminSetupKey: string,
    appBaseUrl: string,
    allowedStudentEmailDomains: string)

  datatype Settings = Settings(
    port: int,
    mongoUri: string,
    jwtSecret: string,
    jwtExpiresIn: string,
    adminSetupKey: string,
    appBaseUrl: string,
    allowedStudentEmailDomains: seq<string>)

  const DefaultPort: int := 4000
  const DefaultMongoUri: string := "mongodb://127.0.0.1:27017/jornadas26"
  const DefaultJwtSecret: string := "dev-secret"
  const DefaultJwtExpiresIn: string := "8h"
  const DefaultAdminSetupKey: string := "setup-dev-key"
  const DefaultAppBaseUrl: string := "http://localhost:5173"
  const DefaultAllowedDomains: string := "isep.ipp.pt"

  /** `process.env.X || d`. */
  function OrDefault(value: string, d: string): string {
    if value != "" then value else d
  }

  /** `d.trim().toLowerCase()`. */
  function NormalizeDomain(part: string): (r: string)
    ensures IsTrimmed(r) && IsLower(r)
  {
    LowerTrimCommute(part);
    LowerIsLower(Trim(part));
    Lower(Trim(part))
  }

  function NormalizeAll(parts: seq<string>): (r: seq<string>)
    ensures |r| == |parts|
    ensures forall k :: 0 <= k < |parts| ==> r[k] == NormalizeDomain(parts[k])
    ensures forall k :: 0 <= k < |r| ==> IsTrimmed(r[k]) && IsLower(r[k])
  {
    if parts == [] then [] else [NormalizeDomain(parts[0])] + NormalizeAll(parts[1..])
  }

  /** `a` is `b` with some elements left out and the rest kept in order. */
  predicate IsSubsequence(a: seq<string>, b: seq<string>)
    decreases |b|
  {
    if a == [] then true
    else if b == [] then false
    else if a[0] == b[0] then IsSubsequence(a[1..], b[1..])
    else IsSubsequence(a, b[1..])
  }

  /** `.filter(Boolean)` on strings: drop the empty ones, keep the order. */
  function KeepNonEmpty(xs: seq<string>): (r: seq<string>)
    ensures |r| <= |xs|
    ensures forall k :: 0 <= k < |r| ==> r[k] != "" && r[k] in xs
    ensures forall x :: x in xs && x != "" ==> x in r
    ensures IsSubsequence(r, xs)
    ensures multiset(r) == multiset(xs)["" := 0]
    decreases |xs|
  {
    if xs == [] then []
    else
      var r := KeepNonEmpty(xs[1..]);
      assert xs == [xs[0]] + xs[1..];
      assert multiset(xs) == multiset{xs[0]} + multiset(xs[1..]);
      if xs[0] == "" then r
      else
        assert multiset([xs[0]] + r) == multiset{xs[0]} + multiset(r);
        assert ([xs[0]] + r)[1..] == r;
        [xs[0]] + r
  }

  /** The allow-list: the variable (or "isep.ipp.pt" when it is unset) split
      on ",", each part trimmed and lower-cased, empty parts removed. */
  function ParseAllowedDomains(value: string): (r: seq<string>)
    ensures forall k :: 0 <= k < |r| ==> r[k] != "" && IsTrimmed(r[k]) && IsLower(r[k])
    ensures |r| <= |Split(OrDefault(value, DefaultAllowedDomains), ',')|
    ensures IsSubsequence(r, NormalizeAll(Split(OrDefault(value, DefaultAllowedDomains), ',')))
  {
    var parts := NormalizeAll(Split(OrDefault(value, DefaultAllowedDomains), ','));
    KeptAreNormal(parts);
    KeepNonEmpty(parts)
  }

  lemma KeptAreNormal(parts: seq<string>)
    requires forall j :: 0 <= j < |parts| ==> IsTrimmed(parts[j]) && IsLower(parts[j])
    ensures forall k :: 0 <= k < |KeepNonEmpty(parts)| ==>
              IsTrimmed(KeepNonEmpty(parts)[k]) && IsLower(KeepNonEmpty(parts)[k])
  {
    var r := KeepNonEmpty(parts);
    forall k | 0 <= k < |r| ensures IsTrimmed(r[k]) && IsLower(r[k]) {
      var j :| 0 <= j < |parts| && parts[j] == r[k];
    }
  }

  /** The comma-separated parts of the variable, or of the default. */
  function DomainParts(value: string): seq<string> {
    Split(OrDefault(value, DefaultAllowedDomains), ',')
  }

  /** A domain is allowed exactly when it is not empty and is the normalised
      form of one of the comma-separated parts. */
  lemma {:induction false} AllowedDomainsMembership(value: string, d: string)
    ensures d in ParseAllowedDomains(value) <==> d != "" && d in NormalizeAll(DomainParts(value))
  {
    assert ParseAllowedDomains(value) == KeepNonEmpty(NormalizeAll(DomainParts(value)));
  }

  /** With the variable unset or empty the allow-list is exactly ["isep.ipp.pt"]. */
  lemma DefaultAllowList()
    ensures ParseAllowedDomains("") == ["isep.ipp.pt"]
  {
    var s := DefaultAllowedDomains;
    assert forall i :: 0 <= i < |s| ==> s[i] != ',';
    assert ',' !in s;
    assert IsTrimmed(s);
    assert IsLower(s);
    LowerOfLower(s);
    assert NormalizeDomain(s) == s;
    assert NormalizeAll([s]) == [s];
  }

  /** The whole configuration; `number` stands for JavaScript's `Number(...)`
      applied to the PORT variable. */
  function FromEnv(env: Env, number: string -> int): Settings {
    Settings(
      port := if env.port != "" then number(env.port) else DefaultPort,
      mongoUri := OrDefault(env.mongoUri, DefaultMongoUri),
      jwtSecret := OrDefault(env.jwtSecret, DefaultJwtSecret),
      jwtExpiresIn := OrDefault(env.jwtExpiresIn, DefaultJwtExpiresIn),
      adminSetupKey := OrDefault(env.adminSetupKey, DefaultAdminSetupKey),
      appBaseUrl := OrDefault(env.appBaseUrl, DefaultAppBaseUrl),
      allowedStudentEmailDomains := ParseAllowedDomains(env.allowedStudentEmailDomains))
  }

  /** The settings of an environment where nothing is set. */
  lemma EmptyEnvSettings(number: string -> int)
    ensures FromEnv(Env("", "", "", "", "", "", ""), number) ==
              Settings(4000, "mongodb://127.0.0.1:27017/jornadas26", "dev-secret",
                       "8h", "setup-dev-key", "http://localhost:5173", ["isep.ipp.pt"])
  {
    DefaultAllowList();
  }

  /** With nothing set, every setting takes its default, and the setup key,
      the token lifetime and the base URL are never empty whatever is set. */
  lemma Defaults(env: Env, number: string -> int)
    ensures env == Env("", "", "", "", "", "", "") ==>
      FromEnv(env, number) == Settings(4000, "mongodb://127.0.0.1:27017/jornadas26", "dev-secret",
                                       "8h", "setup-dev-key", "http://localhost:5173", ["isep.ipp.pt"])
    ensures FromEnv(env, number).adminSetupKey != ""
    ensures FromEnv(env, number).jwtExpiresIn != ""
    ensures FromEnv(env, number).appBaseUrl != ""
  {
    var st := FromEnv(env, number);
    assert st.adminSetupKey == OrDefault(env.adminSetupKey, DefaultAdminSetupKey);
    assert st.jwtExpiresIn == OrDefault(env.jwtExpiresIn, DefaultJwtExpiresIn);
    assert st.appBaseUrl == OrDefault(env.appBaseUrl, DefaultAppBaseUrl);
    if env == Env("", "", "", "", "", "", "") {
      EmptyEnvSettings(number);
    }
  }
}
