/**
  server/src/scripts/seedCompanies.js: the default-login companies, upserted
  by email one after another. `bcrypt.hash` is a parameter; the connection,
  the console output and the process exit are not part of this model.
 */
module SeedCompanies {

  import opened Js
  import opened Text
  import opened Models
  import opened Store

  /** One entry of `DEFAULT_COMPANIES`, or any object the script is given. */
  datatype SeedInput = SeedInput(
    name: Option<string>,
    email: Option<string>,
    password: Option<string>,
    websiteUrl: Option<string>,
    logoUrl: Option<string>)

  /** The strings `upsertCompany` keeps after normalising its input. */
  datatype SeedValues = SeedValues(name: string, email: string, password: string, websiteUrl: string, logoUrl: string)

  const DefaultPassword := "empresa12345"

  const CriticalManufacturing := SeedInput(
    Some("Critical Manufacturing"), Some("rh@criticalmanufacturing.com"), Some(DefaultPassword),
    Some("https://share.google/NYqzLvmMglI0LOrPJ"),
    Some("https://www.ats-global.com/wp-content/uploads/2021/07/ATS_Partner_Critical_Manufacturing_logo.png"))

  const Bosch := SeedInput(
    Some("Bosch"), Some("talent@bosch.com"), Some(DefaultPassword),
    Some("https://share.google/ns99mSWHIyxiCS9WO"),
    Some("https://upload.wikimedia.org/wikipedia/commons/thumb/1/16/Bosch-logo.svg/1280px-Bosch-logo.svg.png"))

  const Blip := SeedInput(
    Some("Blip"), Some("careers@blip.pt"), Some(DefaultPassword),
    Some("https://share.google/o0vQrttlscsarizj3"),
    Some("https://custom-images.strikinglycdn.com/res/hrscywv4p/image/upload/c_limit,fl_lossy,h_1440,w_720,f_auto,q_auto/9310/20907_615624.png"))

  /** `DEFAULT_COMPANIES`, in the order the script upserts them. */
  const DefaultCompanies: seq<SeedInput> := [CriticalManufacturing, Bosch, Blip]

  /** The normalisation and the guard of `upsertCompany` (`None`: the
      script throws). */
  function NormalizeSeedInput(i: SeedInput): Option<SeedValues> {
    var email := NormalizeEmail(Or(i.email, ""));
    var name := Trim(Or(i.name, ""));
    var password := Trim(Or(i.password, ""));
    if email == "" || name == "" || |password| < 8 then None
    else Some(SeedValues(name, email, password, Trim(Or(i.websiteUrl, "")), Trim(Or(i.logoUrl, ""))))
  }

  /** An input passes exactly when its email and its name are not blank and
      its trimmed password has at least 8 characters; it then keeps the email
      lower-cased and trimmed and every other string trimmed (the password
      too). */
  lemma NormalizeSeedInputSpec(i: SeedInput)
    ensures var r := NormalizeSeedInput(i);
            && (r.Some? <==>
                  !AllWhitespace(Or(i.email, "")) && !AllWhitespace(Or(i.name, "")) && |Trim(Or(i.password, ""))| >= 8)
            && (r.Some? ==>
                  && r.value.email == NormalizeEmail(Or(i.email, "")) && r.value.name == Trim(Or(i.name, ""))
                  && r.value.password == Trim(Or(i.password, ""))
                  && r.value.websiteUrl == Trim(Or(i.websiteUrl, "")) && r.value.logoUrl == Trim(Or(i.logoUrl, "")))
  {
  }

  /** The document the `$set` writes: the normalised strings, the hash of the
      password, and `isDefaultLogin` and `active` both true. The schema's
      setters change none of the normalised strings. */
  function SeedDocument(v: SeedValues, hash: string -> string): (d: Company)
    requires IsTrimmed(v.name) && IsTrimmed(v.websiteUrl) && IsTrimmed(v.logoUrl)
    requires NormalizeEmail(v.email) == v.email
    ensures WellFormedCompany(d)
    ensures d.name == v.name && d.email == v.email && d.websiteUrl == v.websiteUrl && d.logoUrl == v.logoUrl
    ensures d.passwordHash == hash(v.password) && d.isDefaultLogin && d.active
  {
    ApplyUpdate(0, CompanyUpdate(v.name, v.email, v.websiteUrl, v.logoUrl, true, hash(v.password), true))
  }

  /** The values `NormalizeSeedInput` gives meet what `SeedDocument` asks. */
  lemma SeedValuesNormalized(i: SeedInput)
    requires NormalizeSeedInput(i).Some?
    ensures var v := NormalizeSeedInput(i).value;
            IsTrimmed(v.name) && IsTrimmed(v.websiteUrl) && IsTrimmed(v.logoUrl) && NormalizeEmail(v.email) == v.email
  {
    NormalizeEmailIdempotent(Or(i.email, ""));
  }

  /** The document written for an input that passes the guard. */
  function DocumentOf(i: SeedInput, hash: string -> string): (d: Company)
    requires NormalizeSeedInput(i).Some?
    ensures WellFormedCompany(d) && d.isDefaultLogin && d.active
    ensures d.email == SeedEmail(i)
  {
    SeedValuesNormalized(i);
    SeedDocument(NormalizeSeedInput(i).value, hash)
  }

  /** `upsertCompany`: `None` when it throws on a bad input, and then nothing
      is written; otherwise the upsert by email of the input's document. */
  method UpsertSeedCompany(db: Database, i: SeedInput, hash: string -> string) returns (r: Option<Company>)
    requires db.Valid()
    modifies db
    ensures db.Valid()
    ensures r.None? <==> DocumentOpt(i, hash).None?
    ensures r.None? ==> unchanged(db)
    ensures r.Some? ==>
              && Write(Ok(r.value), db.companies) == UpsertCompany(old(db.companies), old(db.nextId), DocumentOpt(i, hash).value)
              && db.nextId == old(db.nextId) + 1
    ensures var st := SeedStep(SeedState(old(db.companies), old(db.nextId), false), DocumentOpt(i, hash));
            (r.None? <==> st.failed) && db.companies == st.companies && db.nextId == st.nextId
    ensures unchanged(db`students, db`scans)
  {
    r := UpsertDocument(db, DocumentOpt(i, hash));
  }

  /** The write `upsertCompany` makes once its document is known. */
  method UpsertDocument(db: Database, d: Option<Company>) returns (r: Option<Company>)
    requires db.Valid() && (d.Some? ==> WellFormedCompany(d.value))
    modifies db
    ensures db.Valid()
    ensures r.None? <==> d.None?
    ensures r.None? ==> unchanged(db)
    ensures r.Some? ==>
              && Write(Ok(r.value), db.companies) == UpsertCompany(old(db.companies), old(db.nextId), d.value)
              && db.nextId == old(db.nextId) + 1
    ensures var st := SeedStep(SeedState(old(db.companies), old(db.nextId), false), d);
            (r.None? <==> st.failed) && db.companies == st.companies && db.nextId == st.nextId
    ensures unchanged(db`students, db`scans)
  {
    if d.None? {
      return None;
    }
    var c := db.UpsertCompanyByEmail(d.value);
    r := Some(c);
  }

  // ---------------------------------------------------------------------
  // The run, as a function on the companies collection

  /** The companies collection and the id counter as the script leaves them,
      and whether it stopped on a bad input. */
  datatype SeedState = SeedState(companies: seq<Company>, nextId: nat, failed: bool)

  /** What the guard makes of an input: its document, or `None` where the
      script throws. */
  function DocumentOpt(i: SeedInput, hash: string -> string): (d: Option<Company>)
    ensures d.None? <==> NormalizeSeedInput(i).None?
    ensures d.Some? ==> WellFormedCompany(d.value) && d.value.isDefaultLogin && d.value.active
  {
    if NormalizeSeedInput(i).None? then None else Some(DocumentOf(i, hash))
  }

  function Documents(inputs: seq<SeedInput>, hash: string -> string): (ds: seq<Option<Company>>)
    ensures |ds| == |inputs|
    ensures forall j :: 0 <= j < |inputs| ==> ds[j] == DocumentOpt(inputs[j], hash)
  {
    seq(|inputs|, j requires 0 <= j < |inputs| => DocumentOpt(inputs[j], hash))
  }

  /** One iteration: a document is upserted by email and takes an id; a
      missing one stops the run, and a stopped run does nothing more. */
  function SeedStep(st: SeedState, d: Option<Company>): (r: SeedState)
    ensures st.failed ==> r == st
    ensures !st.failed && d.None? ==> r == st.(failed := true)
    ensures !st.failed && d.Some? ==> r == SeedState(UpsertByEmail(st.companies, st.nextId, d.value), st.nextId + 1, false)
  {
    if st.failed then st
    else if d.None? then st.(failed := true)
    else SeedState(UpsertByEmail(st.companies, st.nextId, d.value), st.nextId + 1, false)
  }

  /** The documents processed in order. */
  function SeedAll(st: SeedState, ds: seq<Option<Company>>): SeedState {
    if ds == [] then st else SeedStep(SeedAll(st, ds[..|ds| - 1]), ds[|ds| - 1])
  }

  /** The run ends without failing exactly when every input passed the guard. */
  lemma {:induction false} SeedAllFails(st: SeedState, ds: seq<Option<Company>>)
    requires !st.failed
    ensures !SeedAll(st, ds).failed <==> forall j :: 0 <= j < |ds| ==> ds[j].Some?
  {
    if ds != [] {
      var init := ds[..|ds| - 1];
      SeedAllFails(st, init);
      assert forall j :: 0 <= j < |init| ==> init[j] == ds[j];
    }
  }

  /** One more document is one more step. */
  lemma SeedAllNext(st: SeedState, ds: seq<Option<Company>>, k: nat)
    requires k < |ds|
    ensures SeedAll(st, ds[..k + 1]) == SeedStep(SeedAll(st, ds[..k]), ds[k])
  {
    assert ds[..k + 1][..k] == ds[..k];
  }

  /** Once the run has failed, the later documents change nothing. */
  lemma {:induction false} SeedAfterFailure(st: SeedState, ds: seq<Option<Company>>, k: nat)
    requires k <= |ds| && SeedAll(st, ds[..k]).failed
    ensures SeedAll(st, ds) == SeedAll(st, ds[..k])
    decreases |ds| - k
  {
    if k < |ds| {
      assert ds[..k + 1][..k] == ds[..k];
      SeedAfterFailure(st, ds, k + 1);
    } else {
      assert ds[..k] == ds;
    }
  }

  /** The loop of `run` over a list of inputs. `ok` is false when an upsert
      threw, and the companies written before it stay. */
  method SeedEach(db: Database, inputs: seq<SeedInput>, hash: string -> string) returns (ok: bool)
    requires db.Valid()
    modifies db
    ensures db.Valid()
    ensures var st := SeedAll(SeedState(old(db.companies), old(db.nextId), false), Documents(inputs, hash));
            ok == !st.failed && db.companies == st.companies && db.nextId == st.nextId
    ensures unchanged(db`students, db`scans)
  {
    ghost var start := SeedState(db.companies, db.nextId, false);
    ghost var ds := Documents(inputs, hash);
    var k := 0;
    while k < |inputs|
      invariant 0 <= k <= |inputs|
      invariant db.Valid()
      invariant SeedAll(start, ds[..k]) == SeedState(db.companies, db.nextId, false)
      invariant unchanged(db`students, db`scans)
    {
      SeedAllNext(start, ds, k);
      var r := UpsertSeedCompany(db, inputs[k], hash);
      if r.None? {
        SeedAfterFailure(start, ds, k + 1);
        return false;
      }
      k := k + 1;
    }
    assert ds[..k] == ds;
    ok := true;
  }

  /** `run`: the seed of `DefaultCompanies`. */
  method Run(db: Database, hash: string -> string) returns (ok: bool)
    requires db.Valid()
    modifies db
    ensures db.Valid()
    ensures var st := SeedAll(SeedState(old(db.companies), old(db.nextId), false), Documents(DefaultCompanies, hash));
            ok == !st.failed && db.companies == st.companies && db.nextId == st.nextId
    ensures unchanged(db`students, db`scans)
  {
    ok := SeedEach(db, DefaultCompanies, hash);
  }

  /** An input with a non-blank email and name and the default password
      passes the guard. */
  lemma DefaultInputPasses(i: SeedInput)
    requires i.email.Some? && i.email.value != [] && !IsWhitespace(i.email.value[0])
    requires i.name.Some? && i.name.value != [] && !IsWhitespace(i.name.value[0])
    requires i.password == Some(DefaultPassword)
    ensures NormalizeSeedInput(i).Some?
  {
    var p := DefaultPassword;
    assert !IsWhitespace(p[0]) && !IsWhitespace(p[|p| - 1]);
    assert Trim(p) == p;
    assert NormalizeEmail(i.email.value) != [];
    assert Trim(i.name.value) != [];
  }

  /** Every default company passes the guard, so the run never stops early. */
  lemma DefaultsPass()
    ensures forall j :: 0 <= j < |DefaultCompanies| ==> NormalizeSeedInput(DefaultCompanies[j]).Some?
  {
    forall j | 0 <= j < |DefaultCompanies| ensures NormalizeSeedInput(DefaultCompanies[j]).Some? {
      var i := DefaultCompanies[j];
      if j == 0 {
        assert i.email.value[0] == 'r' && i.name.value[0] == 'C';
      } else if j == 1 {
        assert i.email.value[0] == 't' && i.name.value[0] == 'B';
      } else {
        assert i.email.value[0] == 'c' && i.name.value[0] == 'B';
      }
      DefaultInputPasses(i);
    }
  }

  /** The seed of the default companies always completes. */
  lemma DefaultSeedCompletes(st: SeedState, hash: string -> string)
    requires !st.failed
    ensures !SeedAll(st, Documents(DefaultCompanies, hash)).failed
  {
    DefaultsPass();
    SeedAllFails(st, Documents(DefaultCompanies, hash));
  }

  // ---------------------------------------------------------------------
  // What a run leaves

  /** The email an input is upserted under. */
  function SeedEmail(i: SeedInput): string {
    NormalizeEmail(Or(i.email, ""))
  }

  /** The emails a list of documents is upserted under. */
  predicate HasDocumentEmail(ds: seq<Option<Company>>, email: string) {
    exists j :: 0 <= j < |ds| && ds[j].Some? && ds[j].value.email == email
  }

  /** After a completed run the email index is still unique, and every
      company that was there keeps its place, its id and its email. */
  lemma {:induction false} SeedKeepsPlaces(st: SeedState, ds: seq<Option<Company>>)
    requires UniqueEmails(st.companies) && !st.failed && !SeedAll(st, ds).failed
    ensures var r := SeedAll(st, ds).companies;
            && UniqueEmails(r) && |st.companies| <= |r|
            && (forall k :: 0 <= k < |st.companies| ==>
                  r[k].id == st.companies[k].id && r[k].email == st.companies[k].email)
  {
    if ds != [] {
      var init := ds[..|ds| - 1];
      var prev := SeedAll(st, init);
      SeedAllFails(st, ds);
      SeedAllFails(st, init);
      assert forall j :: 0 <= j < |init| ==> init[j] == ds[j];
      SeedKeepsPlaces(st, init);
      var d := ds[|ds| - 1].value;
      UpsertByEmailSpec(prev.companies, prev.nextId, d);
      UpsertKeepsPlaces(prev.companies, prev.nextId, d);
    }
  }

  /** A company whose email no document has is left untouched. */
  lemma {:induction false} SeedKeepsOthers(st: SeedState, ds: seq<Option<Company>>)
    requires !st.failed && !SeedAll(st, ds).failed
    ensures var r := SeedAll(st, ds).companies;
            && |st.companies| <= |r|
            && forall k :: 0 <= k < |st.companies| && !HasDocumentEmail(ds, st.companies[k].email) ==>
                 r[k] == st.companies[k]
  {
    if ds != [] {
      var init := ds[..|ds| - 1];
      var prev := SeedAll(st, init);
      SeedAllFails(st, ds);
      SeedAllFails(st, init);
      SeedKeepsOthers(st, init);
      var d := ds[|ds| - 1].value;
      UpsertKeepsPlaces(prev.companies, prev.nextId, d);
      var r := SeedAll(st, ds).companies;
      forall k | 0 <= k < |st.companies| && !HasDocumentEmail(ds, st.companies[k].email)
        ensures r[k] == st.companies[k]
      {
        assert forall j :: 0 <= j < |init| ==> init[j] == ds[j];
        assert ds[|ds| - 1].Some? && ds[|ds| - 1].value.email == d.email;
      }
    }
  }

  /** After a completed run every document's email is present. */
  lemma {:induction false} SeedHasEmails(st: SeedState, ds: seq<Option<Company>>)
    requires !st.failed && !SeedAll(st, ds).failed
    ensures var r := SeedAll(st, ds).companies;
            forall j :: 0 <= j < |ds| && ds[j].Some? ==> FindCompanyByEmail(r, ds[j].value.email).Some?
  {
    if ds != [] {
      var init := ds[..|ds| - 1];
      var prev := SeedAll(st, init);
      SeedAllFails(st, ds);
      SeedAllFails(st, init);
      SeedHasEmails(st, init);
      assert forall j :: 0 <= j < |init| ==> init[j] == ds[j];
      EmailsStayPresent(prev.companies, prev.nextId, ds);
    }
  }

  /** The step of `SeedHasEmails`: the emails of the earlier documents stay
      present and the last document's email joins them. */
  lemma EmailsStayPresent(cs: seq<Company>, newId: ObjectId, ds: seq<Option<Company>>)
    requires ds != [] && ds[|ds| - 1].Some?
    requires forall j :: 0 <= j < |ds| - 1 && ds[j].Some? ==> FindCompanyByEmail(cs, ds[j].value.email).Some?
    ensures var r := UpsertByEmail(cs, newId, ds[|ds| - 1].value);
            forall j :: 0 <= j < |ds| && ds[j].Some? ==> FindCompanyByEmail(r, ds[j].value.email).Some?
  {
    var d := ds[|ds| - 1].value;
    UpsertKeepsPlaces(cs, newId, d);
    forall j | 0 <= j < |ds| - 1 && ds[j].Some?
      ensures FindCompanyByEmail(UpsertByEmail(cs, newId, d), ds[j].value.email).Some?
    {
      EmailStaysPresent(cs, newId, d, ds[j].value.email);
    }
  }

  /** An email present before an upsert is present after it. */
  lemma EmailStaysPresent(cs: seq<Company>, newId: ObjectId, c: Company, email: string)
    requires FindCompanyByEmail(cs, email).Some?
    ensures FindCompanyByEmail(UpsertByEmail(cs, newId, c), email).Some?
  {
    UpsertKeepsPlaces(cs, newId, c);
    var m := EmailIndex(cs, email);
    assert UpsertByEmail(cs, newId, c)[m].email == email;
  }

  /** The companies that have the email of a document carry the flags of
      that document when every document sets them, as the seed's do. */
  lemma {:induction false} SeedFlags(st: SeedState, ds: seq<Option<Company>>)
    requires UniqueEmails(st.companies) && !st.failed && !SeedAll(st, ds).failed
    requires forall j :: 0 <= j < |ds| && ds[j].Some? ==> ds[j].value.isDefaultLogin && ds[j].value.active
    ensures var r := SeedAll(st, ds).companies;
            forall k :: 0 <= k < |r| && HasDocumentEmail(ds, r[k].email) ==> r[k].isDefaultLogin && r[k].active
  {
    if ds != [] {
      var init := ds[..|ds| - 1];
      var prev := SeedAll(st, init);
      SeedAllFails(st, ds);
      SeedAllFails(st, init);
      assert forall j :: 0 <= j < |init| ==> init[j] == ds[j];
      SeedFlags(st, init);
      SeedKeepsPlaces(st, init);
      FlagsAfterUpsert(prev.companies, prev.nextId, ds);
    }
  }

  /** The step of `SeedFlags`. */
  lemma FlagsAfterUpsert(cs: seq<Company>, newId: ObjectId, ds: seq<Option<Company>>)
    requires UniqueEmails(cs) && ds != [] && ds[|ds| - 1].Some?
    requires ds[|ds| - 1].value.isDefaultLogin && ds[|ds| - 1].value.active
    requires forall k :: 0 <= k < |cs| && HasDocumentEmail(ds[..|ds| - 1], cs[k].email) ==>
               cs[k].isDefaultLogin && cs[k].active
    ensures var r := UpsertByEmail(cs, newId, ds[|ds| - 1].value);
            forall k :: 0 <= k < |r| && HasDocumentEmail(ds, r[k].email) ==> r[k].isDefaultLogin && r[k].active
  {
    var d := ds[|ds| - 1].value;
    var init := ds[..|ds| - 1];
    UpsertByEmailSpec(cs, newId, d);
    var r := UpsertByEmail(cs, newId, d);
    forall k | 0 <= k < |r| && HasDocumentEmail(ds, r[k].email) ensures r[k].isDefaultLogin && r[k].active {
      if r[k].email != d.email {
        var j :| 0 <= j < |ds| && ds[j].Some? && ds[j].value.email == r[k].email;
        assert j < |init| && init[j] == ds[j];
        assert k < |cs| && r[k] == cs[k];
      }
    }
  }

  /** A run whose every document's email is already present adds no company. */
  lemma {:induction false} RerunAddsNothing(st: SeedState, ds: seq<Option<Company>>)
    requires UniqueEmails(st.companies) && !st.failed && !SeedAll(st, ds).failed
    requires forall j :: 0 <= j < |ds| && ds[j].Some? ==> FindCompanyByEmail(st.companies, ds[j].value.email).Some?
    ensures |SeedAll(st, ds).companies| == |st.companies|
  {
    if ds != [] {
      var init := ds[..|ds| - 1];
      var prev := SeedAll(st, init);
      SeedAllFails(st, ds);
      SeedAllFails(st, init);
      assert forall j :: 0 <= j < |init| ==> init[j] == ds[j];
      RerunAddsNothing(st, init);
      SeedKeepsPlaces(st, init);
      var d := ds[|ds| - 1].value;
      UpsertKeepsPlaces(prev.companies, prev.nextId, d);
      var m := EmailIndex(st.companies, d.email);
      assert prev.companies[m].email == d.email;
    }
  }

  /** The default documents: all present, all default logins and active,
      each under its input's normalised email. */
  lemma DefaultDocuments(hash: string -> string)
    ensures var ds := Documents(DefaultCompanies, hash);
            forall j :: 0 <= j < |ds| ==>
              && ds[j].Some? && ds[j].value.isDefaultLogin && ds[j].value.active
              && ds[j].value.email == SeedEmail(DefaultCompanies[j])
  {
    DefaultsPass();
  }

  /** After a completed run every document's email is present, on a
      default-login, active company, when every document is one. */
  lemma {:induction false} SeededAsDefaultLogins(st: SeedState, ds: seq<Option<Company>>)
    requires UniqueEmails(st.companies) && !st.failed
    requires forall j :: 0 <= j < |ds| ==> ds[j].Some? && ds[j].value.isDefaultLogin && ds[j].value.active
    ensures var r := SeedAll(st, ds).companies;
            forall j :: 0 <= j < |ds| ==>
              var c := FindCompanyByEmail(r, ds[j].value.email);
              c.Some? && c.value.isDefaultLogin && c.value.active
  {
    SeedAllFails(st, ds);
    SeedHasEmails(st, ds);
    SeedFlags(st, ds);
    var r := SeedAll(st, ds).companies;
    forall j | 0 <= j < |ds|
      ensures var c := FindCompanyByEmail(r, ds[j].value.email);
              c.Some? && c.value.isDefaultLogin && c.value.active
    {
      var m := EmailIndex(r, ds[j].value.email);
      assert HasDocumentEmail(ds, r[m].email);
    }
  }

  /** After the seed every default company's email is present, as a
      default-login, active company. */
  lemma DefaultsSeeded(st: SeedState, hash: string -> string)
    requires UniqueEmails(st.companies) && !st.failed
    ensures var r := SeedAll(st, Documents(DefaultCompanies, hash)).companies;
            forall j :: 0 <= j < |DefaultCompanies| ==>
              var c := FindCompanyByEmail(r, SeedEmail(DefaultCompanies[j]));
              c.Some? && c.value.isDefaultLogin && c.value.active
  {
    DefaultDocuments(hash);
    SeededAsDefaultLogins(st, Documents(DefaultCompanies, hash));
  }

  /** A second run over documents with the same emails as a first, completed
      run adds no company and moves none. */
  lemma {:induction false} RerunKeepsPlaces(st: SeedState, d1: seq<Option<Company>>, d2: seq<Option<Company>>)
    requires UniqueEmails(st.companies) && !st.failed
    requires |d1| == |d2|
    requires forall j :: 0 <= j < |d1| ==> d1[j].Some? && d2[j].Some? && d1[j].value.email == d2[j].value.email
    ensures var once := SeedAll(st, d1);
            var twice := SeedAll(once, d2);
            && !once.failed && !twice.failed
            && |twice.companies| == |once.companies|
            && forall k :: 0 <= k < |once.companies| ==>
                 twice.companies[k].id == once.companies[k].id && twice.companies[k].email == once.companies[k].email
  {
    SeedAllFails(st, d1);
    var once := SeedAll(st, d1);
    SeedAllFails(once, d2);
    SeedKeepsPlaces(st, d1);
    SeedHasEmails(st, d1);
    forall j | 0 <= j < |d2| && d2[j].Some? ensures FindCompanyByEmail(once.companies, d2[j].value.email).Some? {
      assert d1[j].value.email == d2[j].value.email;
    }
    RerunAddsNothing(once, d2);
    SeedKeepsPlaces(once, d2);
  }

  /** Running the seed a second time, with whatever new hashes bcrypt gives,
      keeps the number of companies, their order, their ids and their
      emails. */
  lemma SeedTwice(st: SeedState, h1: string -> string, h2: string -> string)
    requires UniqueEmails(st.companies) && !st.failed
    ensures var once := SeedAll(st, Documents(DefaultCompanies, h1));
            var twice := SeedAll(once, Documents(DefaultCompanies, h2));
            && !once.failed && !twice.failed
            && |twice.companies| == |once.companies|
            && forall k :: 0 <= k < |once.companies| ==>
                 twice.companies[k].id == once.companies[k].id && twice.companies[k].email == once.companies[k].email
  {
    DefaultDocuments(h1);
    DefaultDocuments(h2);
    RerunKeepsPlaces(st, Documents(DefaultCompanies, h1), Documents(DefaultCompanies, h2));
  }
}
