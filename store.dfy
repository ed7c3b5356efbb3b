/**
  The three MongoDB collections as one in-memory store. Each collection is a
  sequence in insertion order, which is the order `findOne` and `find` see
  documents in; ids come from a counter. The queries the handlers make are
  functions over the sequences, and the writes (`create`, and
  `findOneAndUpdate` with `upsert`) are methods of `Database` that keep the
  unique indexes on `Student.slug` and `Company.email` as an invariant.
 */
module Store {

  import opened Js
  import opened Text
  import opened Models

  /** `Student.findOne({ slug })`. */
  function FindStudentBySlug(ss: seq<Student>, slug: string): (r: Option<Student>)
    ensures r.Some? ==> r.value in ss && r.value.slug == slug
    ensures r.None? <==> forall k :: 0 <= k < |ss| ==> ss[k].slug != slug
  {
    if ss == [] then None
    else if ss[0].slug == slug then Some(ss[0])
    else
      var r := FindStudentBySlug(ss[1..], slug);
      assert forall k :: 1 <= k < |ss| ==> ss[k] == ss[1..][k - 1];
      r
  }

  /** `populate("student")`: the student an event refers to, if it still exists. */
  function FindStudentById(ss: seq<Student>, id: ObjectId): (r: Option<Student>)
    ensures r.Some? ==> r.value in ss && r.value.id == id
    ensures r.None? <==> forall k :: 0 <= k < |ss| ==> ss[k].id != id
  {
    if ss == [] then None
    else if ss[0].id == id then Some(ss[0])
    else
      var r := FindStudentById(ss[1..], id);
      assert forall k :: 1 <= k < |ss| ==> ss[k] == ss[1..][k - 1];
      r
  }

  /** `Company.findById(id)`, and `populate("company")`. */
  function FindCompanyById(cs: seq<Company>, id: ObjectId): (r: Option<Company>)
    ensures r.Some? ==> r.value in cs && r.value.id == id
    ensures r.None? <==> forall k :: 0 <= k < |cs| ==> cs[k].id != id
  {
    if cs == [] then None
    else if cs[0].id == id then Some(cs[0])
    else
      var r := FindCompanyById(cs[1..], id);
      assert forall k :: 1 <= k < |cs| ==> cs[k] == cs[1..][k - 1];
      r
  }

  /** The position of the first company with this email, or -1. */
  function EmailIndex(cs: seq<Company>, email: string): (i: int)
    ensures -1 <= i < |cs|
    ensures i == -1 <==> forall k :: 0 <= k < |cs| ==> cs[k].email != email
    ensures i >= 0 ==> cs[i].email == email && forall k :: 0 <= k < i ==> cs[k].email != email
  {
    if cs == [] then -1
    else if cs[0].email == email then 0
    else
      var i := EmailIndex(cs[1..], email);
      assert forall k :: 1 <= k < |cs| ==> cs[k] == cs[1..][k - 1];
      if i < 0 then -1 else i + 1
  }

  /** `Company.findOne({ email })`. */
  function FindCompanyByEmail(cs: seq<Company>, email: string): (r: Option<Company>)
    ensures r.Some? ==> r.value in cs && r.value.email == email
    ensures r.None? <==> forall k :: 0 <= k < |cs| ==> cs[k].email != email
  {
    var i := EmailIndex(cs, email);
    if i < 0 then None else Some(cs[i])
  }

  /** With the unique index in place a lookup by slug finds the one student
      that has it. */
  lemma FindStudentBySlugUnique(ss: seq<Student>, k: nat)
    requires UniqueSlugs(ss) && k < |ss|
    ensures FindStudentBySlug(ss, ss[k].slug) == Some(ss[k])
  {
    var r := FindStudentBySlug(ss, ss[k].slug);
    var j :| 0 <= j < |ss| && ss[j] == r.value;
    assert j == k;
  }

  /** With distinct ids a lookup by id finds the one company that has it. */
  lemma FindCompanyByIdUnique(cs: seq<Company>, k: nat)
    requires DistinctCompanyIds(cs) && k < |cs|
    ensures FindCompanyById(cs, cs[k].id) == Some(cs[k])
  {
    var r := FindCompanyById(cs, cs[k].id);
    var j :| 0 <= j < |cs| && cs[j] == r.value;
    assert j == k;
  }

  /** `Company.findOneAndUpdate({ email }, { $set: u }, { upsert: true })`,
      given the document the `$set` produces (its id is a placeholder): the
      first company with that email is replaced, keeping its id, and when there
      is none the document is appended under a fresh id. The filter goes
      through the same setters as the stored value, so it is the document's
      own email. */
  function UpsertByEmail(cs: seq<Company>, newId: ObjectId, c: Company): seq<Company> {
    var i := EmailIndex(cs, c.email);
    if i >= 0 then cs[i := c.(id := cs[i].id)] else cs + [c.(id := newId)]
  }

  /** After an upsert exactly one company has the email and it carries the
      update; companies with another email keep their place and contents; an
      existing company keeps its id; the count grows by one exactly when the
      email was new. */
  lemma {:induction false} UpsertByEmailSpec(cs: seq<Company>, newId: ObjectId, c: Company)
    requires UniqueEmails(cs)
    ensures var r := UpsertByEmail(cs, newId, c);
            && UniqueEmails(r)
            && (exists k :: 0 <= k < |r| && r[k] == c.(id := r[k].id))
            && (forall k :: 0 <= k < |r| && r[k].email == c.email ==> r[k] == c.(id := r[k].id))
            && (forall k :: 0 <= k < |cs| && cs[k].email != c.email ==> r[k] == cs[k])
            && (forall k :: 0 <= k < |cs| && cs[k].email == c.email ==> r[k].id == cs[k].id)
            && |r| == |cs| + (if FindCompanyByEmail(cs, c.email).None? then 1 else 0)
            && (FindCompanyByEmail(cs, c.email).None? ==> r[|cs|] == c.(id := newId))
  {
    var r := UpsertByEmail(cs, newId, c);
    var i := EmailIndex(cs, c.email);
    var k := if i >= 0 then i else |cs|;
    assert r[k].email == c.email;
    forall a, b | 0 <= a < b < |r| ensures r[a].email != r[b].email {
      if a != k && b != k {
        assert r[a] == cs[a] && r[b] == cs[b];
      } else if a == k {
        assert r[b] == cs[b];
      } else {
        assert r[a] == cs[a];
      }
    }
  }

  /** An upsert moves no company: each keeps its place, its id and its email,
      and is untouched unless it has the upserted email; the email is present
      afterwards, and the count grows exactly when it was not before. */
  lemma UpsertKeepsPlaces(cs: seq<Company>, newId: ObjectId, c: Company)
    ensures var r := UpsertByEmail(cs, newId, c);
            && |cs| <= |r|
            && (forall k :: 0 <= k < |cs| ==> r[k].id == cs[k].id && r[k].email == cs[k].email)
            && (forall k :: 0 <= k < |cs| && cs[k].email != c.email ==> r[k] == cs[k])
            && FindCompanyByEmail(r, c.email).Some?
            && (|r| == |cs| <==> FindCompanyByEmail(cs, c.email).Some?)
  {
    var r := UpsertByEmail(cs, newId, c);
    var i := EmailIndex(cs, c.email);
    var k := if i >= 0 then i else |cs|;
    assert r[k].email == c.email;
  }

  /** The last upsert for an email wins: a second upsert with the same email
      leaves exactly what the second one alone would have left, so repeating
      an upsert changes neither the emails nor the count. */
  lemma {:induction false} UpsertByEmailTwice(cs: seq<Company>, id1: ObjectId, id2: ObjectId,
                                              c1: Company, c2: Company)
    requires UniqueEmails(cs) && c1.email == c2.email
    ensures UpsertByEmail(UpsertByEmail(cs, id1, c1), id2, c2) == UpsertByEmail(cs, id1, c2)
  {
    var r1 := UpsertByEmail(cs, id1, c1);
    var i := EmailIndex(cs, c1.email);
    var k := if i >= 0 then i else |cs|;
    assert r1[k].email == c1.email;
    UpsertByEmailSpec(cs, id1, c1);
  }

  /** The part of the store invariant about the students collection. */
  ghost predicate StudentsValid(ss: seq<Student>, nextId: ObjectId) {
    && UniqueSlugs(ss) && DistinctStudentIds(ss)
    && (forall k :: 0 <= k < |ss| ==> ss[k].id < nextId && WellFormedStudent(ss[k]))
  }

  /** The part of the store invariant about the companies collection. */
  ghost predicate CompaniesValid(cs: seq<Company>, nextId: ObjectId) {
    && UniqueEmails(cs) && DistinctCompanyIds(cs)
    && (forall k :: 0 <= k < |cs| ==> cs[k].id < nextId && WellFormedCompany(cs[k]))
  }

  /** The part of the store invariant about the ledger. */
  ghost predicate ScansValid(es: seq<ScanEvent>, nextId: ObjectId) {
    && DistinctScanIds(es)
    && (forall k :: 0 <= k < |es| ==> es[k].id < nextId)
  }

  /** The store invariant on the three collections and the id counter. */
  ghost predicate StoreValid(ss: seq<Student>, cs: seq<Company>, es: seq<ScanEvent>, nextId: ObjectId) {
    StudentsValid(ss, nextId) && CompaniesValid(cs, nextId) && ScansValid(es, nextId)
  }

  /** A write to one collection that keeps it valid under the next counter
      keeps the whole store valid. */
  lemma StudentsWritten(ss: seq<Student>, cs: seq<Company>, es: seq<ScanEvent>, n: ObjectId, rows: seq<Student>)
    requires StoreValid(ss, cs, es, n) && StudentsValid(rows, n + 1)
    ensures StoreValid(rows, cs, es, n + 1)
  {
    RaiseCounter([], cs, es, n);
  }

  lemma CompaniesWritten(ss: seq<Student>, cs: seq<Company>, es: seq<ScanEvent>, n: ObjectId, rows: seq<Company>)
    requires StoreValid(ss, cs, es, n) && CompaniesValid(rows, n + 1)
    ensures StoreValid(ss, rows, es, n + 1)
  {
    RaiseCounter(ss, [], es, n);
  }

  lemma ScansWritten(ss: seq<Student>, cs: seq<Company>, es: seq<ScanEvent>, n: ObjectId, rows: seq<ScanEvent>)
    requires StoreValid(ss, cs, es, n) && ScansValid(rows, n + 1)
    ensures StoreValid(ss, cs, rows, n + 1)
  {
    RaiseCounter(ss, cs, [], n);
  }

  /** Raising the id counter keeps every collection valid. */
  lemma RaiseCounter(ss: seq<Student>, cs: seq<Company>, es: seq<ScanEvent>, n: ObjectId)
    requires StudentsValid(ss, n) && CompaniesValid(cs, n) && ScansValid(es, n)
    ensures StudentsValid(ss, n + 1) && CompaniesValid(cs, n + 1) && ScansValid(es, n + 1)
  {
  }

  lemma {:induction false} AppendStudentValid(ss: seq<Student>, nextId: ObjectId, s: Student)
    requires StudentsValid(ss, nextId)
    requires s.id == nextId && WellFormedStudent(s) && FindStudentBySlug(ss, s.slug).None?
    ensures StudentsValid(ss + [s], nextId + 1)
  {
    var r := ss + [s];
    forall i, j | 0 <= i < j < |r| ensures r[i].slug != r[j].slug && r[i].id != r[j].id {
      if j == |ss| {
        assert r[i] == ss[i] && r[j] == s;
      } else {
        assert r[i] == ss[i] && r[j] == ss[j];
      }
    }
  }

  lemma {:induction false} AppendCompanyValid(cs: seq<Company>, nextId: ObjectId, c: Company)
    requires CompaniesValid(cs, nextId)
    requires c.id == nextId && WellFormedCompany(c) && FindCompanyByEmail(cs, c.email).None?
    ensures CompaniesValid(cs + [c], nextId + 1)
  {
    var r := cs + [c];
    forall i, j | 0 <= i < j < |r| ensures r[i].email != r[j].email && r[i].id != r[j].id {
      if j == |cs| {
        assert r[i] == cs[i] && r[j] == c;
      } else {
        assert r[i] == cs[i] && r[j] == cs[j];
      }
    }
  }

  lemma {:induction false} AppendScanValid(es: seq<ScanEvent>, nextId: ObjectId, e: ScanEvent)
    requires ScansValid(es, nextId) && e.id == nextId
    ensures ScansValid(es + [e], nextId + 1)
  {
    var r := es + [e];
    forall i, j | 0 <= i < j < |r| ensures r[i].id != r[j].id {
      if j == |es| {
        assert r[i] == es[i] && r[j] == e;
      } else {
        assert r[i] == es[i] && r[j] == es[j];
      }
    }
  }

  /** The document an upsert leaves for its email, as `{ new: true }` returns it. */
  function Upserted(cs: seq<Company>, newId: ObjectId, c: Company): (d: Company)
    ensures d == c.(id := d.id)
    ensures d in UpsertByEmail(cs, newId, c)
  {
    var i := EmailIndex(cs, c.email);
    if i >= 0 then
      assert UpsertByEmail(cs, newId, c)[i] == c.(id := cs[i].id);
      c.(id := cs[i].id)
    else
      assert UpsertByEmail(cs, newId, c)[|cs|] == c.(id := newId);
      c.(id := newId)
  }

  /** An upsert of a well-formed document keeps the companies collection valid. */
  lemma {:induction false} UpsertCompanyValid(cs: seq<Company>, nextId: ObjectId, c: Company)
    requires CompaniesValid(cs, nextId) && WellFormedCompany(c)
    ensures CompaniesValid(UpsertByEmail(cs, nextId, c), nextId + 1)
  {
    var r := UpsertByEmail(cs, nextId, c);
    UpsertByEmailSpec(cs, nextId, c);
    var i := EmailIndex(cs, c.email);
    var k := if i >= 0 then i else |cs|;
    assert r[k] == c.(id := if i >= 0 then cs[i].id else nextId);
    forall a, b | 0 <= a < b < |r| ensures r[a].id != r[b].id {
      if a != k && b != k {
        assert r[a] == cs[a] && r[b] == cs[b];
      } else if a == k {
        assert r[b] == cs[b];
      } else {
        assert r[a] == cs[a];
      }
    }
  }

  /** The outcome of a write to one collection: what the call returns or
      throws, and the collection afterwards. */
  datatype Write<T> = Write(result: Result<T, DbError>, rows: seq<T>)

  /** `Student.create(f)` on the students collection: a document the
      validators reject, or whose slug is already taken, is not inserted; any
      other is appended. The invariant of the collection is kept either way. */
  function InsertStudent(ss: seq<Student>, n: ObjectId, f: StudentFields): (w: Write<Student>)
    ensures w.result.Ok? <==> CastStudent(n, f).Ok? && FindStudentBySlug(ss, f.slug).None?
    ensures w.result.Ok? ==> w.result == CastStudent(n, f) && w.rows == ss + [w.result.value]
    ensures w.result.Err? ==> w.rows == ss
    ensures w.result == Err(DuplicateKey) <==> CastStudent(n, f).Ok? && FindStudentBySlug(ss, f.slug).Some?
    ensures StudentsValid(ss, n) ==> StudentsValid(w.rows, n + 1)
  {
    var r := CastStudent(n, f);
    if r.Err? then
      assert StudentsValid(ss, n) ==> StudentsValid(ss, n + 1);
      Write(r, ss)
    else if FindStudentBySlug(ss, f.slug).Some? then
      assert StudentsValid(ss, n) ==> StudentsValid(ss, n + 1);
      Write(Err(DuplicateKey), ss)
    else
      assert StudentsValid(ss, n) ==> StudentsValid(ss + [r.value], n + 1) by {
        if StudentsValid(ss, n) {
          AppendStudentValid(ss, n, r.value);
        }
      }
      Write(r, ss + [r.value])
  }

  /** `Company.create(f)` on the companies collection: rejected by the
      validators or by the unique index on `email`, or appended. */
  function InsertCompany(cs: seq<Company>, n: ObjectId, f: CompanyFields): (w: Write<Company>)
    ensures w.result.Ok? <==> CastCompany(n, f).Ok? && FindCompanyByEmail(cs, NormalizeEmail(f.email)).None?
    ensures w.result.Ok? ==> w.result == CastCompany(n, f) && w.rows == cs + [w.result.value]
    ensures w.result.Err? ==> w.rows == cs
    ensures w.result == Err(DuplicateKey) <==>
              CastCompany(n, f).Ok? && FindCompanyByEmail(cs, NormalizeEmail(f.email)).Some?
    ensures CompaniesValid(cs, n) ==> CompaniesValid(w.rows, n + 1)
  {
    var r := CastCompany(n, f);
    if r.Err? then
      assert CompaniesValid(cs, n) ==> CompaniesValid(cs, n + 1);
      Write(r, cs)
    else if FindCompanyByEmail(cs, r.value.email).Some? then
      assert CompaniesValid(cs, n) ==> CompaniesValid(cs, n + 1);
      Write(Err(DuplicateKey), cs)
    else
      assert CompaniesValid(cs, n) ==> CompaniesValid(cs + [r.value], n + 1) by {
        if CompaniesValid(cs, n) {
          AppendCompanyValid(cs, n, r.value);
        }
      }
      Write(r, cs + [r.value])
  }

  /** `Company.findOneAndUpdate({ email }, { $set: u }, { new: true, upsert: true })`
      on the companies collection, given the document `d` the `$set` produces
      (`ApplyUpdate`). No validator runs and the filter is the document's own
      email, so the call never fails; it returns the company as it is after
      the update. */
  function UpsertCompany(cs: seq<Company>, n: ObjectId, d: Company): (w: Write<Company>)
    requires WellFormedCompany(d)
    ensures w.result.Ok? && w.result.value in w.rows && w.result.value == d.(id := w.result.value.id)
    ensures w.rows == UpsertByEmail(cs, n, d)
    ensures CompaniesValid(cs, n) ==> CompaniesValid(w.rows, n + 1)
  {
    assert CompaniesValid(cs, n) ==> CompaniesValid(UpsertByEmail(cs, n, d), n + 1) by {
      if CompaniesValid(cs, n) {
        UpsertCompanyValid(cs, n, d);
      }
    }
    Write(Ok(Upserted(cs, n, d)), UpsertByEmail(cs, n, d))
  }

  class Database {
    var students: seq<Student>
    var companies: seq<Company>
    var scans: seq<ScanEvent>
    var nextId: ObjectId

    /** The unique indexes hold, ids are distinct and below the counter, and
        every record is in the form the schema's setters give it. */
    ghost predicate Valid()
      reads this
    {
      StoreValid(students, companies, scans, nextId)
    }

    constructor ()
      ensures Valid()
      ensures students == [] && companies == [] && scans == []
    {
      students := [];
      companies := [];
      scans := [];
      nextId := 0;
    }

    /** `Student.create(f)`. Every call draws a fresh id, as a new document
        gets its `_id` before it is saved. */
    method CreateStudent(f: StudentFields) returns (r: Result<Student, DbError>)
      requires Valid()
      modifies this
      ensures Valid()
      ensures Write(r, students) == InsertStudent(old(students), old(nextId), f)
      ensures companies == old(companies) && scans == old(scans) && nextId == old(nextId) + 1
    {
      var w := InsertStudent(students, nextId, f);
      StudentsWritten(students, companies, scans, nextId, w.rows);
      r := w.result;
      students := w.rows;
      nextId := nextId + 1;
    }

    /** `Company.create(f)`. */
    method CreateCompany(f: CompanyFields) returns (r: Result<Company, DbError>)
      requires Valid()
      modifies this
      ensures Valid()
      ensures Write(r, companies) == InsertCompany(old(companies), old(nextId), f)
      ensures students == old(students) && scans == old(scans) && nextId == old(nextId) + 1
    {
      var w := InsertCompany(companies, nextId, f);
      CompaniesWritten(students, companies, scans, nextId, w.rows);
      r := w.result;
      companies := w.rows;
      nextId := nextId + 1;
    }

    /** `ScanEvent.create(f)`: always appends exactly one event and leaves the
        earlier ones as they were; nothing stops the same pair from being
        recorded again. */
    method AppendScan(f: ScanFields, now: int) returns (e: ScanEvent)
      requires Valid()
      modifies this
      ensures Valid()
      ensures e == CastScan(old(nextId), f, now)
      ensures scans == old(scans) + [e]
      ensures students == old(students) && companies == old(companies) && nextId == old(nextId) + 1
    {
      e := CastScan(nextId, f, now);
      AppendScanValid(scans, nextId, e);
      ScansWritten(students, companies, scans, nextId, scans + [e]);
      scans := scans + [e];
      nextId := nextId + 1;
    }

    /** `Company.findOneAndUpdate({ email }, { $set: u }, { new: true, upsert: true })`,
        given the document `d` the `$set` produces. */
    method UpsertCompanyByEmail(d: Company) returns (c: Company)
      requires Valid() && WellFormedCompany(d)
      modifies this
      ensures Valid()
      ensures Write(Ok(c), companies) == UpsertCompany(old(companies), old(nextId), d)
      ensures unchanged(this`students, this`scans) && nextId == old(nextId) + 1
    {
      var w := UpsertCompany(companies, nextId, d);
      CompaniesWritten(students, companies, scans, nextId, w.rows);
      c := w.result.value;
      companies := w.rows;
      nextId := nextId + 1;
    }
  }
}
