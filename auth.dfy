/**
  server/src/middleware/auth.js: the guard in front of the company routes.
  It reads a bearer token from the `Authorization` header, verifies it, looks
  up the company the token names and, when that company exists and is
  active, binds it to the request and passes control on; every other outcome
  is a 401.

  `jwt.verify` is a parameter: it gives the `sub` claim of a valid token and
  `None` when it throws (a bad signature, an expired token).
 */
module Auth {

  import opened Js
  import opened Text
  import opened Models
  import opened Store

  /** The `sub` claim of a verified token: absent, not a valid `ObjectId`
      (`findById` throws a cast error), or an id. */
  datatype Subject = NoSubject | Malformed | SubjectId(id: ObjectId)

  /** `const [scheme, token] = header.split(" ")`, accepted when the scheme is
      exactly "Bearer" and the token is not empty. */
  function BearerToken(header: string): (t: Option<string>)
    ensures t.Some? ==> t.value != "" && ' ' !in t.value
  {
    var parts := Split(header, ' ');
    if parts[0] == "Bearer" && |parts| >= 2 && parts[1] != "" then Some(parts[1]) else None
  }

  /** The first part of a split is the text up to the first separator, or
      the whole string when there is none. */
  lemma {:induction false} SplitFirst(s: string, d: char)
    ensures var p := Split(s, d)[0];
            && |p| <= |s| && s[..|p|] == p && d !in p
            && (|p| < |s| <==> |Split(s, d)| >= 2)
            && (|p| < |s| ==> s[|p|] == d)
  {
    SplitHead(s, d);
  }

  /** The scheme is "Bearer" and a second part follows exactly when the
      header starts with "Bearer "; the second part is then the first part of
      the text after it. */
  lemma {:induction false} BearerScheme(header: string)
    ensures (Split(header, ' ')[0] == "Bearer" && |Split(header, ' ')| >= 2) <==> StartsWith(header, "Bearer ")
    ensures StartsWith(header, "Bearer ") ==> Split(header, ' ')[1] == Split(header[7..], ' ')[0]
  {
    if Split(header, ' ')[0] == "Bearer" && |Split(header, ' ')| >= 2 {
      SchemeGivesPrefix(header);
    }
    if StartsWith(header, "Bearer ") {
      PrefixGivesScheme(header);
    }
  }

  /** A "Bearer" scheme followed by a second part means the header starts
      with "Bearer ". */
  lemma {:induction false} SchemeGivesPrefix(header: string)
    requires Split(header, ' ')[0] == "Bearer" && |Split(header, ' ')| >= 2
    ensures StartsWith(header, "Bearer ")
  {
    SplitFirst(header, ' ');
    assert header[..7] == Split(header, ' ')[0] + [' '];
  }

  /** A header starting with "Bearer " has the scheme "Bearer", and its
      second part is the first part of the rest. */
  lemma {:induction false} PrefixGivesScheme(header: string)
    requires StartsWith(header, "Bearer ")
    ensures Split(header, ' ')[0] == "Bearer" && |Split(header, ' ')| >= 2
    ensures Split(header, ' ')[1] == Split(header[7..], ' ')[0]
  {
    var b := header[..6];
    assert b == "Bearer" by {
      assert header[..7][..6] == "Bearer";
    }
    assert header[6] == ' ' && ' ' !in b;
    SchemeBeforeFirstSpace(header, 6);
    SplitHead(header, ' ');
  }

  /** When the first space is at position `i`, the first part is the text
      before it. */
  lemma {:induction false} SchemeBeforeFirstSpace(s: string, i: nat)
    requires i < |s| && s[i] == ' ' && ' ' !in s[..i]
    ensures IndexOf(s, ' ') == i && Split(s, ' ')[0] == s[..i] && |Split(s, ' ')| >= 2
  {
    var j := IndexOf(s, ' ');
    assert j >= 0 by {
      assert s[i] in s;
    }
    SplitHead(s, ' ');
  }

  /** A header is accepted exactly when it starts with "Bearer " followed by
      a character other than a space; the token is then the text up to the
      next space or the end. */
  lemma {:induction false} BearerTokenShape(header: string)
    ensures BearerToken(header).Some? <==>
              StartsWith(header, "Bearer ") && |header| > 7 && header[7] != ' '
    ensures BearerToken(header).Some? ==>
              var t := BearerToken(header).value;
              && 7 + |t| <= |header| && header[7..7 + |t|] == t
              && (7 + |t| == |header| || header[7 + |t|] == ' ')
  {
    BearerScheme(header);
    if StartsWith(header, "Bearer ") {
      var rest := header[7..];
      SplitFirst(rest, ' ');
      var t := Split(rest, ' ')[0];
      assert t == "" <==> rest == [] || rest[0] == ' ';
      assert rest[..|t|] == header[7..7 + |t|];
    }
  }

  /** What the guard decides: the company to bind, or the 401 message. */
  datatype Decision = Admit(company: Company) | Reject(message: string)

  /** The decision chain of `requireCompanyAuth` over the companies
      collection; a header that is not set counts as "". */
  function Authenticate(authorization: Option<string>, verify: string -> Option<Subject>,
                        cs: seq<Company>): (d: Decision)
    ensures d.Admit? ==> d.company in cs && d.company.active
  {
    match BearerToken(Or(authorization, ""))
    case None => Reject("Não autenticado")
    case Some(token) =>
      match verify(token)
      case None => Reject("Token inválido")
      case Some(NoSubject) => Reject("Sessão inválida")
      case Some(Malformed) => Reject("Token inválido")
      case Some(SubjectId(id)) =>
        match FindCompanyById(cs, id)
        case Some(c) => if c.active then Admit(c) else Reject("Sessão inválida")
        case None => Reject("Sessão inválida")
  }

  /** The guard admits exactly the requests whose bearer token verifies to
      the id of an active company, and admits that company. */
  lemma AuthenticateSpec(authorization: Option<string>, verify: string -> Option<Subject>,
                         cs: seq<Company>, c: Company)
    requires DistinctCompanyIds(cs)
    ensures Authenticate(authorization, verify, cs) == Admit(c) <==>
              && BearerToken(Or(authorization, "")).Some?
              && verify(BearerToken(Or(authorization, "")).value) == Some(SubjectId(c.id))
              && c in cs && c.active
  {
    var t := BearerToken(Or(authorization, ""));
    var d := Authenticate(authorization, verify, cs);
    if d == Admit(c) {
      assert t.Some? && verify(t.value).Some?;
      var v := verify(t.value).value;
      assert v.SubjectId? && FindCompanyById(cs, v.id) == Some(c);
    }
    if t.Some? && verify(t.value) == Some(SubjectId(c.id)) && c in cs && c.active {
      var k :| 0 <= k < |cs| && cs[k] == c;
      FindCompanyByIdUnique(cs, k);
    }
  }

  /** Without a usable bearer header the guard rejects before any token is
      verified, whatever `verify` would say. */
  lemma RejectsWithoutBearer(authorization: Option<string>, verify: string -> Option<Subject>,
                             cs: seq<Company>)
    requires !(StartsWith(Or(authorization, ""), "Bearer ") && |Or(authorization, "")| > 7
               && Or(authorization, "")[7] != ' ')
    ensures Authenticate(authorization, verify, cs) == Reject("Não autenticado")
  {
    BearerTokenShape(Or(authorization, ""));
  }

  /** The part of an Express request the guard reads and writes. */
  class Request {
    const authorization: Option<string>
    var company: Option<Company>

    constructor (authorization: Option<string>)
      ensures this.authorization == authorization && company.None?
    {
      this.authorization := authorization;
      company := None;
    }
  }

  /** How the guard ends: `next()` or a response. */
  datatype Outcome = CallNext | Respond(status: int, message: string)

  /** `requireCompanyAuth(req, res, next)`: on success `req.company` is the
      admitted company and `next` is called; otherwise the response is a 401
      and the request is left as it was. */
  method RequireCompanyAuth(req: Request, verify: string -> Option<Subject>, db: Database)
    returns (o: Outcome)
    modifies req
    ensures o.CallNext? <==> Authenticate(req.authorization, verify, db.companies).Admit?
    ensures o.CallNext? ==> req.company == Some(Authenticate(req.authorization, verify, db.companies).company)
    ensures o.Respond? ==> && o.status == 401
                           && o.message == Authenticate(req.authorization, verify, db.companies).message
                           && req.company == old(req.company)
  {
    var d := Authenticate(req.authorization, verify, db.companies);
    match d
    case Admit(c) =>
      req.company := Some(c);
      o := CallNext;
    case Reject(m) =>
      o := Respond(401, m);
  }
}
