/**
  The regular expression the company login builds from the typed name
  (server/src/routes/companyRoutes.js, route `/auth/login`): the name is
  escaped, anchored with `^` and `$`, and matched with the `i` flag.

  Only the patterns whose body consists of ordinary characters and escaped
  metacharacters are evaluated here; those are exactly the patterns the
  escaping produces, and the lemmas show that such a pattern matches a
  subject exactly when the subject equals the escaped text, ignoring case.
 */
module LiteralPattern {

  import opened Js
  import opened Text

  /** The characters the route escapes: the class `[.*+?^${}()|[\]\\]`. */
  predicate IsMeta(c: char) {
    || c == '.' || c == '*' || c == '+' || c == '?' || c == '^' || c == '$' || c == '{'
    || c == '}' || c == '(' || c == ')' || c == '|' || c == '[' || c == ']' || c == '\\'
  }

  /** `s.replace(/[.*+?^${}()|[\]\\]/g, "\\$&")`: a backslash before every
      metacharacter. */
  function Escape(s: string): (r: string)
    ensures |s| <= |r| <= 2 * |s|
    decreases |s|
  {
    if s == [] then []
    else (if IsMeta(s[0]) then ['\\', s[0]] else [s[0]]) + Escape(s[1..])
  }

  /** The text a pattern body built only from ordinary characters and
      escaped metacharacters stands for; `None` for a body that uses a regular
      expression operator or ends in a lone backslash. */
  function Literal(body: string): Option<string>
    decreases |body|
  {
    if body == [] then Some([])
    else if body[0] == '\\' then
      if |body| >= 2 && IsMeta(body[1]) then
        match Literal(body[2..])
        case Some(t) => Some([body[1]] + t)
        case None => None
      else None
    else if IsMeta(body[0]) then None
    else
      match Literal(body[1..])
      case Some(t) => Some([body[0]] + t)
      case None => None
  }

  /** Escaping makes any text literal: the escaped body stands for the text
      itself, metacharacters included. */
  lemma {:induction false} LiteralOfEscape(s: string)
    ensures Literal(Escape(s)) == Some(s)
    decreases |s|
  {
    if s != [] {
      LiteralOfEscape(s[1..]);
      var e := Escape(s);
      if IsMeta(s[0]) {
        assert e[0] == '\\' && e[1] == s[0] && e[2..] == Escape(s[1..]);
      } else {
        assert e[0] == s[0] && e[1..] == Escape(s[1..]);
      }
      assert s == [s[0]] + s[1..];
    }
  }

  /** The anchored pattern `^<escaped name>$` of the login query. */
  function LoginPattern(name: string): string {
    "^" + Escape(name) + "$"
  }

  /** Whether `subject` matches the anchored, case-insensitive `pattern`;
      `None` when the pattern is not `^`, a literal body and `$`. */
  function MatchAnchoredIgnoreCase(pattern: string, subject: string): Option<bool> {
    if |pattern| >= 2 && pattern[0] == '^' && pattern[|pattern| - 1] == '$' then
      match Literal(pattern[1..|pattern| - 1])
      case Some(text) => Some(EqualsIgnoreCase(text, subject))
      case None => None
    else None
  }

  /** The login pattern matches a stored name exactly when the two names are
      equal ignoring case: no character of the typed name acts as an operator. */
  lemma LoginPatternIsLiteral(name: string, subject: string)
    ensures MatchAnchoredIgnoreCase(LoginPattern(name), subject) == Some(EqualsIgnoreCase(name, subject))
  {
    var p := LoginPattern(name);
    assert p[1..|p| - 1] == Escape(name);
    LiteralOfEscape(name);
  }
}
