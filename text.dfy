/**
  The string primitives the server and the client build on: `trim`,
  `toLowerCase`, `lastIndexOf`, `split`/`join`, `startsWith`, and the two
  slash-rewriting regular expressions used on URL paths.
 */
module Text {

  import opened Js

  /** The code points ECMAScript counts as WhiteSpace or LineTerminator: the
      ones `String.prototype.trim` removes and the class `\s` matches. */
  predicate IsWhitespace(c: char) {
    || c == ' ' || c == '\t' || c == '\n' || c == '\U{000B}' || c == '\U{000C}' || c == '\r'
    || c == '\U{00A0}' || c == '\U{1680}' || ('\U{2000}' <= c <= '\U{200A}')
    || c == '\U{2028}' || c == '\U{2029}' || c == '\U{202F}' || c == '\U{205F}'
    || c == '\U{3000}' || c == '\U{FEFF}'
  }

  predicate AllWhitespace(s: string) {
    forall i :: 0 <= i < |s| ==> IsWhitespace(s[i])
  }

  predicate HasNoWhitespace(s: string) {
    forall i :: 0 <= i < |s| ==> !IsWhitespace(s[i])
  }

  /** A string that `trim` leaves as it is. */
  predicate IsTrimmed(s: string) {
    s == [] || (!IsWhitespace(s[0]) && !IsWhitespace(s[|s| - 1]))
  }

  function TrimStart(s: string): (r: string)
    ensures |r| <= |s| && r == s[|s| - |r|..]
    ensures r == [] || !IsWhitespace(r[0])
    ensures forall i :: 0 <= i < |s| - |r| ==> IsWhitespace(s[i])
  {
    if s != [] && IsWhitespace(s[0]) then TrimStart(s[1..]) else s
  }

  function TrimEnd(s: string): (r: string)
    ensures |r| <= |s| && r == s[..|r|]
    ensures r == [] || !IsWhitespace(r[|r| - 1])
    ensures forall i :: |r| <= i < |s| ==> IsWhitespace(s[i])
  {
    if s != [] && IsWhitespace(s[|s| - 1]) then TrimEnd(s[..|s| - 1]) else s
  }

  /** `String.prototype.trim`: the result has no white space at either end, a
      trimmed string is left unchanged, and the result is empty exactly when
      the input is all white space. */
  function Trim(s: string): (r: string)
    ensures IsTrimmed(r)
    ensures IsTrimmed(s) ==> r == s
    ensures r == [] <==> AllWhitespace(s)
  {
    TrimEnds(s);
    TrimEnd(TrimStart(s))
  }

  /** Dropping the white space at the start and then at the end leaves no
      white space at either end, and leaves nothing exactly when there was
      nothing else. */
  lemma TrimEnds(s: string)
    ensures var r := TrimEnd(TrimStart(s));
            && IsTrimmed(r)
            && (IsTrimmed(s) ==> r == s)
            && (r == [] <==> AllWhitespace(s))
  {
    var t := TrimStart(s);
    var r := TrimEnd(t);
    if r != [] {
      assert r[0] == t[0];
    }
    if r == [] {
      assert t == [];
    }
  }

  /** What `trim` keeps: the result is the slice of the input between a
      prefix and a suffix that are both white space. */
  predicate IsCore(s: string, r: string) {
    exists i :: 0 <= i <= |s| - |r| && s[i..i + |r|] == r && AllWhitespace(s[..i]) && AllWhitespace(s[i + |r|..])
  }

  lemma TrimIsCore(s: string)
    ensures IsCore(s, Trim(s))
  {
    var t := TrimStart(s);
    var r := TrimEnd(t);
    var i := |s| - |t|;
    LeadingWhitespace(s);
    TrailingWhitespace(t);
    assert s[i + |r|..] == t[|r|..];
    assert s[i..i + |r|] == r;
    assert 0 <= i <= |s| - |r| && s[i..i + |r|] == r && AllWhitespace(s[..i]) && AllWhitespace(s[i + |r|..]);
    assert IsCore(s, r);
  }

  lemma LeadingWhitespace(s: string)
    ensures AllWhitespace(s[..|s| - |TrimStart(s)|])
  {
    var i := |s| - |TrimStart(s)|;
    assert forall k :: 0 <= k < i ==> s[..i][k] == s[k];
  }

  lemma TrailingWhitespace(t: string)
    ensures AllWhitespace(t[|TrimEnd(t)|..])
  {
    var j := |TrimEnd(t)|;
    assert forall k :: 0 <= k < |t| - j ==> t[j..][k] == t[j + k];
  }

  /** Trimming keeps a string blank or not blank, and trimming twice is
      trimming once. */
  lemma TrimKeepsBlankness(s: string)
    ensures AllWhitespace(Trim(s)) <==> AllWhitespace(s)
    ensures Trim(Trim(s)) == Trim(s)
  {
    if Trim(s) != [] {
      assert !IsWhitespace(Trim(s)[0]);
    }
  }

  /** `toLowerCase` on one character; only ASCII letters are mapped. */
  function LowerChar(c: char): char {
    if 'A' <= c <= 'Z' then (c as int + 32) as char else c
  }

  function Lower(s: string): (r: string)
    ensures |r| == |s|
    ensures forall i :: 0 <= i < |s| ==> r[i] == LowerChar(s[i])
  {
    seq(|s|, i requires 0 <= i < |s| => LowerChar(s[i]))
  }

  predicate IsLower(s: string) {
    forall i :: 0 <= i < |s| ==> LowerChar(s[i]) == s[i]
  }

  /** Case-insensitive equality (the `i` flag of a regular expression). */
  predicate EqualsIgnoreCase(a: string, b: string) {
    Lower(a) == Lower(b)
  }

  predicate StartsWith(s: string, prefix: string) {
    |prefix| <= |s| && s[..|prefix|] == prefix
  }

  lemma LowerIsLower(s: string)
    ensures IsLower(Lower(s))
    ensures Lower(Lower(s)) == Lower(s)
  {
  }

  lemma LowerOfLower(s: string)
    requires IsLower(s)
    ensures Lower(s) == s
  {
  }

  lemma LowerSlices(s: string, i: nat, j: nat)
    requires i <= j <= |s|
    ensures Lower(s)[i..j] == Lower(s[i..j])
  {
  }

  lemma LowerConcat(a: string, b: string)
    ensures Lower(a + b) == Lower(a) + Lower(b)
  {
  }

  lemma LowerCharKeepsWhitespace(c: char)
    ensures IsWhitespace(LowerChar(c)) == IsWhitespace(c)
  {
    if 'A' <= c <= 'Z' {
      assert 'a' <= LowerChar(c) <= 'z';
    }
  }

  lemma {:induction false} LowerTrimStart(s: string)
    ensures TrimStart(Lower(s)) == Lower(TrimStart(s))
    decreases |s|
  {
    if s != [] {
      var l := Lower(s);
      LowerCharKeepsWhitespace(s[0]);
      assert l[0] == LowerChar(s[0]);
      if IsWhitespace(s[0]) {
        LowerSlices(s, 1, |s|);
        assert l[1..] == Lower(s[1..]);
        assert TrimStart(l) == TrimStart(l[1..]);
        LowerTrimStart(s[1..]);
        assert TrimStart(s) == TrimStart(s[1..]);
      } else {
        assert TrimStart(l) == l;
        assert TrimStart(s) == s;
      }
    }
  }

  lemma {:induction false} LowerTrimEnd(s: string)
    ensures TrimEnd(Lower(s)) == Lower(TrimEnd(s))
    decreases |s|
  {
    if s != [] {
      var l := Lower(s);
      LowerCharKeepsWhitespace(s[|s| - 1]);
      assert l[|l| - 1] == LowerChar(s[|s| - 1]);
      if IsWhitespace(s[|s| - 1]) {
        LowerSlices(s, 0, |s| - 1);
        assert TrimEnd(l) == TrimEnd(l[..|l| - 1]);
        LowerTrimEnd(s[..|s| - 1]);
      }
    }
  }

  /** Lower-casing and trimming commute: the server writes
      `toLowerCase().trim()` and the client `trim().toLowerCase()`, and the two
      agree on every input. */
  lemma LowerTrimCommute(s: string)
    ensures Trim(Lower(s)) == Lower(Trim(s))
  {
    LowerTrimStart(s);
    LowerTrimEnd(TrimStart(s));
  }

  /** Lower-case then trim, as the server normalises every email address:
      the result is trimmed and lower-case, and empty exactly when the input
      is blank. */
  function NormalizeEmail(s: string): (r: string)
    ensures IsTrimmed(r) && IsLower(r)
    ensures r == [] <==> AllWhitespace(s)
  {
    LowerTrimCommute(s);
    LowerIsLower(Trim(s));
    Trim(Lower(s))
  }

  /** The order of the two steps does not matter. */
  lemma NormalizeEmailEitherOrder(s: string)
    ensures NormalizeEmail(s) == Lower(Trim(s))
  {
    LowerTrimCommute(s);
  }

  /** Normalising an email address twice changes nothing more. */
  lemma NormalizeEmailIdempotent(s: string)
    ensures NormalizeEmail(NormalizeEmail(s)) == NormalizeEmail(s)
  {
    var r := NormalizeEmail(s);
    LowerOfLower(r);
  }

  /** `lastIndexOf`: -1 when `c` does not occur, else the last position of `c`. */
  function LastIndexOf(s: string, c: char): (r: int)
    ensures -1 <= r < |s|
    ensures r == -1 <==> c !in s
    ensures r >= 0 ==> s[r] == c && c !in s[r + 1..]
  {
    if s == [] then -1
    else if s[|s| - 1] == c then |s| - 1
    else
      var r := LastIndexOf(s[..|s| - 1], c);
      assert s == s[..|s| - 1] + [s[|s| - 1]];
      assert r >= 0 ==> s[r + 1..] == s[..|s| - 1][r + 1..] + [s[|s| - 1]];
      r
  }

  /** `indexOf`: -1 when `c` does not occur, else its first position. */
  function IndexOf(s: string, c: char): (r: int)
    ensures -1 <= r < |s|
    ensures r == -1 <==> c !in s
    ensures r >= 0 ==> s[r] == c && c !in s[..r]
  {
    if s == [] then -1
    else if s[0] == c then 0
    else
      var r := IndexOf(s[1..], c);
      assert s == [s[0]] + s[1..];
      if r == -1 then -1 else r + 1
  }

  /** The text after the last `c`, provided that `c` occurs somewhere after
      the first position (`i = s.lastIndexOf(c); if (i <= 0) ...; s.slice(i + 1)`). */
  function AfterLast(s: string, c: char): (r: Option<string>)
    ensures r.None? <==> forall i :: 1 <= i < |s| ==> s[i] != c
    ensures r.Some? ==> |r.value| + 2 <= |s| && s[|s| - |r.value| - 1] == c
                        && r.value == s[|s| - |r.value|..] && c !in r.value
  {
    var i := LastIndexOf(s, c);
    if i <= 0 then
      NoneAfterFirst(s, c);
      None
    else
      assert s[i + 1..] == s[|s| - |s[i + 1..]|..];
      Some(s[i + 1..])
  }

  /** When the last `c` is at position 0 or absent, no `c` follows the
      first position. */
  lemma NoneAfterFirst(s: string, c: char)
    requires LastIndexOf(s, c) <= 0
    ensures forall k :: 1 <= k < |s| ==> s[k] != c
  {
    var i := LastIndexOf(s, c);
    forall k | 1 <= k < |s| ensures s[k] != c {
      if i == 0 {
        assert s[k] == s[1..][k - 1];
      }
    }
  }

  /** `s.split(d)` for a one-character separator: consecutive separators
      give empty parts and the empty string gives one empty part. */
  function Split(s: string, d: char): (parts: seq<string>)
    ensures |parts| >= 1
    ensures forall k :: 0 <= k < |parts| ==> d !in parts[k]
    ensures d !in s ==> parts == [s]
    decreases |s|
  {
    var i := IndexOf(s, d);
    if i < 0 then [s] else [s[..i]] + Split(s[i + 1..], d)
  }

  /** `parts.join(sep)`. */
  function Join(parts: seq<string>, sep: string): string {
    if |parts| == 0 then ""
    else if |parts| == 1 then parts[0]
    else parts[0] + sep + Join(parts[1..], sep)
  }

  /** A string is what comes before position `i`, the character there, and
      what comes after. */
  lemma CutAt(s: string, i: nat)
    requires i < |s|
    ensures s == s[..i] + [s[i]] + s[i + 1..]
  {
    assert s[i..] == [s[i]] + s[i + 1..];
    assert s == s[..i] + s[i..];
  }

  /** Joining a part in front of at least one more puts the separator
      between them. */
  lemma JoinCons(p: string, rest: seq<string>, sep: string)
    requires rest != []
    ensures Join([p] + rest, sep) == p + sep + Join(rest, sep)
  {
    assert ([p] + rest)[1..] == rest;
  }

  /** Joining the parts of a split with the separator gives back the string. */
  lemma {:induction false} JoinSplit(s: string, d: char)
    ensures Join(Split(s, d), [d]) == s
    decreases |s|
  {
    var i := IndexOf(s, d);
    if i >= 0 {
      var rest := Split(s[i + 1..], d);
      assert Split(s, d) == [s[..i]] + rest;
      JoinCons(s[..i], rest, [d]);
      JoinSplit(s[i + 1..], d);
      CutAt(s, i);
    }
  }

  /** The first part of a split runs up to the first separator and the second
      (when there is one) up to the next. */
  lemma {:induction false} SplitHead(s: string, d: char)
    ensures var i := IndexOf(s, d);
            && (i < 0 ==> Split(s, d) == [s])
            && (i >= 0 ==> |Split(s, d)| >= 2 && Split(s, d)[0] == s[..i]
                           && Split(s, d)[1] == Split(s[i + 1..], d)[0])
  {
    var i := IndexOf(s, d);
    if i >= 0 {
      var rest := Split(s[i + 1..], d);
      var parts := [s[..i]] + rest;
      assert Split(s, d) == parts;
      assert parts[0] == s[..i] && parts[1] == rest[0];
    }
  }

  /** Only the last occurrence of `c` can be the one `lastIndexOf` finds:
      a string that is `before`, then `c`, then text without `c`, has its
      last `c` right after `before`. */
  lemma {:induction false} LastIndexOfJoin(before: string, c: char, after: string)
    requires c !in after
    ensures LastIndexOf(before + [c] + after, c) == |before|
  {
    var s := before + [c] + after;
    var r := LastIndexOf(s, c);
    assert s[|before|] == c;
    assert forall k :: |before| < k < |s| ==> s[k] == after[k - |before| - 1];
  }

  /** `s.startsWith(prefix)` after lower-casing both, as a regular
      expression anchored with `^` and carrying the `i` flag tests it. */
  predicate StartsWithIgnoreCase(s: string, prefix: string) {
    |prefix| <= |s| && Lower(s[..|prefix|]) == Lower(prefix)
  }

  /** The test `/^https?:\/\//i`. */
  predicate HasHttpScheme(s: string) {
    StartsWithIgnoreCase(s, "http://") || StartsWithIgnoreCase(s, "https://")
  }

  /** A lower-case prefix that is there as written is there ignoring case. */
  lemma StartsWithIgnoresCase(s: string, prefix: string)
    requires StartsWith(s, prefix)
    ensures StartsWithIgnoreCase(s, prefix)
  {
  }

  /** Whatever follows "https://", the regular expression accepts it. */
  lemma HttpsHasHttpScheme(rest: string)
    ensures HasHttpScheme("https://" + rest)
  {
    var s := "https://" + rest;
    assert s[..8] == "https://";
  }

  /** "https://" before a string whose last character is not whitespace (or
      before nothing) is a trimmed URL with an http(s) scheme. */
  lemma HttpsTrimmed(t: string)
    requires t == [] || !IsWhitespace(t[|t| - 1])
    ensures IsTrimmed("https://" + t) && HasHttpScheme("https://" + t)
  {
    HttpsHasHttpScheme(t);
    var r := "https://" + t;
    if t != [] {
      assert r[|r| - 1] == t[|t| - 1];
    }
  }

  /** `s.replace(/\/+$/, "")`: drop every trailing slash. */
  function StripTrailingSlashes(s: string): (r: string)
    ensures |r| <= |s| && r == s[..|r|]
    ensures r == [] || r[|r| - 1] != '/'
    ensures forall i :: |r| <= i < |s| ==> s[i] == '/'
  {
    if s != [] && s[|s| - 1] == '/' then StripTrailingSlashes(s[..|s| - 1]) else s
  }

  predicate NoDoubleSlash(s: string) {
    forall i :: 0 <= i < |s| - 1 ==> !(s[i] == '/' && s[i + 1] == '/')
  }

  /** `s.replace(/\/{2,}/g, "/")`: every run of two or more slashes becomes
      a single slash. */
  function CollapseSlashes(s: string): (r: string)
    ensures NoDoubleSlash(r)
    ensures NoDoubleSlash(s) ==> r == s
    ensures s == [] <==> r == []
    ensures s != [] ==> r[0] == s[0]
    decreases |s|
  {
    if |s| < 2 then s
    else if s[0] == '/' && s[1] == '/' then CollapseSlashes(s[1..])
    else
      var t := CollapseSlashes(s[1..]);
      assert NoDoubleSlash(s) ==> NoDoubleSlash(s[1..]) by {
        if NoDoubleSlash(s) {
          forall i | 0 <= i < |s[1..]| - 1 ensures !(s[1..][i] == '/' && s[1..][i + 1] == '/') {
            assert s[1..][i] == s[i + 1] && s[1..][i + 1] == s[i + 2];
          }
        }
      }
      [s[0]] + t
  }

  /** The reference reading of the same rewrite, taken from the other end:
      the characters of `s` in order, without each "/" that comes right after
      another "/". Every run of slashes keeps its first slash, and nothing
      else is dropped. */
  function DropRepeatedSlashes(s: string): string
    decreases |s|
  {
    if s == [] then []
    else
      var init := s[..|s| - 1];
      if s[|s| - 1] == '/' && init != [] && init[|init| - 1] == '/' then DropRepeatedSlashes(init)
      else DropRepeatedSlashes(init) + [s[|s| - 1]]
  }

  /** `DropRepeatedSlashes` read from the front: a leading "/" followed by a
      "/" is one slash with the rest, any other first character is kept. */
  lemma {:induction false} DropRepeatedFront(c: char, t: string)
    ensures DropRepeatedSlashes([c] + t) ==
            if t != [] && c == '/' && t[0] == '/' then DropRepeatedSlashes(t) else [c] + DropRepeatedSlashes(t)
    decreases |t|
  {
    if t == [] {
      assert [c] + t == [c];
      assert ([c] + t)[..0] == [];
    } else if |t| == 1 {
      var s := [c] + t;
      assert s[..|s| - 1] == [c];
      assert [c][..0] == [] && t[..0] == [];
    } else {
      var s := [c] + t;
      var u := t[..|t| - 1];
      var d := t[|t| - 1];
      assert s[..|s| - 1] == [c] + u;
      assert u != [] && u[0] == t[0] && u[|u| - 1] == t[|t| - 2];
      assert ([c] + u)[|[c] + u| - 1] == u[|u| - 1];
      DropRepeatedFront(c, u);
    }
  }

  /** `CollapseSlashes` is the reference rewrite. */
  lemma {:induction false} CollapseSlashesSpec(s: string)
    ensures CollapseSlashes(s) == DropRepeatedSlashes(s)
    decreases |s|
  {
    if s == [] {
    } else if |s| == 1 {
      assert s[..0] == [];
    } else {
      assert s == [s[0]] + s[1..];
      CollapseSlashesSpec(s[1..]);
      DropRepeatedFront(s[0], s[1..]);
    }
  }
}
