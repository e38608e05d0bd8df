/** The part of JavaScript's string semantics the application relies on:
    `String.prototype.trim`, whose notion of white space is the union of the
    ECMAScript WhiteSpace and LineTerminator productions. */
module JsText {

  /** WhiteSpace (TAB, VT, FF, SPACE, NBSP, ZWNBSP and the Unicode space
      separators) and LineTerminator (LF, CR, LS, PS). */
  predicate IsWhiteSpace(ch: char) {
    || ch == '\U{0009}' || ch == '\U{000B}' || ch == '\U{000C}' || ch == ' '
    || ch == '\U{00A0}' || ch == '\U{FEFF}' || ch == '\U{1680}'
    || ('\U{2000}' <= ch <= '\U{200A}')
    || ch == '\U{202F}' || ch == '\U{205F}' || ch == '\U{3000}'
    || ch == '\U{000A}' || ch == '\U{000D}' || ch == '\U{2028}' || ch == '\U{2029}'
  }

  /** Every character of `s` is white space (vacuously true of ""). */
  predicate AllWhiteSpace(s: string) {
    forall i :: 0 <= i < |s| ==> IsWhiteSpace(s[i])
  }

  /** Drops leading white space: the result is a suffix of `s` that does not
      start with white space, and everything dropped was white space. */
  function TrimStart(s: string): (r: string)
    ensures |r| <= |s| && r == s[|s| - |r|..]
    ensures |r| > 0 ==> !IsWhiteSpace(r[0])
    ensures AllWhiteSpace(s[..|s| - |r|])
  {
    if |s| > 0 && IsWhiteSpace(s[0]) then TrimStart(s[1..]) else s
  }

  /** Drops trailing white space: the result is a prefix of `s` that does not
      end with white space, and everything dropped was white space. */
  function TrimEnd(s: string): (r: string)
    ensures |r| <= |s| && r == s[..|r|]
    ensures |r| > 0 ==> !IsWhiteSpace(r[|r| - 1])
    ensures AllWhiteSpace(s[|r|..])
  {
    if |s| > 0 && IsWhiteSpace(s[|s| - 1]) then TrimEnd(s[..|s| - 1]) else s
  }

  /** `s.trim()`: neither starts nor ends with white space, and is empty
      exactly when `s` is all white space. */
  function Trim(s: string): (r: string)
    ensures |r| > 0 ==> !IsWhiteSpace(r[0]) && !IsWhiteSpace(r[|r| - 1])
    ensures r == "" <==> AllWhiteSpace(s)
  {
    var t := TrimStart(s);
    var r := TrimEnd(t);
    TrimShape(s, t, r);
    r
  }

  /** A prefix `r` of a suffix `t` of `s`, where everything dropped is white
      space and `t` does not start with white space, sits in `s` between two
      runs of white space, and is empty exactly when `s` is all white space. */
  lemma TrimShape(s: string, t: string, r: string)
    requires |r| <= |t| <= |s|
    requires t == s[|s| - |t|..] && r == t[..|r|]
    requires AllWhiteSpace(s[..|s| - |t|]) && AllWhiteSpace(t[|r|..])
    requires |t| > 0 ==> !IsWhiteSpace(t[0])
    ensures r == s[|s| - |t|..|s| - |t| + |r|]
    ensures AllWhiteSpace(s[|s| - |t| + |r|..])
    ensures r == "" <==> AllWhiteSpace(s)
  {
    var k := |s| - |t|;
    assert t[|r|..] == s[k + |r|..];
    assert r == s[k..k + |r|];
    assert s == s[..k] + t;
    WhiteSpaceConcat(s[..k], t);
    assert r == "" ==> t == t[|r|..];
  }

  /** The trimmed string is a slice of `s` with only white space around it. */
  lemma TrimIsSlice(s: string)
    ensures exists k :: (0 <= k <= |s| - |Trim(s)| && Trim(s) == s[k..k + |Trim(s)|]
                         && AllWhiteSpace(s[..k]) && AllWhiteSpace(s[k + |Trim(s)|..]))
  {
    var t := TrimStart(s);
    var r := TrimEnd(t);
    TrimShape(s, t, r);
    var k := |s| - |t|;
    assert r == Trim(s);
    assert 0 <= k <= |s| - |r| && r == s[k..k + |r|]
      && AllWhiteSpace(s[..k]) && AllWhiteSpace(s[k + |r|..]);
  }

  /** A concatenation is all white space exactly when both parts are. */
  lemma WhiteSpaceConcat(a: string, b: string)
    ensures AllWhiteSpace(a + b) <==> AllWhiteSpace(a) && AllWhiteSpace(b)
  {
    assert forall i :: 0 <= i < |a| ==> a[i] == (a + b)[i];
    assert forall i :: 0 <= i < |b| ==> b[i] == (a + b)[|a| + i];
  }

  /** `!s.trim()`: the trimmed string is the (falsy) empty string, which
      happens exactly for strings of white space only. */
  predicate IsBlank(s: string)
    ensures IsBlank(s) <==> AllWhiteSpace(s)
  {
    Trim(s) == ""
  }

  /** A name padded with white space at either end is changed by trimming. */
  lemma PaddedIsNotTrimmed(s: string)
    requires |s| > 0 && (IsWhiteSpace(s[0]) || IsWhiteSpace(s[|s| - 1]))
    ensures Trim(s) != s
  {
  }
}
