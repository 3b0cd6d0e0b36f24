/** The `String.prototype.trim` blank test the controller applies to path
    parameters. */
module Text {

  /** ECMAScript WhiteSpace and LineTerminator code points: the characters
      `trim` strips from both ends of a string. The Unicode "Space_Separator"
      (Zs) code points are U+0020, U+00A0, U+1680, U+2000 to U+200A, U+202F,
      U+205F and U+3000. */
  const Whitespace: set<char> := {
    '\t', '\U{000B}', '\U{000C}', ' ', '\U{00A0}', '\U{FEFF}',
    '\n', '\r', '\U{2028}', '\U{2029}',
    '\U{1680}', '\U{2000}', '\U{2001}', '\U{2002}', '\U{2003}', '\U{2004}', '\U{2005}',
    '\U{2006}', '\U{2007}', '\U{2008}', '\U{2009}', '\U{200A}',
    '\U{202F}', '\U{205F}', '\U{3000}'
  }

  predicate IsWhitespace(c: char) {
    c in Whitespace
  }

  /** Every character of `s` is whitespace (vacuously so for ""). */
  ghost predicate AllWhitespace(s: string) {
    forall i :: 0 <= i < |s| ==> IsWhitespace(s[i])
  }

  /** `s` without its leading whitespace. */
  function TrimStart(s: string): (r: string)
    ensures |r| <= |s| && r == s[|s| - |r|..]
    ensures forall i :: 0 <= i < |s| - |r| ==> IsWhitespace(s[i])
    ensures r != [] ==> !IsWhitespace(r[0])
  {
    if |s| > 0 && IsWhitespace(s[0]) then
      var r := TrimStart(s[1..]);
      assert forall i :: 1 <= i < |s| ==> s[1..][i - 1] == s[i];
      r
    else s
  }

  /** `s` without its trailing whitespace. */
  function TrimEnd(s: string): (r: string)
    ensures |r| <= |s| && r == s[..|r|]
    ensures forall i :: |r| <= i < |s| ==> IsWhitespace(s[i])
    ensures r != [] ==> !IsWhitespace(r[|r| - 1])
  {
    if |s| > 0 && IsWhitespace(s[|s| - 1]) then TrimEnd(s[..|s| - 1]) else s
  }

  /** `s.trim()`: `s` split as whitespace, then `r`, then whitespace, where
      `r` neither starts nor ends with whitespace. */
  function Trim(s: string): (r: string)
    ensures exists pre, post :: AllWhitespace(pre) && AllWhitespace(post) && s == pre + r + post
    ensures r != [] ==> !IsWhitespace(r[0]) && !IsWhitespace(r[|r| - 1])
  {
    var t := TrimStart(s);
    var r := TrimEnd(t);
    TrimParts(s, t, r);
    r
  }

  /** Stripping leading whitespace (`s` to `t`) and then trailing whitespace
      (`t` to `r`) leaves `r` between two runs of whitespace. */
  lemma TrimParts(s: string, t: string, r: string)
    requires |t| <= |s| && t == s[|s| - |t|..]
    requires forall i :: 0 <= i < |s| - |t| ==> IsWhitespace(s[i])
    requires t != [] ==> !IsWhitespace(t[0])
    requires |r| <= |t| && r == t[..|r|]
    requires forall i :: |r| <= i < |t| ==> IsWhitespace(t[i])
    requires r != [] ==> !IsWhitespace(r[|r| - 1])
    ensures exists pre, post :: AllWhitespace(pre) && AllWhitespace(post) && s == pre + r + post
    ensures r != [] ==> !IsWhitespace(r[0])
  {
    var pre, post := s[..|s| - |t|], t[|r|..];
    WhitespaceSlice(s, 0, |s| - |t|);
    WhitespaceSlice(t, |r|, |t|);
    assert pre == s[0..|s| - |t|] && post == t[|r|..|t|];
    assert s == pre + t;
    assert t == r + post;
    SplitThree(s, pre, t, r, post);
    if r != [] {
      assert r[0] == t[0];
    }
  }

  /** `s` is `pre`, `r`, `post` when it is `pre` then `t` and `t` is `r` then `post`. */
  lemma SplitThree(s: string, pre: string, t: string, r: string, post: string)
    requires s == pre + t && t == r + post
    ensures s == pre + r + post
  {
    assert pre + r + post == pre + (r + post);
  }

  /** A slice of whitespace positions is all whitespace. */
  lemma WhitespaceSlice(s: string, lo: int, hi: int)
    requires 0 <= lo <= hi <= |s|
    requires forall i :: lo <= i < hi ==> IsWhitespace(s[i])
    ensures AllWhitespace(s[lo..hi])
  {
    forall i | 0 <= i < hi - lo ensures IsWhitespace(s[lo..hi][i]) {
      assert s[lo..hi][i] == s[lo + i];
    }
  }

  /** Trimming leaves nothing exactly when every character is whitespace. */
  lemma TrimEmptyIffAllWhitespace(s: string)
    ensures Trim(s) == [] <==> AllWhitespace(s)
  {
    var t := TrimStart(s);
    if t != [] {
      assert s[|s| - |t|] == t[0];
    }
  }

  /** JavaScript's `!s.trim()`: the trimmed string is empty, hence falsy. */
  predicate IsBlank(s: string)
    ensures IsBlank(s) <==> AllWhitespace(s)
  {
    TrimEmptyIffAllWhitespace(s);
    Trim(s) == []
  }
}
