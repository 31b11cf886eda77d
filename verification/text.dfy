/** The whitespace trimming that `String.prototype.trim` performs. */
module Text {

  /** ECMAScript WhiteSpace and LineTerminator code points (the set `trim`
      strips): tab, vertical tab, form feed, space, no-break space, byte
      order mark, line feed, carriage return, line and paragraph separators,
      and the remaining Unicode "Space_Separator" code points. */
  const WhitespaceChars: set<char> := {
    '\t', '\U{000B}', '\U{000C}', ' ', '\U{00A0}', '\U{FEFF}',
    '\n', '\r', '\U{2028}', '\U{2029}',
    '\U{1680}', '\U{2000}', '\U{2001}', '\U{2002}', '\U{2003}', '\U{2004}', '\U{2005}',
    '\U{2006}', '\U{2007}', '\U{2008}', '\U{2009}', '\U{200A}',
    '\U{202F}', '\U{205F}', '\U{3000}'
  }

  predicate IsWhitespace(c: char) {
    c in WhitespaceChars
  }

  predicate AllWhitespace(s: string) {
    forall k :: 0 <= k < |s| ==> IsWhitespace(s[k])
  }

  /** Every position of `s` in `[lo, hi)` holds whitespace. */
  predicate WhitespaceBetween(s: string, lo: int, hi: int) {
    forall k :: lo <= k < hi && 0 <= k < |s| ==> IsWhitespace(s[k])
  }

  /** `r` is the run of `s` starting at position `i`. */
  predicate IsRunAt(s: string, r: string, i: int) {
    0 <= i && i + |r| <= |s| && forall k :: 0 <= k < |r| ==> r[k] == s[i + k]
  }

  /** Drops the leading whitespace of `s`. */
  function TrimStart(s: string): (r: string)
    ensures IsRunAt(s, r, |s| - |r|)
    ensures WhitespaceBetween(s, 0, |s| - |r|)
    ensures r == [] || !IsWhitespace(r[0])
  {
    if s == [] || !IsWhitespace(s[0]) then s
    else
      var r := TrimStart(s[1..]);
      assert forall k :: 0 <= k < |s| - 1 ==> s[1..][k] == s[k + 1];
      r
  }

  /** Drops the trailing whitespace of `s`. */
  function TrimEnd(s: string): (r: string)
    ensures IsRunAt(s, r, 0)
    ensures WhitespaceBetween(s, |r|, |s|)
    ensures r == [] || !IsWhitespace(r[|r| - 1])
  {
    if s == [] || !IsWhitespace(s[|s| - 1]) then s
    else
      var r := TrimEnd(s[..|s| - 1]);
      assert forall k :: 0 <= k < |s| - 1 ==> s[..|s| - 1][k] == s[k];
      r
  }

  /** `r` is `s[i..j]`, and only whitespace lies outside that slice. */
  predicate IsCoreSlice(s: string, r: string, i: int, j: int) {
    && 0 <= i <= j <= |s| && |r| == j - i
    && IsRunAt(s, r, i)
    && WhitespaceBetween(s, 0, i)
    && WhitespaceBetween(s, j, |s|)
  }

  /** `r` neither starts nor ends with whitespace. */
  predicate HasVisibleEnds(r: string) {
    r == [] || (!IsWhitespace(r[0]) && !IsWhitespace(r[|r| - 1]))
  }

  /** `s.trim()`: the slice of `s` left once both ends lose their whitespace. */
  function Trim(s: string): (r: string)
    ensures exists i, j :: IsCoreSlice(s, r, i, j)
    ensures HasVisibleEnds(r)
  {
    var a := TrimStart(s);
    var r := TrimEnd(a);
    RunOfRun(s, a, r);
    r
  }

  /** Taking whitespace off the front of `s` and then off the back of the
      result leaves a core slice of `s` with visible characters at both ends. */
  lemma RunOfRun(s: string, a: string, r: string)
    requires IsRunAt(s, a, |s| - |a|) && WhitespaceBetween(s, 0, |s| - |a|)
    requires a == [] || !IsWhitespace(a[0])
    requires IsRunAt(a, r, 0) && WhitespaceBetween(a, |r|, |a|)
    requires r == [] || !IsWhitespace(r[|r| - 1])
    ensures IsCoreSlice(s, r, |s| - |a|, |s| - |a| + |r|)
    ensures HasVisibleEnds(r)
  {
    var i := |s| - |a|;
    forall k | i + |r| <= k < |s| ensures IsWhitespace(s[k]) {
      assert s[k] == a[k - i];
    }
    if r != [] {
      assert r[0] == a[0];
    }
  }

  /** `s.trim() === ''` exactly when every character of `s` is whitespace. */
  lemma TrimEmptyIffAllWhitespace(s: string)
    ensures Trim(s) == [] <==> AllWhitespace(s)
  {
    var r := Trim(s);
    var i, j :| IsCoreSlice(s, r, i, j);
    if r == [] {
      forall k | 0 <= k < |s| ensures IsWhitespace(s[k]) {
        assert k < i || j <= k;
      }
    } else {
      assert r[0] == s[i];
    }
  }

  /** A description with a visible character keeps one after trimming. */
  lemma TrimKeepsVisible(s: string)
    requires !AllWhitespace(s)
    ensures !AllWhitespace(Trim(s))
  {
    TrimEmptyIffAllWhitespace(s);
    assert !IsWhitespace(Trim(s)[0]);
  }

  /** Trimming an already trimmed string changes nothing. */
  lemma TrimIdempotent(s: string)
    ensures Trim(Trim(s)) == Trim(s)
  {
    var r := Trim(s);
    if r != [] {
      assert TrimStart(r) == r;
      assert TrimEnd(r) == r;
    }
  }
}
