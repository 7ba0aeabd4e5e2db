/** Text helpers: Python's `str.strip()` with no argument, and substring search. */
module Text {

  /** The characters for which Python's `str.isspace()` holds. */
  predicate IsSpace(c: char)
  {
    || c == ' '
    || ('\t' <= c && c <= '\r')            // \t \n \v \f \r
    || ('\U{1C}' <= c && c <= '\U{1F}')    // file, group, record and unit separators
    || c == '\U{85}' || c == '\U{A0}' || c == '\U{1680}'
    || ('\U{2000}' <= c && c <= '\U{200A}')
    || c == '\U{2028}' || c == '\U{2029}' || c == '\U{202F}' || c == '\U{205F}' || c == '\U{3000}'
  }

  predicate AllSpace(s: string)
  {
    forall k :: 0 <= k < |s| ==> IsSpace(s[k])
  }

  /** Number of whitespace characters at the start of `s`. */
  function LeadingSpaces(s: string): (n: nat)
    ensures n <= |s|
    ensures AllSpace(s[..n])
    ensures n < |s| ==> !IsSpace(s[n])
  {
    if s != [] && IsSpace(s[0]) then
      var m := LeadingSpaces(s[1..]);
      assert s[..1 + m] == [s[0]] + s[1..][..m];
      1 + m
    else 0
  }

  /** Number of whitespace characters at the end of `s`. */
  function TrailingSpaces(s: string): (n: nat)
    ensures n <= |s|
    ensures AllSpace(s[|s| - n..])
    ensures n < |s| ==> !IsSpace(s[|s| - 1 - n])
  {
    if s != [] && IsSpace(s[|s| - 1]) then
      var t := s[..|s| - 1];
      var m := TrailingSpaces(t);
      assert s[|s| - (1 + m)..] == t[|t| - m..] + [s[|s| - 1]];
      1 + m
    else 0
  }

  /** `s.strip()`: `s` without its leading and trailing whitespace. */
  function Strip(s: string): (r: string)
    ensures |r| <= |s|
    ensures r != [] ==> !IsSpace(r[0]) && !IsSpace(r[|r| - 1])
  {
    var t := s[LeadingSpaces(s)..];
    t[..|t| - TrailingSpaces(t)]
  }

  /** The stripped string is the middle of `s`: everything before and after it is whitespace. */
  lemma StripIsMiddle(s: string)
    ensures var i := LeadingSpaces(s);
            && i + |Strip(s)| <= |s|
            && Strip(s) == s[i..i + |Strip(s)|]
            && AllSpace(s[..i])
            && AllSpace(s[i + |Strip(s)|..])
  {
    var i := LeadingSpaces(s);
    var t := s[i..];
    var n := TrailingSpaces(t);
    var r := Strip(s);
    assert r == t[..|t| - n];
    assert i + |r| == |s| - n;
    assert s[i..i + |r|] == r;
    assert s[i + |r|..] == t[|t| - n..];
  }

  /** `not s.strip()` holds exactly when `s` is empty or whitespace only. */
  lemma StripEmptyIffAllSpace(s: string)
    ensures Strip(s) == [] <==> AllSpace(s)
  {
  }

  /** A string with no whitespace at either end is its own stripped form. */
  lemma StripOfTrimmed(s: string)
    requires s != [] && !IsSpace(s[0]) && !IsSpace(s[|s| - 1])
    ensures Strip(s) == s
  {
  }

  /** Stripping twice is stripping once. */
  lemma StripIdempotent(s: string)
    ensures Strip(Strip(s)) == Strip(s)
  {
  }

  /** `pat` occurs in `s` starting at position `i`. */
  predicate OccursAt(s: string, pat: string, i: nat)
  {
    i + |pat| <= |s| && s[i..i + |pat|] == pat
  }

  /** `pat in s` for strings: `pat` occurs in `s` at some position. */
  predicate Contains(s: string, pat: string): (b: bool)
    ensures b <==> exists i: nat :: OccursAt(s, pat, i)
    decreases |s|
  {
    if |pat| > |s| then false
    else if s[..|pat|] == pat then
      assert OccursAt(s, pat, 0);
      true
    else
      NotAtStart(s, pat);
      Contains(s[1..], pat)
  }

  /** When `pat` does not start `s`, it occurs in `s` exactly when it occurs in `s[1..]`. */
  lemma NotAtStart(s: string, pat: string)
    requires s != [] && !OccursAt(s, pat, 0)
    ensures (exists i: nat :: OccursAt(s, pat, i)) <==> (exists i: nat :: OccursAt(s[1..], pat, i))
  {
    forall i: nat | i >= 1
      ensures OccursAt(s, pat, i) <==> OccursAt(s[1..], pat, i - 1)
    {
      if i + |pat| <= |s| {
        assert s[i..i + |pat|] == s[1..][i - 1..i - 1 + |pat|];
      }
    }
    if exists i: nat :: OccursAt(s, pat, i) {
      var i: nat :| OccursAt(s, pat, i);
      assert i >= 1;
      assert OccursAt(s[1..], pat, i - 1);
    }
    if exists i: nat :: OccursAt(s[1..], pat, i) {
      var i: nat :| OccursAt(s[1..], pat, i);
      assert OccursAt(s, pat, i + 1);
    }
  }
}
