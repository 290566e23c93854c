/** The string operations the call handler relies on: Python's `str.isspace`,
    `str.startswith` and `str.strip()` with no argument. */
module Text {

  /** Python's `str.isspace` on one character: the characters `strip()` removes. */
  predicate IsWhitespace(c: char) {
    ('\U{9}' <= c <= '\U{d}') || ('\U{1c}' <= c <= '\U{20}') || c == '\U{85}' || c == '\U{a0}'
    || c == '\U{1680}' || ('\U{2000}' <= c <= '\U{200a}') || c == '\U{2028}' || c == '\U{2029}'
    || c == '\U{202f}' || c == '\U{205f}' || c == '\U{3000}'
  }

  /** Every character of `s` from index `lo` up to (not including) `hi` is whitespace. */
  predicate WhitespaceBetween(s: string, lo: int, hi: int)
    requires 0 <= lo <= hi <= |s|
  {
    forall i :: lo <= i < hi ==> IsWhitespace(s[i])
  }

  /** Neither end of `r` is whitespace. */
  predicate Trimmed(r: string) {
    r == [] || (!IsWhitespace(r[0]) && !IsWhitespace(r[|r| - 1]))
  }

  /** `s[lo..hi]` is what remains of `s` once whitespace is cut from both ends. */
  predicate StrippedAt(s: string, lo: int, hi: int) {
    0 <= lo <= hi <= |s| && WhitespaceBetween(s, 0, lo) && WhitespaceBetween(s, hi, |s|)
    && (lo < hi ==> !IsWhitespace(s[lo]) && !IsWhitespace(s[hi - 1]))
  }

  /** Python's `s.startswith(prefix)`. */
  predicate StartsWith(s: string, prefix: string) {
    prefix <= s
  }

  /** The index of the first non-whitespace character of `s` at or after `i`, or `|s|`. */
  function SkipWhitespace(s: string, i: nat): (k: nat)
    requires i <= |s|
    ensures i <= k <= |s| && WhitespaceBetween(s, i, k)
    ensures k < |s| ==> !IsWhitespace(s[k])
    decreases |s| - i
  {
    if i < |s| && IsWhitespace(s[i]) then SkipWhitespace(s, i + 1) else i
  }

  /** The end of `s[lo..j]` once its trailing whitespace is cut off. */
  function SkipWhitespaceBack(s: string, lo: nat, j: nat): (k: nat)
    requires lo <= j <= |s|
    ensures lo <= k <= j && WhitespaceBetween(s, k, j)
    ensures lo < k ==> !IsWhitespace(s[k - 1])
  {
    if lo < j && IsWhitespace(s[j - 1]) then SkipWhitespaceBack(s, lo, j - 1) else j
  }

  /** Python's `s.strip()`: the leading and the trailing whitespace removed. */
  function Strip(s: string): (r: string)
    ensures Trimmed(r)
    ensures |r| <= |s|
  {
    var lo := SkipWhitespace(s, 0);
    s[lo..SkipWhitespaceBack(s, lo, |s|)]
  }

  /** What `strip()` keeps is the part of `s` between its leading and trailing whitespace. */
  lemma StripBounds(s: string) returns (lo: nat, hi: nat)
    ensures StrippedAt(s, lo, hi) && Strip(s) == s[lo..hi]
  {
    lo := SkipWhitespace(s, 0);
    hi := SkipWhitespaceBack(s, lo, |s|);
    if lo == hi {
      assert WhitespaceBetween(s, hi, |s|);
    }
  }

  /** The cut is unique: any way of cutting whitespace off both ends of `s` that leaves
      no whitespace at either end gives what `strip()` returns. */
  lemma StripUnique(s: string, lo: int, hi: int)
    requires StrippedAt(s, lo, hi)
    ensures Strip(s) == s[lo..hi]
  {
    var lo', hi' := StripBounds(s);
    if lo < hi && lo' < hi' {
      if lo != lo' || hi != hi' { assert false; }
    } else if lo < hi || lo' < hi' {
      assert false;
    }
  }

  /** Stripping twice is stripping once. */
  lemma StripIdempotent(s: string)
    ensures Strip(Strip(s)) == Strip(s)
  {
    var r := Strip(s);
    assert r[0..|r|] == r;
    StripUnique(r, 0, |r|);
  }

  lemma PaddingKeepsWhitespace(before: string, s: string, after: string, lo: int, hi: int)
    requires WhitespaceBetween(before, 0, |before|) && WhitespaceBetween(after, 0, |after|)
    requires StrippedAt(s, lo, hi)
    ensures StrippedAt(before + s + after, |before| + lo, |before| + hi)
  {
    var p := before + s + after;
    var n := |before|;
    forall i | 0 <= i < n + lo
      ensures IsWhitespace(p[i])
    {
      if i < n { assert p[i] == before[i]; } else { assert p[i] == s[i - n]; }
    }
    forall i | n + hi <= i < |p|
      ensures IsWhitespace(p[i])
    {
      if i < n + |s| { assert p[i] == s[i - n]; } else { assert p[i] == after[i - n - |s|]; }
    }
    if lo < hi {
      assert p[n + lo] == s[lo] && p[n + hi - 1] == s[hi - 1];
    }
  }

  lemma PaddedSlice(before: string, s: string, after: string, lo: int, hi: int)
    requires 0 <= lo <= hi <= |s|
    ensures (before + s + after)[|before| + lo..|before| + hi] == s[lo..hi]
  {
    var p := before + s + after;
    assert forall i :: 0 <= i < hi - lo ==> p[|before| + lo..|before| + hi][i] == s[lo..hi][i];
  }

  /** Whitespace added on either side does not change what `strip()` returns. */
  lemma StripIgnoresPadding(before: string, s: string, after: string)
    requires WhitespaceBetween(before, 0, |before|) && WhitespaceBetween(after, 0, |after|)
    ensures Strip(before + s + after) == Strip(s)
  {
    var lo, hi := StripBounds(s);
    var p := before + s + after;
    var n := |before|;
    PaddingKeepsWhitespace(before, s, after, lo, hi);
    StripUnique(p, n + lo, n + hi);
    PaddedSlice(before, s, after, lo, hi);
  }
}
