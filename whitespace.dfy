/** Rust's `str::trim`: removal of leading and trailing white space, where
    white space is `char::is_whitespace`, the Unicode White_Space property. */
module Whitespace {

  /** `char::is_whitespace`: the 25 code points with the Unicode White_Space
      property. */
  predicate IsWhitespace(c: char)
    ensures c < '\U{80}' ==> (IsWhitespace(c) <==> c in " \t\n\U{B}\U{C}\r")
  {
    ('\U{9}' <= c <= '\U{D}') || c == ' ' || c == '\U{85}' || c == '\U{A0}'
    || c == '\U{1680}' || ('\U{2000}' <= c <= '\U{200A}') || c == '\U{2028}'
    || c == '\U{2029}' || c == '\U{202F}' || c == '\U{205F}' || c == '\U{3000}'
  }

  /** Every character of `s` from index `lo` up to `hi` is white space. */
  predicate WhitespaceBetween(s: string, lo: int, hi: int)
    requires 0 <= lo <= hi <= |s|
  {
    forall k :: lo <= k < hi ==> IsWhitespace(s[k])
  }

  predicate AllWhitespace(s: string) {
    WhitespaceBetween(s, 0, |s|)
  }

  /** Neither the first nor the last character is white space. */
  predicate IsTrimmed(r: string) {
    r == [] || (!IsWhitespace(r[0]) && !IsWhitespace(r[|r| - 1]))
  }

  /** `s[i..j]` is a trimmed window of `s` with only white space around it:
      the reference description of what trimming keeps. */
  predicate IsTrimWindow(s: string, i: int, j: int) {
    && 0 <= i <= j <= |s|
    && WhitespaceBetween(s, 0, i)
    && WhitespaceBetween(s, j, |s|)
    && (i < j ==> !IsWhitespace(s[i]) && !IsWhitespace(s[j - 1]))
  }

  /** Number of white-space characters at the front of `s`. */
  function LeadingWhitespace(s: string): (n: nat)
    ensures n <= |s|
    ensures WhitespaceBetween(s, 0, n)
    ensures n < |s| ==> !IsWhitespace(s[n])
  {
    if s == [] || !IsWhitespace(s[0]) then 0
    else
      var n := 1 + LeadingWhitespace(s[1..]);
      assert forall k :: 1 <= k < n ==> s[k] == s[1..][k - 1];
      n
  }

  /** Number of white-space characters at the back of `s`. */
  function TrailingWhitespace(s: string): (n: nat)
    ensures n <= |s|
    ensures WhitespaceBetween(s, |s| - n, |s|)
    ensures n < |s| ==> !IsWhitespace(s[|s| - n - 1])
  {
    if s == [] || !IsWhitespace(s[|s| - 1]) then 0
    else
      var t := s[..|s| - 1];
      var n := 1 + TrailingWhitespace(t);
      assert forall k :: |s| - n <= k < |s| - 1 ==> s[k] == t[k];
      n
  }

  /** `s.trim()`. */
  function Trim(s: string): (r: string)
    ensures exists i, j :: IsTrimWindow(s, i, j) && r == s[i..j]
    ensures r == [] <==> AllWhitespace(s)
  {
    var i := LeadingWhitespace(s);
    var j := if i == |s| then i else |s| - TrailingWhitespace(s);
    assert IsTrimWindow(s, i, j);
    EmptyWindow(s, i, j);
    s[i..j]
  }

  /** A trimmed window is empty exactly when all of `s` is white space. */
  lemma EmptyWindow(s: string, i: int, j: int)
    requires IsTrimWindow(s, i, j)
    ensures s[i..j] == [] <==> AllWhitespace(s)
  {
  }

  /** A non-empty trimmed window starts at the first and ends after the last
      character that is not white space. */
  lemma WindowIsCanonical(s: string, i: int, j: int)
    requires IsTrimWindow(s, i, j) && i < j
    ensures i == LeadingWhitespace(s)
    ensures j == |s| - TrailingWhitespace(s)
  {
  }

  /** `Trim` agrees with the reference description: whatever trimmed window
      of `s` is chosen, it is what `Trim` returns. */
  lemma TrimIsWindow(s: string, i: int, j: int)
    requires IsTrimWindow(s, i, j)
    ensures Trim(s) == s[i..j]
  {
    EmptyWindow(s, i, j);
    if i < j {
      WindowIsCanonical(s, i, j);
    }
  }

  /** Trimming keeps no white space at either end. */
  lemma TrimIsTrimmed(s: string)
    ensures IsTrimmed(Trim(s))
  {
    var i := LeadingWhitespace(s);
    var j := if i == |s| then i else |s| - TrailingWhitespace(s);
    assert IsTrimWindow(s, i, j);
    TrimIsWindow(s, i, j);
    if i < j {
      assert Trim(s)[0] == s[i] && Trim(s)[|Trim(s)| - 1] == s[j - 1];
    }
  }

  /** A trimmed string is its own trim. */
  lemma TrimOfTrimmed(r: string)
    requires IsTrimmed(r)
    ensures Trim(r) == r
  {
    assert r[0..|r|] == r;
    TrimIsWindow(r, 0, |r|);
  }

  /** Trimming is idempotent. */
  lemma TrimIdempotent(s: string)
    ensures Trim(Trim(s)) == Trim(s)
  {
    TrimIsTrimmed(s);
    TrimOfTrimmed(Trim(s));
  }

  /** Surrounding a trimmed text with white space and trimming gives the text
      back: writing a value with padding and reading it is a round trip. */
  lemma TrimPadded(p: string, v: string, q: string)
    requires AllWhitespace(p) && AllWhitespace(q) && IsTrimmed(v)
    ensures Trim(p + v + q) == v
  {
    var s := p + v + q;
    var i, j := |p|, |p| + |v|;
    assert s[i..j] == v;
    assert forall k :: 0 <= k < i ==> s[k] == p[k];
    assert forall k :: j <= k < |s| ==> s[k] == q[k - j];
    if v != [] {
      assert s[i] == v[0] && s[j - 1] == v[|v| - 1];
    }
    TrimIsWindow(s, i, j);
  }
}
