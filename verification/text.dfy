/** Character classes and the whitespace trimming of Python's `str.strip()`. */
module Text {
  import opened Seqs

  predicate IsDigit(c: char) {
    '0' <= c <= '9'
  }

  function DigitValue(c: char): (d: nat)
    requires IsDigit(c)
    ensures d <= 9
  {
    (c as int) - ('0' as int)
  }

  /** The characters `str.strip()` removes: those Python's `str.isspace()`
      accepts (the ASCII controls 9-13 and 28-31, the space, and the Unicode
      separators and spaces). */
  predicate IsSpace(c: char) {
    || '\t' <= c <= '\r'
    || '\U{1C}' <= c <= '\U{1F}'
    || c == ' ' || c == '\U{85}' || c == '\U{A0}' || c == '\U{1680}'
    || '\U{2000}' <= c <= '\U{200A}'
    || c == '\U{2028}' || c == '\U{2029}' || c == '\U{202F}' || c == '\U{205F}' || c == '\U{3000}'
  }

  predicate AllSpace(s: string) {
    forall k :: 0 <= k < |s| ==> IsSpace(s[k])
  }

  /** The number of whitespace characters at the front of `s`. */
  function LeadingSpaces(s: string): (n: nat)
    ensures n <= |s|
    ensures AllSpace(s[..n])
    ensures n == |s| || !IsSpace(s[n])
  {
    if |s| > 0 && IsSpace(s[0]) then 1 + LeadingSpaces(s[1..]) else 0
  }

  /** The number of whitespace characters at the back of `s`. */
  function TrailingSpaces(s: string): (n: nat)
    ensures n <= |s|
    ensures AllSpace(s[|s| - n..])
    ensures n == |s| || !IsSpace(s[|s| - n - 1])
  {
    if |s| > 0 && IsSpace(s[|s| - 1]) then 1 + TrailingSpaces(s[..|s| - 1]) else 0
  }

  /** `r` neither starts nor ends with whitespace. */
  predicate NoSpaceAtEnds(r: string) {
    r == [] || (!IsSpace(r[0]) && !IsSpace(r[|r| - 1]))
  }

  /** `r` is `s` less a whitespace prefix and a whitespace suffix, and
      neither starts nor ends with whitespace; this determines `r`. */
  ghost predicate IsStripped(s: string, r: string) {
    && NoSpaceAtEnds(r)
    && exists pre, post :: s == pre + r + post && AllSpace(pre) && AllSpace(post)
  }

  /** `s.strip()`: `s` with whitespace removed from both ends. */
  function Trim(s: string): (r: string)
    ensures |r| <= |s|
    ensures IsStripped(s, r)
  {
    var a := LeadingSpaces(s);
    var b := TrailingSpaces(s[a..]);
    TrimSplit(s, a, b);
    s[a..|s| - b]
  }

  lemma TrimSplit(s: string, a: nat, b: nat)
    requires a == LeadingSpaces(s) && b == TrailingSpaces(s[a..])
    ensures a <= |s| - b && IsStripped(s, s[a..|s| - b])
  {
    TrimEnds(s, a, b);
    Split3(s, a, |s| - b);
    StrippedBy(s, s[..a], s[a..|s| - b], s[|s| - b..]);
  }

  /** Explicit whitespace cuts at both ends witness a strip. */
  lemma StrippedBy(s: string, pre: string, r: string, post: string)
    requires s == pre + r + post && AllSpace(pre) && AllSpace(post)
    requires NoSpaceAtEnds(r)
    ensures IsStripped(s, r)
  {
  }

  lemma TrimEnds(s: string, a: nat, b: nat)
    requires a == LeadingSpaces(s) && b == TrailingSpaces(s[a..])
    ensures a <= |s| - b && AllSpace(s[|s| - b..])
    ensures NoSpaceAtEnds(s[a..|s| - b])
  {
    TrimBack(s, a, b);
    if a < |s| - b {
      TrimLast(s, a, b);
      SliceEnds(s, a, |s| - b);
    }
  }

  /** A slice whose first and last characters are not whitespace. */
  lemma SliceEnds(s: string, i: nat, j: nat)
    requires i < j <= |s| && !IsSpace(s[i]) && !IsSpace(s[j - 1])
    ensures NoSpaceAtEnds(s[i..j])
  {
    var r := s[i..j];
    assert r[0] == s[i] && r[|r| - 1] == s[j - 1];
  }

  /** What is cut at the back lies after what is cut at the front, and is
      all whitespace. */
  lemma TrimBack(s: string, a: nat, b: nat)
    requires a <= |s| && b == TrailingSpaces(s[a..])
    ensures a <= |s| - b && AllSpace(s[|s| - b..])
  {
    BackOfSuffix(s, a, b);
  }

  /** The last character kept is not whitespace. */
  lemma TrimLast(s: string, a: nat, b: nat)
    requires a <= |s| && b == TrailingSpaces(s[a..]) && a + b < |s|
    ensures !IsSpace(s[|s| - b - 1])
  {
    BackOfSuffix(s, a, b);
  }
}
