// The whitespace that `String.prototype.trim` strips and that the character class
// `\s` matches: ECMAScript WhiteSpace and LineTerminator code points.
module Whitespace {

  predicate IsWs(c: char) {
    || c == '\t' || c == '\n' || c == '\U{000B}' || c == '\U{000C}' || c == '\r' || c == ' '
    || c == '\U{00A0}' || c == '\U{1680}' || ('\U{2000}' <= c <= '\U{200A}')
    || c == '\U{2028}' || c == '\U{2029}' || c == '\U{202F}' || c == '\U{205F}'
    || c == '\U{3000}' || c == '\U{FEFF}'
  }

  // Length of the match of the leading-whitespace regular expression: the longest
  // all-whitespace prefix of `s`.
  function LeadingSpaceLength(s: string): (n: nat)
    ensures n <= |s|
    ensures forall i :: 0 <= i < n ==> IsWs(s[i])
    ensures n < |s| ==> !IsWs(s[n])
  {
    if |s| > 0 && IsWs(s[0]) then 1 + LeadingSpaceLength(s[1..]) else 0
  }

  /** Length of the longest all-whitespace suffix of `s`. */
  function TrailingSpaceLength(s: string): (n: nat)
    ensures n <= |s|
    ensures forall i :: |s| - n <= i < |s| ==> IsWs(s[i])
    ensures n < |s| ==> !IsWs(s[|s| - 1 - n])
  {
    if |s| > 0 && IsWs(s[|s| - 1]) then 1 + TrailingSpaceLength(s[..|s| - 1]) else 0
  }

  /** `s.trim()`: the part of `s` between its leading and its trailing whitespace. */
  function Trim(s: string): (r: string)
    ensures LeadingSpaceLength(s) + |r| <= |s|
    ensures r == s[LeadingSpaceLength(s)..LeadingSpaceLength(s) + |r|]
    ensures forall i :: LeadingSpaceLength(s) + |r| <= i < |s| ==> IsWs(s[i])
    ensures r != [] ==> !IsWs(r[0]) && !IsWs(r[|r| - 1])
  {
    var rest := s[LeadingSpaceLength(s)..];
    rest[..|rest| - TrailingSpaceLength(rest)]
  }

  /** Trimming twice is trimming once, so trimming an already trimmed template changes nothing. */
  lemma TrimIdempotent(s: string)
    ensures Trim(Trim(s)) == Trim(s)
  {
  }

  /** Offset `p` in the trimmed text is offset `p + LeadingSpaceLength(s)` in the original text. */
  lemma TrimmedOffset(s: string, p: int)
    requires 0 <= p < |Trim(s)|
    ensures p + LeadingSpaceLength(s) < |s|
    ensures s[p + LeadingSpaceLength(s)] == Trim(s)[p]
  {
  }
}
