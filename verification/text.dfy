/** JavaScript's `String.prototype.trim`, used by the tag editor. */
module Text {

  /** The code points `trim` removes: the ECMAScript WhiteSpace set (tab,
      vertical tab, form feed, the byte-order mark and every space separator)
      and the LineTerminator set (line feed, carriage return, line and
      paragraph separators). */
  predicate IsJsWhitespace(c: char) {
    || c == '\t' || c == '\n' || c == '\U{000B}' || c == '\U{000C}' || c == '\r'
    || c == ' ' || c == '\U{00A0}' || c == '\U{1680}'
    || ('\U{2000}' <= c <= '\U{200A}')
    || c == '\U{2028}' || c == '\U{2029}' || c == '\U{202F}' || c == '\U{205F}'
    || c == '\U{3000}' || c == '\U{FEFF}'
  }

  predicate AllWhitespace(s: string) {
    forall k :: 0 <= k < |s| ==> IsJsWhitespace(s[k])
  }

  /** The first index at or after `i` that does not hold whitespace (or `|s|`). */
  function SkipLeading(s: string, i: nat): (j: nat)
    requires i <= |s|
    ensures i <= j <= |s|
    ensures forall k :: i <= k < j ==> IsJsWhitespace(s[k])
    ensures j < |s| ==> !IsJsWhitespace(s[j])
    decreases |s| - i
  {
    if i < |s| && IsJsWhitespace(s[i]) then SkipLeading(s, i + 1) else i
  }

  /** The least index `j` in `lo..hi` such that `s[j..hi]` is all whitespace. */
  function SkipTrailing(s: string, lo: nat, hi: nat): (j: nat)
    requires lo <= hi <= |s|
    ensures lo <= j <= hi
    ensures forall k :: j <= k < hi ==> IsJsWhitespace(s[k])
    ensures j > lo ==> !IsJsWhitespace(s[j - 1])
    decreases hi
  {
    if hi > lo && IsJsWhitespace(s[hi - 1]) then SkipTrailing(s, lo, hi - 1) else hi
  }

  /** `s` without leading or trailing whitespace. After the leading whitespace
      is dropped the result is a prefix of what is left, followed only by
      whitespace; it is empty exactly when `s` is all whitespace, and otherwise
      begins and ends with a non-whitespace character. */
  function Trim(s: string): (r: string)
    ensures var rest := s[SkipLeading(s, 0)..]; r <= rest && AllWhitespace(rest[|r|..])
    ensures r == [] <==> AllWhitespace(s)
    ensures r != [] ==> !IsJsWhitespace(r[0]) && !IsJsWhitespace(r[|r| - 1])
  {
    var i := SkipLeading(s, 0);
    var j := SkipTrailing(s, i, |s|);
    assert i < |s| ==> j > i;
    s[i..j]
  }

  /** Trimming an already trimmed string changes nothing. */
  lemma TrimIdempotent(s: string)
    ensures Trim(Trim(s)) == Trim(s)
  {
  }
}
