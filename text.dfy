/**
 * The one piece of string handling the chat session relies on: JavaScript's
 * `String.prototype.trim`, used by the join and send guards to decide whether
 * a display name or a draft is "blank".
 */
module Text {

  /** The code points ECMAScript's trim strips: WhiteSpace (tab, vertical tab,
      form feed, no-break space, byte order mark and every code point of
      general category Zs) and LineTerminator (LF, CR, U+2028, U+2029). */
  predicate IsWhitespace(c: char) {
    var n := c as int;
    n == 0x09 || n == 0x0A || n == 0x0B || n == 0x0C || n == 0x0D
    || n == 0x20 || n == 0xA0 || n == 0x1680 || (0x2000 <= n <= 0x200A)
    || n == 0x2028 || n == 0x2029 || n == 0x202F || n == 0x205F
    || n == 0x3000 || n == 0xFEFF
  }

  predicate AllWhitespace(s: string) {
    forall k :: 0 <= k < |s| ==> IsWhitespace(s[k])
  }

  /** Length of the longest whitespace prefix of `s`. */
  function LeadingWhitespace(s: string): (n: nat)
    ensures n <= |s|
    ensures AllWhitespace(s[..n])
    ensures n == |s| || !IsWhitespace(s[n])
  {
    if s != [] && IsWhitespace(s[0]) then
      var m := LeadingWhitespace(s[1..]);
      assert s[..m + 1] == [s[0]] + s[1..][..m];
      m + 1
    else
      0
  }

  /** Length of the longest whitespace suffix of `s`. */
  function TrailingWhitespace(s: string): (n: nat)
    ensures n <= |s|
    ensures AllWhitespace(s[|s| - n..])
    ensures n == |s| || !IsWhitespace(s[|s| - n - 1])
  {
    if s != [] && IsWhitespace(s[|s| - 1]) then
      var m := TrailingWhitespace(s[..|s| - 1]);
      assert s[|s| - (m + 1)..] == s[..|s| - 1][|s| - 1 - m..] + [s[|s| - 1]];
      m + 1
    else
      0
  }

  /** `s.trim()`: `s` without its whitespace prefix and suffix. The result is
      the slice of `s` that starts at the first non-whitespace character and
      ends at the last one, and it is empty exactly when `s` is all
      whitespace. */
  function Trim(s: string): (r: string)
    ensures LeadingWhitespace(s) + |r| <= |s|
    ensures r == s[LeadingWhitespace(s)..LeadingWhitespace(s) + |r|]
    ensures AllWhitespace(s[LeadingWhitespace(s) + |r|..])
    ensures r == [] <==> AllWhitespace(s)
    ensures r != [] ==> !IsWhitespace(r[0]) && !IsWhitespace(r[|r| - 1])
  {
    var a := LeadingWhitespace(s);
    var t := s[a..];
    var b := TrailingWhitespace(t);
    assert s[a + (|t| - b)..] == t[|t| - b..];
    if b == |t| then
      WhitespaceJoin(s, a);
      []
    else
      t[..|t| - b]
  }

  lemma WhitespaceJoin(s: string, a: nat)
    requires a <= |s|
    requires AllWhitespace(s[..a]) && AllWhitespace(s[a..])
    ensures AllWhitespace(s)
  {
    forall k | 0 <= k < |s| ensures IsWhitespace(s[k]) {
      if k < a { assert s[k] == s[..a][k]; } else { assert s[k] == s[a..][k - a]; }
    }
  }

  /** The join and send guard `s.trim() !== ""`: true exactly when `s` holds
      at least one non-whitespace character. */
  predicate HasContent(s: string)
    ensures HasContent(s) <==> exists k :: 0 <= k < |s| && !IsWhitespace(s[k])
  {
    Trim(s) != []
  }
}
