/**
 * String helpers with JavaScript semantics: `String.prototype.trim` and the
 * "blank after trim" test `!s.trim()` that every form validator uses.
 */
module Text {

  /** The characters `trim` strips: ECMAScript WhiteSpace and LineTerminator. */
  predicate IsWhitespace(c: char) {
    || c == '\U{0009}' || c == '\U{000A}' || c == '\U{000B}' || c == '\U{000C}'
    || c == '\U{000D}' || c == '\U{0020}' || c == '\U{00A0}' || c == '\U{1680}'
    || ('\U{2000}' <= c <= '\U{200A}')
    || c == '\U{2028}' || c == '\U{2029}' || c == '\U{202F}' || c == '\U{205F}'
    || c == '\U{3000}' || c == '\U{FEFF}'
  }

  predicate AllWhitespace(s: string) {
    forall i :: 0 <= i < |s| ==> IsWhitespace(s[i])
  }

  /** How many whitespace characters `s` starts with. */
  function LeadingWhitespace(s: string): (k: nat)
    ensures k <= |s|
  {
    if s == [] || !IsWhitespace(s[0]) then 0 else 1 + LeadingWhitespace(s[1..])
  }

  /** How many whitespace characters `s` ends with. */
  function TrailingWhitespace(s: string): (k: nat)
    ensures k <= |s|
  {
    if s == [] || !IsWhitespace(s[|s| - 1]) then 0 else 1 + TrailingWhitespace(s[..|s| - 1])
  }

  /** Drops the leading whitespace. */
  function TrimStart(s: string): string {
    s[LeadingWhitespace(s)..]
  }

  /** Drops the trailing whitespace. */
  function TrimEnd(s: string): string {
    s[..|s| - TrailingWhitespace(s)]
  }

  /** `s.trim()`. */
  function Trim(s: string): string {
    TrimEnd(TrimStart(s))
  }

  /** `!s.trim()` in the source: the trimmed string is empty. */
  predicate IsBlank(s: string) {
    Trim(s) == []
  }

  /** The leading run holds only whitespace, and the character after it is not whitespace. */
  lemma {:induction false} LeadingWhitespaceStops(s: string)
    ensures AllWhitespace(s[..LeadingWhitespace(s)])
    ensures LeadingWhitespace(s) == |s| || !IsWhitespace(s[LeadingWhitespace(s)])
  {
    if s != [] && IsWhitespace(s[0]) {
      LeadingWhitespaceStops(s[1..]);
      var k := LeadingWhitespace(s);
      assert forall i :: 1 <= i < k ==> s[..k][i] == s[1..][..k - 1][i - 1];
      assert k == |s| || s[k] == s[1..][k - 1];
    }
  }

  /** The trailing run holds only whitespace, and the character before it is not whitespace. */
  lemma {:induction false} TrailingWhitespaceStops(s: string)
    ensures AllWhitespace(s[|s| - TrailingWhitespace(s)..])
    ensures TrailingWhitespace(s) == |s| || !IsWhitespace(s[|s| - TrailingWhitespace(s) - 1])
  {
    if s != [] && IsWhitespace(s[|s| - 1]) {
      var p := s[..|s| - 1];
      TrailingWhitespaceStops(p);
      var k := TrailingWhitespace(s);
      var run, shorter := s[|s| - k..], p[|p| - (k - 1)..];
      assert forall i :: 0 <= i < k - 1 ==> run[i] == shorter[i];
      assert k == |s| || s[|s| - k - 1] == p[|p| - (k - 1) - 1];
    }
  }

  /** A string is blank exactly when every one of its characters is whitespace. */
  lemma BlankIffAllWhitespace(s: string)
    ensures IsBlank(s) <==> AllWhitespace(s)
  {
    var t := TrimStart(s);
    LeadingWhitespaceStops(s);
    TrailingWhitespaceStops(t);
    if t != [] {
      // `t` starts with a character that is not whitespace, so `TrimEnd` keeps it.
      assert t[0] == s[LeadingWhitespace(s)];
      assert TrailingWhitespace(t) < |t|;
      assert !AllWhitespace(s) by {
        assert s[LeadingWhitespace(s)] == t[0];
      }
    } else {
      assert s[..LeadingWhitespace(s)] == s;
    }
  }

  /**
   * Trimming keeps exactly the characters between the first and the last
   * non-whitespace one: `Trim(s)` is the slice of `s` that starts after the
   * leading whitespace, with only whitespace before and after it, and it
   * starts and ends with a character that is not whitespace.
   */
  lemma TrimKeepsInnerText(s: string)
    ensures var i := LeadingWhitespace(s);
            var j := i + |Trim(s)|;
            && j <= |s| && Trim(s) == s[i..j]
            && AllWhitespace(s[..i]) && AllWhitespace(s[j..])
            && (i < j ==> !IsWhitespace(s[i]) && !IsWhitespace(s[j - 1]))
  {
    var i := LeadingWhitespace(s);
    var t := s[i..];
    var m := TrailingWhitespace(t);
    var j := |s| - m;
    LeadingWhitespaceStops(s);
    TrailingWhitespaceStops(t);
    assert Trim(s) == t[..|t| - m] == s[i..j];
    assert s[j..] == t[|t| - m..];
    if i < j {
      assert s[j - 1] == t[|t| - m - 1];
    }
  }
}
