/** The string methods the core calls: `toLowerCase`, `toUpperCase` (on the
    ASCII letters) and `trim` (on ECMAScript white space and line terminators). */
module JsStrings {

  predicate IsAsciiUpper(c: char) { 'A' <= c <= 'Z' }

  predicate IsAsciiLower(c: char) { 'a' <= c <= 'z' }

  function LowerChar(c: char): char {
    if IsAsciiUpper(c) then (c as int + 32) as char else c
  }

  function UpperChar(c: char): char {
    if IsAsciiLower(c) then (c as int - 32) as char else c
  }

  /** `s.toLowerCase()`: same length, every upper-case letter lowered, nothing else touched. */
  function ToLowerCase(s: string): (r: string)
    ensures |r| == |s|
    ensures forall i | 0 <= i < |s| :: !IsAsciiUpper(r[i])
    // each capital becomes its lower-case letter, 32 code points further on
    ensures forall i | 0 <= i < |s| :: IsAsciiUpper(s[i]) ==> r[i] as int == s[i] as int + 32
    ensures forall i | 0 <= i < |s| :: IsAsciiUpper(s[i]) || r[i] == s[i]
  {
    seq(|s|, i requires 0 <= i < |s| => LowerChar(s[i]))
  }

  /** `s.toUpperCase()`: same length, every lower-case letter raised, nothing else touched. */
  function ToUpperCase(s: string): (r: string)
    ensures |r| == |s|
    ensures forall i | 0 <= i < |s| :: !IsAsciiLower(r[i])
    // each lower-case letter becomes its capital, 32 code points back
    ensures forall i | 0 <= i < |s| :: IsAsciiLower(s[i]) ==> r[i] as int == s[i] as int - 32
    ensures forall i | 0 <= i < |s| :: IsAsciiLower(s[i]) || r[i] == s[i]
  {
    seq(|s|, i requires 0 <= i < |s| => UpperChar(s[i]))
  }

  /** Lower-casing forgets an earlier upper-casing: a case-insensitive
      comparison by `toLowerCase` cannot tell `b` from `b.toUpperCase()`. */
  lemma LowerOfUpper(s: string)
    ensures ToLowerCase(ToUpperCase(s)) == ToLowerCase(s)
  {
    var u := ToUpperCase(s);
    forall i | 0 <= i < |s|
      ensures ToLowerCase(u)[i] == ToLowerCase(s)[i]
    {
      assert u[i] == UpperChar(s[i]);
    }
  }

  /** The characters `String.prototype.trim` strips: ECMAScript WhiteSpace
      (tab, vertical tab, form feed, space, no-break space, byte-order mark and
      the space separators) and LineTerminator (LF, CR, U+2028, U+2029). */
  predicate IsJsWhitespace(c: char) {
    var n := c as int;
    n == 0x09 || n == 0x0A || n == 0x0B || n == 0x0C || n == 0x0D || n == 0x20
    || n == 0xA0 || n == 0x1680 || (0x2000 <= n <= 0x200A) || n == 0x2028
    || n == 0x2029 || n == 0x202F || n == 0x205F || n == 0x3000 || n == 0xFEFF
  }

  /** The index of the first character at or after `from` that is not
      white space (|s| when there is none). */
  function SpanStart(s: string, from: nat): (n: nat)
    requires from <= |s|
    ensures from <= n <= |s|
    ensures forall i | from <= i < n :: IsJsWhitespace(s[i])
    ensures n == |s| || !IsJsWhitespace(s[n])
    decreases |s| - from
  {
    if from < |s| && IsJsWhitespace(s[from]) then SpanStart(s, from + 1) else from
  }

  /** One past the index of the last character before `to` that is not
      white space (0 when there is none). */
  function SpanEnd(s: string, to: nat): (n: nat)
    requires to <= |s|
    ensures n <= to
    ensures forall i | n <= i < to :: IsJsWhitespace(s[i])
    ensures n == 0 || !IsJsWhitespace(s[n - 1])
  {
    if to > 0 && IsJsWhitespace(s[to - 1]) then SpanEnd(s, to - 1) else to
  }

  /** `s.trim()`: empty exactly when s is all white space; otherwise the
      part of s between a white-space prefix and a white-space suffix, which
      starts and ends with a non-space character. */
  function Trim(s: string): (r: string)
    ensures |r| <= |s|
    ensures r == [] <==> forall i | 0 <= i < |s| :: IsJsWhitespace(s[i])
    ensures r == [] || (!IsJsWhitespace(r[0]) && !IsJsWhitespace(r[|r| - 1]))
    // r is s less its leading white space (SpanStart(s, 0) characters) and its trailing white space
    ensures r != [] ==> var a := SpanStart(s, 0);
      && a + |r| <= |s|
      && (forall i | 0 <= i < |r| :: r[i] == s[a + i])
      && (forall i | 0 <= i < a :: IsJsWhitespace(s[i]))
      && (forall i | a + |r| <= i < |s| :: IsJsWhitespace(s[i]))
  {
    var start := SpanStart(s, 0);
    if start == |s| then []
    else
      var end := SpanEnd(s, |s|);
      // s[start] is not white space, so the trailing scan stops after it
      assert start < end;
      s[start..end]
  }

  /** Trimming twice is trimming once. */
  lemma TrimIdempotent(s: string)
    ensures Trim(Trim(s)) == Trim(s)
  {
    var r := Trim(s);
    if r != [] {
      assert SpanStart(r, 0) == 0;
      assert SpanEnd(r, |r|) == |r|;
    }
  }
}
