/**
 * JavaScript's `String.prototype.trim`, as the pages use it: `s.trim() === ''`
 * (or `!s.trim()`) is the test for "nothing but blanks was typed".
 * Strings are sequences of Unicode characters. JavaScript counts a string's
 * length in UTF-16 code units, two for a character outside the Basic
 * Multilingual Plane, and `Utf16Length` counts the same way.
 */
module Text {

  /** The characters `trim` strips: the WhiteSpace and LineTerminator
      productions of ECMA-262 (section 12.2 and 12.3 of ECMAScript 2023). */
  predicate IsWhitespace(c: char) {
    || c == '\t' || c == '\n' || c == '\U{000B}' || c == '\U{000C}' || c == '\r'
    || c == ' ' || c == '\U{00A0}' || c == '\U{1680}'
    || ('\U{2000}' <= c <= '\U{200A}')
    || c == '\U{2028}' || c == '\U{2029}' || c == '\U{202F}' || c == '\U{205F}'
    || c == '\U{3000}' || c == '\U{FEFF}'
  }

  /** Every character of `s` is whitespace (the empty string included). */
  predicate IsBlank(s: string) {
    forall i :: 0 <= i < |s| ==> IsWhitespace(s[i])
  }

  /** The number of whitespace characters `s` starts with. */
  function LeadingBlanks(s: string): (k: nat)
    ensures k <= |s|
    ensures forall i :: 0 <= i < k ==> IsWhitespace(s[i])
    ensures k < |s| ==> !IsWhitespace(s[k])
  {
    if |s| > 0 && IsWhitespace(s[0]) then 1 + LeadingBlanks(s[1..]) else 0
  }

  /** The number of whitespace characters `s` ends with. */
  function TrailingBlanks(s: string): (k: nat)
    ensures k <= |s|
    ensures forall i :: |s| - k <= i < |s| ==> IsWhitespace(s[i])
    ensures k < |s| ==> !IsWhitespace(s[|s| - 1 - k])
  {
    if |s| > 0 && IsWhitespace(s[|s| - 1]) then 1 + TrailingBlanks(s[..|s| - 1]) else 0
  }

  /** `s.trim()`: `s` without its leading and trailing whitespace. */
  function Trim(s: string): (r: string)
    ensures |r| <= |s|
    ensures exists a, b :: 0 <= a <= b <= |s| && r == s[a..b] && IsBlank(s[..a]) && IsBlank(s[b..])
    ensures r == [] || (!IsWhitespace(r[0]) && !IsWhitespace(r[|r| - 1]))
  {
    var a := LeadingBlanks(s);
    if a == |s| then
      assert s[..a] == s && s[a..] == [] && s[a..a] == [];
      []
    else
      var b := |s| - TrailingBlanks(s);
      assert forall i :: 0 <= i < a ==> s[..a][i] == s[i];
      assert forall i :: 0 <= i < |s| - b ==> s[b..][i] == s[b + i];
      s[a..b]
  }

  /** `s.trim() === ''` holds exactly when every character of `s` is whitespace. */
  lemma TrimEmptyIffBlank(s: string)
    ensures Trim(s) == [] <==> IsBlank(s)
  {
  }

  /** Trimming keeps every non-blank string non-empty: e.g. `"  a "` trims to `"a"`. */
  lemma TrimKeepsNonBlank(s: string, i: nat)
    requires i < |s| && !IsWhitespace(s[i])
    ensures Trim(s) != []
  {
    TrimEmptyIffBlank(s);
  }

  /** A character JavaScript stores as two UTF-16 code units (a surrogate pair). */
  predicate IsAstral(c: char) {
    c > '\U{FFFF}'
  }

  /** Every character of `s` lies in the Basic Multilingual Plane. */
  predicate InBmp(s: string) {
    forall i :: 0 <= i < |s| ==> !IsAstral(s[i])
  }

  /** `s.length` in JavaScript: the number of UTF-16 code units of `s`. */
  function Utf16Length(s: string): (n: nat)
    ensures |s| <= n <= 2 * |s|
  {
    if s == [] then 0
    else Utf16Length(s[..|s| - 1]) + if IsAstral(s[|s| - 1]) then 2 else 1
  }

  /** The code-unit length is the character count exactly when no character
      needs a surrogate pair. */
  lemma {:induction false} Utf16LengthIsLengthIffBmp(s: string)
    ensures Utf16Length(s) == |s| <==> InBmp(s)
  {
    if s != [] {
      var init := s[..|s| - 1];
      Utf16LengthIsLengthIffBmp(init);
      assert InBmp(s) <==> InBmp(init) && !IsAstral(s[|s| - 1]) by {
        assert forall i :: 0 <= i < |init| ==> init[i] == s[i];
      }
    }
  }
}
