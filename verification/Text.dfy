/** UTF-16 text as the source sees it: sequences of 16-bit code units, not of characters. */
module Text {
  type CodeUnit = x: int | 0 <= x < 0x1_0000

  type Utf16 = seq<CodeUnit>

  const TAB: CodeUnit := 9
  const LINE_FEED: CodeUnit := 10
  const CARRIAGE_RETURN: CodeUnit := 13
  const SPACE: CodeUnit := 32
  const QUOTE: CodeUnit := 34
  const BACKSLASH: CodeUnit := 92
  const OPEN_BRACKET: CodeUnit := 91
  const CLOSE_BRACKET: CodeUnit := 93
  const DOT: CodeUnit := 46
  const LOWER_U: CodeUnit := 117
  const LINE_SEPARATOR: CodeUnit := 0x2028
  const PARAGRAPH_SEPARATOR: CodeUnit := 0x2029

  /** The code units matched by `\s`, which are also the ones `trim` removes. */
  predicate IsSpace(c: CodeUnit) {
    || 9 <= c <= 13 || c == 32 || c == 0xA0 || c == 0x1680 || 0x2000 <= c <= 0x200A
    || c == 0x2028 || c == 0x2029 || c == 0x202F || c == 0x205F || c == 0x3000 || c == 0xFEFF
  }

  predicate IsLineBreak(c: CodeUnit) {
    c == LINE_FEED || c == CARRIAGE_RETURN || c == LINE_SEPARATOR || c == PARAGRAPH_SEPARATOR
  }

  predicate IsDigit(c: CodeUnit) { 48 <= c <= 57 }

  predicate IsLetter(c: CodeUnit) { 65 <= c <= 90 || 97 <= c <= 122 }

  predicate IsIdentifierStart(c: CodeUnit) { IsLetter(c) || c == 95 }

  predicate IsIdentifierPart(c: CodeUnit) { IsIdentifierStart(c) || IsDigit(c) }

  predicate IsHex(c: CodeUnit) { IsDigit(c) || 65 <= c <= 70 || 97 <= c <= 102 }

  function HexDigit(c: CodeUnit): (d: nat)
    requires IsHex(c)
    ensures d < 16
  {
    if IsDigit(c) then c - 48 else if c <= 70 then c - 55 else c - 87
  }

  predicate IsHighSurrogate(c: CodeUnit) { 0xD800 <= c <= 0xDBFF }

  predicate IsLowSurrogate(c: CodeUnit) { 0xDC00 <= c <= 0xDFFF }

  /** Lowercasing and uppercasing as they act on identifiers, which are ASCII. */
  function LowerUnit(c: CodeUnit): CodeUnit { if 65 <= c <= 90 then c + 32 else c }

  function UpperUnit(c: CodeUnit): CodeUnit { if 97 <= c <= 122 then c - 32 else c }

  function AsciiLower(s: Utf16): Utf16 { seq(|s|, i requires 0 <= i < |s| => LowerUnit(s[i])) }

  function AsciiUpper(s: Utf16): Utf16 { seq(|s|, i requires 0 <= i < |s| => UpperUnit(s[i])) }

  /** Surrogates occur only in high-low pairs. */
  predicate WellFormed(s: Utf16) {
    if s == [] then true
    else if IsHighSurrogate(s[0]) then |s| >= 2 && IsLowSurrogate(s[1]) && WellFormed(s[2..])
    else !IsLowSurrogate(s[0]) && WellFormed(s[1..])
  }

  /** The number of code points a `for ... of` loop visits: an unpaired surrogate counts as one. */
  function CodePoints(s: Utf16): (n: nat)
    ensures n <= |s| <= 2 * n
  {
    if s == [] then 0
    else if |s| >= 2 && IsHighSurrogate(s[0]) && IsLowSurrogate(s[1]) then 1 + CodePoints(s[2..])
    else 1 + CodePoints(s[1..])
  }

  /** Removes whitespace from both ends. */
  function Trim(s: Utf16): (t: Utf16)
    ensures |t| <= |s|
    ensures t == [] <==> forall i | 0 <= i < |s| :: IsSpace(s[i])
    ensures t != [] ==> !IsSpace(t[0]) && !IsSpace(t[|t| - 1])
  {
    if s == [] then []
    else if IsSpace(s[0]) then
      assert forall i | 0 < i < |s| :: s[i] == s[1..][i - 1];
      Trim(s[1..])
    else if IsSpace(s[|s| - 1]) then Trim(s[..|s| - 1])
    else s
  }

  predicate Includes(s: Utf16, search: Utf16) {
    exists i | 0 <= i <= |s| :: search <= s[i..]
  }

  predicate StartsWith(s: Utf16, prefix: Utf16) { prefix <= s }

  predicate EndsWith(s: Utf16, suffix: Utf16) {
    |suffix| <= |s| && s[|s| - |suffix|..] == suffix
  }
}
