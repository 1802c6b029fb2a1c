/** What words, symbols and escapes stand for, character by character. */
module Words {
  import opened Basics
  import opened Text
  import opened Syntax
  import opened Lexer

  /** The word is spelled with these capital letters, each in either case. */
  predicate EitherCase(word: Utf16, letters: string) {
    && |word| == |letters|
    && forall k | 0 <= k < |letters| :: word[k] == letters[k] as int || word[k] == letters[k] as int + 32
  }

  predicate Capitals(letters: string) { forall k | 0 <= k < |letters| :: 'A' <= letters[k] <= 'Z' }

  lemma UpperIsEitherCase(word: Utf16, letters: string, upper: Utf16)
    requires Capitals(letters) && |upper| == |letters|
    requires forall k | 0 <= k < |letters| :: upper[k] == letters[k] as int
    ensures AsciiUpper(word) == upper <==> EitherCase(word, letters)
  {
    if AsciiUpper(word) == upper {
      forall k | 0 <= k < |letters| ensures word[k] == letters[k] as int || word[k] == letters[k] as int + 32 {
        assert UpperUnit(word[k]) == AsciiUpper(word)[k] == upper[k];
        assert 'A' <= letters[k] <= 'Z';
      }
    }
    if EitherCase(word, letters) {
      forall k | 0 <= k < |word| ensures AsciiUpper(word)[k] == upper[k] {
        assert 'A' <= letters[k] <= 'Z';
      }
    }
  }

  /** Seven words are keywords, in any mixture of cases, and every other word is an identifier. */
  lemma WordKinds(word: Utf16, span: Span)
    ensures
      var t := WordToken(word, span);
      && t.span == span
      && (t.kind.AndKind? <==> EitherCase(word, "AND")) && (t.kind.OrKind? <==> EitherCase(word, "OR"))
      && (t.kind.NotKind? <==> EitherCase(word, "NOT")) && (t.kind.InKind? <==> EitherCase(word, "IN"))
      && (t.kind.TrueKind? <==> EitherCase(word, "TRUE")) && (t.kind.FalseKind? <==> EitherCase(word, "FALSE"))
      && (t.kind.NullKind? <==> EitherCase(word, "NULL"))
      && match t.kind
         case TrueKind => t.value == Boolean(true)
         case FalseKind => t.value == Boolean(false)
         case NullKind => t.value == Null
         case AndKind => t.value == Str(word)
         case OrKind => t.value == Str(word)
         case NotKind => t.value == Str(word)
         case InKind => t.value == Str(word)
         case IdentifierKind => t.value == Str(word)
         case _ => false
  {
    UpperIsEitherCase(word, "AND", AND_WORD);
    UpperIsEitherCase(word, "OR", OR_WORD);
    UpperIsEitherCase(word, "NOT", NOT_WORD);
    UpperIsEitherCase(word, "IN", IN_WORD);
    UpperIsEitherCase(word, "TRUE", TRUE_WORD);
    UpperIsEitherCase(word, "FALSE", FALSE_WORD);
    UpperIsEitherCase(word, "NULL", NULL_WORD);
  }

  predicate IsLetterOrUnderscore(c: CodeUnit) {
    'A' as int <= c <= 'Z' as int || 'a' as int <= c <= 'z' as int || c == '_' as int
  }

  predicate IsWordUnit(c: CodeUnit) { IsLetterOrUnderscore(c) || '0' as int <= c <= '9' as int }

  lemma {:induction false} RunOfWord(src: Utf16, i: nat, j: nat)
    requires i <= j <= |src| && forall k | i <= k < j :: IsWordUnit(src[k])
    requires j < |src| ==> !IsWordUnit(src[j])
    ensures WordEnd(src, i) == j
    decreases j - i
  {
    if i < j { RunOfWord(src, i + 1, j); }
  }

  /** The longest run of letters, digits and underscores after a first letter is one word. */
  lemma WordIsScanned(host: Host, src: Utf16, i: nat, j: nat)
    requires i < j <= |src| && IsLetterOrUnderscore(src[i]) && forall k | i <= k < j :: IsWordUnit(src[k])
    requires j < |src| ==> !IsWordUnit(src[j])
    ensures ScanToken(host, src, i) == Found(WordToken(src[i..j], Span(i, j)), j)
  {
    RunOfWord(src, i + 1, j);
  }

  // ---------------------------------------------------------------- symbols

  /** The kind of the symbol that `c` begins before `next`, and its length. */
  function SymbolKind(c: CodeUnit, next: CodeUnit): Option<(Kind, nat)> {
    if c == '(' as int then Some((LeftParen, 1))
    else if c == ')' as int then Some((RightParen, 1))
    else if c == ',' as int then Some((Comma, 1))
    else if next == '=' as int && c == '=' as int then Some((EqualKind, 2))
    else if next == '=' as int && c == '!' as int then Some((NotEqualKind, 2))
    else if next == '=' as int && c == '<' as int then Some((LessEqualKind, 2))
    else if next == '=' as int && c == '>' as int then Some((GreaterEqualKind, 2))
    else if c == '<' as int then Some((LessKind, 1))
    else if c == '>' as int then Some((GreaterKind, 1))
    else if c == '!' as int then Some((NotKind, 1))
    else if c == '&' as int && next == '&' as int then Some((AndKind, 2))
    else if c == '|' as int && next == '|' as int then Some((OrKind, 2))
    else None
  }

  lemma NoDecimal(src: Utf16, i: nat)
    requires i < |src| && !('0' as int <= src[i] <= '9' as int)
    requires src[i] != '+' as int && src[i] != '-' as int && src[i] != '.' as int
    ensures DecimalEnd(src, i) == i
  {}

  /** Any character that begins no string, field, number or word is the longest symbol there, or invalid. */
  lemma SymbolIsScanned(host: Host, src: Utf16, i: nat)
    requires i < |src| && src[i] != '"' as int && src[i] != '[' as int && !IsLetterOrUnderscore(src[i])
    requires DecimalEnd(src, i) == i
    ensures
      ScanToken(host, src, i)
      == match SymbolKind(src[i], if i + 1 < |src| then src[i + 1] else 0)
         case None => Bad(InvalidCharacter, i, i + 1)
         case Some(symbol) => Found(Token(symbol.0, Null, Span(i, i + symbol.1)), i + symbol.1)
  {}

  // ---------------------------------------------------------------- escapes

  /** `c` is the hexadecimal digit of this value, in either case. */
  predicate IsDigitOf(c: CodeUnit, value: nat) {
    || (value < 10 && c == '0' as int + value)
    || (10 <= value < 16 && (c == 'A' as int + (value - 10) || c == 'a' as int + (value - 10)))
  }

  /** The digits of these four values stand at `i`. */
  predicate FourDigits(src: Utf16, i: nat, a: nat, b: nat, c: nat, d: nat) {
    i + 4 <= |src|
    && IsDigitOf(src[i], a) && IsDigitOf(src[i + 1], b) && IsDigitOf(src[i + 2], c) && IsDigitOf(src[i + 3], d)
  }

  function Numbered(a: nat, b: nat, c: nat, d: nat): nat { 4096 * a + 256 * b + 16 * c + d }

  lemma DigitIsHex(c: CodeUnit, value: nat)
    requires IsDigitOf(c, value)
    ensures IsHex(c) && HexDigit(c) == value
  {}

  lemma FourDigitsAreHex(src: Utf16, i: nat, a: nat, b: nat, c: nat, d: nat)
    requires FourDigits(src, i, a, b, c, d)
    ensures IsHex4(src, i) && Hex4(src, i) == Numbered(a, b, c, d)
  {
    DigitIsHex(src[i], a);
    DigitIsHex(src[i + 1], b);
    DigitIsHex(src[i + 2], c);
    DigitIsHex(src[i + 3], d);
  }

  /** The letter after a backslash that stands for one code unit, and which. */
  function Escaped(c: CodeUnit): Option<CodeUnit> {
    if c == '"' as int then Some('"' as int)
    else if c == '\\' as int then Some('\\' as int)
    else if c == 'n' as int then Some('\n' as int)
    else if c == 'r' as int then Some('\r' as int)
    else if c == 't' as int then Some('\t' as int)
    else if c == 'b' as int then Some(0x08)
    else if c == 'f' as int then Some(0x0C)
    else None
  }

  lemma LetterEscapes(src: Utf16, i: nat)
    requires i < |src| && src[i] == '\\' as int && (i + 1 < |src| ==> src[i + 1] != 'u' as int)
    ensures
      ScanCharacter(src, i)
      == if i + 1 == |src| then Bad(InvalidString, i, i + 1)
         else match Escaped(src[i + 1])
           case Some(c) => Found([c], i + 2)
           case None => Bad(InvalidString, i, i + 2)
  {}

  predicate StandsEscape(src: Utf16, i: nat) { i + 1 < |src| && src[i] == '\\' as int && src[i + 1] == 'u' as int }

  /** Four digits after `\\u`, each in either case, stand for the unit they number, but for halves of a surrogate pair. */
  lemma NumberedEscapes(src: Utf16, i: nat, a: nat, b: nat, c: nat, d: nat)
    requires StandsEscape(src, i) && FourDigits(src, i + 2, a, b, c, d)
    ensures
      var unit := Numbered(a, b, c, d);
      && unit < 0x1_0000
      && (unit < 0xD800 || unit > 0xDFFF ==> ScanCharacter(src, i) == Found([unit], i + 6))
      && (0xDC00 <= unit <= 0xDFFF ==> ScanCharacter(src, i) == Bad(InvalidString, i, i + 6))
      && (0xD800 <= unit <= 0xDBFF && !StandsEscape(src, i + 6) ==> ScanCharacter(src, i) == Bad(InvalidString, i, i + 6))
  {
    FourDigitsAreHex(src, i + 2, a, b, c, d);
  }

  /** The first half of a pair takes the second half with it, or is refused together with what stands there instead. */
  lemma PairedEscapes(src: Utf16, i: nat, high: nat, low: nat, a: nat, b: nat, c: nat, d: nat, e: nat, f: nat,
      g: nat, h: nat)
    requires StandsEscape(src, i) && FourDigits(src, i + 2, a, b, c, d) && high == Numbered(a, b, c, d)
    requires StandsEscape(src, i + 6) && FourDigits(src, i + 8, e, f, g, h) && low == Numbered(e, f, g, h)
    requires 0xD800 <= high <= 0xDBFF
    ensures ScanCharacter(src, i)
         == if 0xDC00 <= low <= 0xDFFF then Found([high, low], i + 12) else Bad(InvalidString, i, i + 12)
  {
    FourDigitsAreHex(src, i + 2, a, b, c, d);
    FourDigitsAreHex(src, i + 8, e, f, g, h);
  }

  /** Four digits stand at `i`, whatever their values. */
  predicate AnyFourDigits(src: Utf16, i: nat) {
    i + 4 <= |src| && forall k | i <= k < i + 4 ::
      || '0' as int <= src[k] <= '9' as int
      || 'A' as int <= src[k] <= 'F' as int || 'a' as int <= src[k] <= 'f' as int
  }

  /** Without four digits the escape is invalid up to where they would end, or the end of the source. */
  lemma BrokenEscapes(src: Utf16, i: nat)
    requires StandsEscape(src, i) && !AnyFourDigits(src, i + 2)
    ensures ScanCharacter(src, i) == Bad(InvalidString, i, if i + 6 <= |src| then i + 6 else |src|)
  {
    assert IsHex4(src, i + 2) ==> AnyFourDigits(src, i + 2);
  }

  /** The same of the second half of a pair. */
  lemma BrokenSecondHalf(src: Utf16, i: nat, a: nat, b: nat, c: nat, d: nat)
    requires StandsEscape(src, i) && FourDigits(src, i + 2, a, b, c, d) && 0xD800 <= Numbered(a, b, c, d) <= 0xDBFF
    requires StandsEscape(src, i + 6) && !AnyFourDigits(src, i + 8)
    ensures ScanCharacter(src, i) == Bad(InvalidString, i + 6, if i + 12 <= |src| then i + 12 else |src|)
  {
    FourDigitsAreHex(src, i + 2, a, b, c, d);
    assert IsHex4(src, i + 8) ==> AnyFourDigits(src, i + 8);
  }
}
