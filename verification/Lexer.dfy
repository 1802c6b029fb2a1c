/** The bounded lexical pass. */
module Lexer {
  import opened Basics
  import opened Text
  import opened Syntax

  datatype LexResult = Tokens(tokens: seq<Token>) | LexError(diagnostic: Diagnostic)

  /** What one scan over part of the source produced, or where and why it gave up. */
  datatype Scan<+T> = Found(value: T, next: nat) | Bad(code: Code, start: nat, end: nat)

  // ---------------------------------------------------------------- numbers

  /** The end of the run of digits that starts at `i`. */
  function DigitsEnd(src: Utf16, i: nat): (j: nat)
    requires i <= |src|
    ensures i <= j <= |src|
    ensures forall k | i <= k < j :: IsDigit(src[k])
    ensures j < |src| ==> !IsDigit(src[j])
    decreases |src| - i
  {
    if i < |src| && IsDigit(src[i]) then DigitsEnd(src, i + 1) else i
  }

  /** The end of the optional exponent that starts at `i`. */
  function ExponentEnd(src: Utf16, i: nat): (j: nat)
    requires i <= |src|
    ensures i <= j <= |src|
  {
    if i < |src| && (src[i] == 101 || src[i] == 69) then
      var digits := SignEnd(src, i + 1);
      var end := DigitsEnd(src, digits);
      if end > digits then end else i
    else i
  }

  /** The end of the digits with an optional fraction at `i`, or `i` when there are none. */
  function MantissaEnd(src: Utf16, i: nat): (j: nat)
    requires i <= |src|
    ensures i <= j <= |src|
  {
    var whole := DigitsEnd(src, i);
    if whole == |src| || src[whole] != DOT then whole
    else if whole > i || DigitsEnd(src, whole + 1) > whole + 1 then DigitsEnd(src, whole + 1)
    else i
  }

  function SignEnd(src: Utf16, i: nat): (j: nat)
    requires i <= |src|
    ensures i <= j <= |src|
  {
    if i < |src| && (src[i] == 43 || src[i] == 45) then i + 1 else i
  }

  /** The end of the decimal number prefix at `i`, or `i` when there is none. */
  function DecimalEnd(src: Utf16, i: nat): (j: nat)
    requires i <= |src|
    ensures i <= j <= |src|
  {
    var unsigned := SignEnd(src, i);
    var mantissa := MantissaEnd(src, unsigned);
    if mantissa > unsigned then ExponentEnd(src, mantissa) else i
  }

  predicate ContinuesNumber(c: CodeUnit) { IsIdentifierPart(c) || c == DOT }

  function MalformedEnd(src: Utf16, i: nat): (j: nat)
    requires i <= |src|
    ensures i <= j <= |src|
    decreases |src| - i
  {
    if i < |src| && ContinuesNumber(src[i]) then MalformedEnd(src, i + 1) else i
  }

  function ScanNumber(host: Host, src: Utf16, start: nat, end: nat): Scan<Value>
    requires start < end <= |src|
  {
    if end < |src| && ContinuesNumber(src[end]) then Bad(InvalidNumber, start, MalformedEnd(src, end))
    else match host.number(src[start..end])
      case None => Bad(InvalidNumber, start, end)
      case Some(x) => Found(Number(x), end)
  }

  // ---------------------------------------------------------------- strings

  predicate IsHex4(src: Utf16, i: nat) {
    i + 4 <= |src| && forall k | i <= k < i + 4 :: IsHex(src[k])
  }

  function Hex4(src: Utf16, i: nat): CodeUnit
    requires IsHex4(src, i)
  {
    ((HexDigit(src[i]) * 16 + HexDigit(src[i + 1])) * 16 + HexDigit(src[i + 2])) * 16 + HexDigit(src[i + 3])
  }

  function SimpleEscape(c: CodeUnit): Option<CodeUnit> {
    if c == QUOTE || c == BACKSLASH then Some(c)
    else if c == 110 then Some(LINE_FEED)
    else if c == 114 then Some(CARRIAGE_RETURN)
    else if c == 116 then Some(TAB)
    else if c == 98 then Some(8)
    else if c == 102 then Some(12)
    else None
  }

  /** Decodes the escape whose backslash is at `i`. */
  function ScanEscape(src: Utf16, i: nat): (r: Scan<Utf16>)
    requires i < |src| && src[i] == BACKSLASH
    ensures r.Found? ==> i < r.next <= |src| && 1 <= |r.value| <= 2
  {
    if i + 1 < |src| && SimpleEscape(src[i + 1]).Some? then Found([SimpleEscape(src[i + 1]).value], i + 2)
    else if i + 1 < |src| && src[i + 1] == LOWER_U then
      if !IsHex4(src, i + 2) then Bad(InvalidString, i, Min(|src|, i + 6))
      else
        var code := Hex4(src, i + 2);
        if IsHighSurrogate(code) then
          if !(i + 8 <= |src| && src[i + 6] == BACKSLASH && src[i + 7] == LOWER_U) then
            Bad(InvalidString, i, i + 6)
          else if !IsHex4(src, i + 8) then Bad(InvalidString, i + 6, Min(|src|, i + 12))
          else if !IsLowSurrogate(Hex4(src, i + 8)) then Bad(InvalidString, i, i + 12)
          else Found([code, Hex4(src, i + 8)], i + 12)
        else if IsLowSurrogate(code) then Bad(InvalidString, i, i + 6)
        else Found([code], i + 6)
    else Bad(InvalidString, i, Min(|src|, i + 2))
  }

  /** Decodes the escape or the raw character at `i`, keeping surrogates paired. */
  function ScanCharacter(src: Utf16, i: nat): (r: Scan<Utf16>)
    requires i < |src|
    ensures r.Found? ==> i < r.next <= |src| && 1 <= |r.value| <= 2
  {
    if src[i] == BACKSLASH then ScanEscape(src, i)
    else if IsHighSurrogate(src[i]) then
      if i + 1 < |src| && IsLowSurrogate(src[i + 1]) then Found(src[i..i + 2], i + 2)
      else Bad(InvalidString, i, i + 1)
    else if IsLowSurrogate(src[i]) then Bad(InvalidString, i, i + 1)
    else Found([src[i]], i + 1)
  }

  /** Scans the body of the string opened at `start`, having decoded `value` up to `i`. */
  function ScanString(src: Utf16, start: nat, i: nat, value: Utf16): (r: Scan<Utf16>)
    requires i <= |src| && |value| <= MAX_STRING_LENGTH
    ensures r.Found? ==> i < r.next <= |src| && |r.value| <= MAX_STRING_LENGTH
    decreases |src| - i
  {
    if i >= |src| then Bad(InvalidString, start, |src|)
    else if src[i] == QUOTE then Found(value, i + 1)
    else if IsLineBreak(src[i]) then Bad(InvalidString, start, i + 1)
    else match ScanCharacter(src, i)
      case Bad(code, from, to) => Bad(code, from, to)
      case Found(piece, next) =>
        if |value + piece| > MAX_STRING_LENGTH then Bad(StringLiteralTooLong, start, next)
        else ScanString(src, start, next, value + piece)
  }

  // ----------------------------------------------------------------- fields

  /** Scans the body of the bracketed field opened at `start`; `]]` stands for one `]`. */
  function ScanField(src: Utf16, start: nat, i: nat, value: Utf16): (r: Scan<Utf16>)
    requires i <= |src| && |value| <= MAX_FIELD_NAME_LENGTH
    ensures r.Found? ==> i < r.next <= |src| && 0 < |r.value| <= MAX_FIELD_NAME_LENGTH
    decreases |src| - i
  {
    if i >= |src| then Bad(UnexpectedToken, start, i)
    else if src[i] == CLOSE_BRACKET && !(i + 1 < |src| && src[i + 1] == CLOSE_BRACKET) then
      if value == [] then Bad(UnexpectedToken, start, i + 1) else Found(value, i + 1)
    else
      var next := if src[i] == CLOSE_BRACKET then i + 2 else i + 1;
      if |value| == MAX_FIELD_NAME_LENGTH then Bad(FieldNameTooLong, start, next)
      else ScanField(src, start, next, value + [src[i]])
  }

  // ------------------------------------------------------------------ words

  function WordEnd(src: Utf16, i: nat): (j: nat)
    requires i <= |src|
    ensures i <= j <= |src|
    decreases |src| - i
  {
    if i < |src| && IsIdentifierPart(src[i]) then WordEnd(src, i + 1) else i
  }

  const TRUE_WORD: Utf16 := [84, 82, 85, 69]
  const FALSE_WORD: Utf16 := [70, 65, 76, 83, 69]
  const NULL_WORD: Utf16 := [78, 85, 76, 76]
  const AND_WORD: Utf16 := [65, 78, 68]
  const OR_WORD: Utf16 := [79, 82]
  const NOT_WORD: Utf16 := [78, 79, 84]
  const IN_WORD: Utf16 := [73, 78]

  /** Keywords are recognised whatever their case; anything else is an identifier. */
  function WordToken(word: Utf16, span: Span): Token {
    var upper := AsciiUpper(word);
    if upper == TRUE_WORD then Token(TrueKind, Boolean(true), span)
    else if upper == FALSE_WORD then Token(FalseKind, Boolean(false), span)
    else if upper == NULL_WORD then Token(NullKind, Null, span)
    else if upper == AND_WORD then Token(AndKind, Str(word), span)
    else if upper == OR_WORD then Token(OrKind, Str(word), span)
    else if upper == NOT_WORD then Token(NotKind, Str(word), span)
    else if upper == IN_WORD then Token(InKind, Str(word), span)
    else Token(IdentifierKind, Str(word), span)
  }

  // -------------------------------------------------------------- operators

  function TwoUnitKind(a: CodeUnit, b: CodeUnit): Option<Kind> {
    if a == 61 && b == 61 then Some(EqualKind)
    else if a == 33 && b == 61 then Some(NotEqualKind)
    else if a == 60 && b == 61 then Some(LessEqualKind)
    else if a == 62 && b == 61 then Some(GreaterEqualKind)
    else if a == 38 && b == 38 then Some(AndKind)
    else if a == 124 && b == 124 then Some(OrKind)
    else None
  }

  function OneUnitKind(a: CodeUnit): Option<Kind> {
    if a == 40 then Some(LeftParen)
    else if a == 41 then Some(RightParen)
    else if a == 44 then Some(Comma)
    else if a == 60 then Some(LessKind)
    else if a == 62 then Some(GreaterKind)
    else if a == 33 then Some(NotKind)
    else None
  }

  // ------------------------------------------------------------ whole source

  /** The token that starts at `i`, where the source has no whitespace. */
  function ScanToken(host: Host, src: Utf16, i: nat): (r: Scan<Token>)
    requires i < |src|
    ensures r.Found? ==> i < r.next <= |src| && r.value.span == Span(i, r.next) && !r.value.kind.Eof?
  {
    var c := src[i];
    if c == QUOTE then
      match ScanString(src, i, i + 1, [])
      case Bad(code, from, to) => Bad(code, from, to)
      case Found(value, next) => Found(Token(StringKind, Str(value), Span(i, next)), next)
    else if c == OPEN_BRACKET then
      match ScanField(src, i, i + 1, [])
      case Bad(code, from, to) => Bad(code, from, to)
      case Found(value, next) => Found(Token(FieldKind, Str(value), Span(i, next)), next)
    else if DecimalEnd(src, i) > i then
      match ScanNumber(host, src, i, DecimalEnd(src, i))
      case Bad(code, from, to) => Bad(code, from, to)
      case Found(value, next) => Found(Token(NumberKind, value, Span(i, next)), next)
    else if IsIdentifierStart(c) then
      var next := WordEnd(src, i + 1);
      Found(WordToken(src[i..next], Span(i, next)), next)
    else if i + 1 < |src| && TwoUnitKind(c, src[i + 1]).Some? then
      Found(Token(TwoUnitKind(c, src[i + 1]).value, Null, Span(i, i + 2)), i + 2)
    else if OneUnitKind(c).Some? then
      Found(Token(OneUnitKind(c).value, Null, Span(i, i + 1)), i + 1)
    else Bad(InvalidCharacter, i, i + 1)
  }

  /** Lexes the source from `i` on, `tokens` being the tokens before it. */
  function LexFrom(host: Host, src: Utf16, i: nat, tokens: seq<Token>): LexResult
    requires i <= |src|
    decreases |src| - i
  {
    if i == |src| then Tokens(tokens + [Token(Eof, Null, Span(i, i))])
    else if IsSpace(src[i]) then LexFrom(host, src, i + 1, tokens)
    else match ScanToken(host, src, i)
      case Bad(code, from, to) => LexError(SourceDiagnostic(src, code, from, to))
      case Found(token, next) =>
        if |tokens| == MAX_TOKEN_COUNT then LexError(SourceDiagnostic(src, TokenLimitExceeded, i, next))
        else LexFrom(host, src, next, tokens + [token])
  }

  function Lexed(host: Host, src: Utf16): LexResult {
    if |src| > MAX_SOURCE_LENGTH then
      LexError(SourceDiagnostic(src, SourceTooLong, MAX_SOURCE_LENGTH, MAX_SOURCE_LENGTH + 1))
    else LexFrom(host, src, 0, [])
  }

  // ------------------------------------------------- the loops of the source

  method ReadString(src: Utf16, start: nat) returns (r: Scan<Utf16>)
    requires start < |src|
    ensures r == ScanString(src, start, start + 1, [])
  {
    var cursor, value := start + 1, [];
    while cursor < |src|
      invariant cursor <= |src| && |value| <= MAX_STRING_LENGTH
      invariant ScanString(src, start, cursor, value) == ScanString(src, start, start + 1, [])
    {
      if src[cursor] == QUOTE {
        return Found(value, cursor + 1);
      }
      if IsLineBreak(src[cursor]) {
        return Bad(InvalidString, start, cursor + 1);
      }
      match ScanCharacter(src, cursor)
      case Bad(code, from, to) =>
        return Bad(code, from, to);
      case Found(piece, next) =>
        if |value + piece| > MAX_STRING_LENGTH {
          return Bad(StringLiteralTooLong, start, next);
        }
        value, cursor := value + piece, next;
    }
    r := Bad(InvalidString, start, |src|);
  }

  method ReadField(src: Utf16, start: nat) returns (r: Scan<Utf16>)
    requires start < |src|
    ensures r == ScanField(src, start, start + 1, [])
  {
    var cursor, value := start + 1, [];
    while cursor < |src|
      invariant cursor <= |src| && |value| <= MAX_FIELD_NAME_LENGTH
      invariant ScanField(src, start, cursor, value) == ScanField(src, start, start + 1, [])
    {
      if src[cursor] == CLOSE_BRACKET && !(cursor + 1 < |src| && src[cursor + 1] == CLOSE_BRACKET) {
        return if value == [] then Bad(UnexpectedToken, start, cursor + 1) else Found(value, cursor + 1);
      }
      var next := if src[cursor] == CLOSE_BRACKET then cursor + 2 else cursor + 1;
      if |value| == MAX_FIELD_NAME_LENGTH {
        return Bad(FieldNameTooLong, start, next);
      }
      value, cursor := value + [src[cursor]], next;
    }
    r := Bad(UnexpectedToken, start, cursor);
  }

  method ReadWord(src: Utf16, start: nat) returns (cursor: nat)
    requires start < |src|
    ensures cursor == WordEnd(src, start + 1)
  {
    cursor := start + 1;
    while cursor < |src| && IsIdentifierPart(src[cursor])
      invariant cursor <= |src| && WordEnd(src, cursor) == WordEnd(src, start + 1)
    {
      cursor := cursor + 1;
    }
  }

  method ReadToken(host: Host, src: Utf16, start: nat) returns (r: Scan<Token>)
    requires start < |src|
    ensures r == ScanToken(host, src, start)
  {
    var c := src[start];
    if c == QUOTE {
      var body := ReadString(src, start);
      match body
      case Bad(code, from, to) => return Bad(code, from, to);
      case Found(value, next) => return Found(Token(StringKind, Str(value), Span(start, next)), next);
    }
    if c == OPEN_BRACKET {
      var body := ReadField(src, start);
      match body
      case Bad(code, from, to) => return Bad(code, from, to);
      case Found(value, next) => return Found(Token(FieldKind, Str(value), Span(start, next)), next);
    }
    var end := DecimalEnd(src, start);
    if end > start {
      match ScanNumber(host, src, start, end)
      case Bad(code, from, to) => return Bad(code, from, to);
      case Found(value, next) => return Found(Token(NumberKind, value, Span(start, next)), next);
    }
    if IsIdentifierStart(c) {
      var next := ReadWord(src, start);
      return Found(WordToken(src[start..next], Span(start, next)), next);
    }
    if start + 1 < |src| && TwoUnitKind(c, src[start + 1]).Some? {
      return Found(Token(TwoUnitKind(c, src[start + 1]).value, Null, Span(start, start + 2)), start + 2);
    }
    if OneUnitKind(c).Some? {
      return Found(Token(OneUnitKind(c).value, Null, Span(start, start + 1)), start + 1);
    }
    r := Bad(InvalidCharacter, start, start + 1);
  }

  /** Tokenizes one source. */
  method Lex(host: Host, src: Utf16) returns (r: LexResult)
    ensures r == Lexed(host, src)
  {
    if |src| > MAX_SOURCE_LENGTH {
      return LexError(SourceDiagnostic(src, SourceTooLong, MAX_SOURCE_LENGTH, MAX_SOURCE_LENGTH + 1));
    }
    var tokens: seq<Token> := [];
    var cursor := 0;
    while cursor < |src|
      invariant cursor <= |src|
      invariant LexFrom(host, src, cursor, tokens) == LexFrom(host, src, 0, [])
    {
      if IsSpace(src[cursor]) {
        cursor := cursor + 1;
        continue;
      }
      var scanned := ReadToken(host, src, cursor);
      match scanned
      case Bad(code, from, to) =>
        return LexError(SourceDiagnostic(src, code, from, to));
      case Found(token, next) =>
        if |tokens| == MAX_TOKEN_COUNT {
          return LexError(SourceDiagnostic(src, TokenLimitExceeded, cursor, next));
        }
        tokens, cursor := tokens + [token], next;
    }
    r := Tokens(tokens + [Token(Eof, Null, Span(cursor, cursor))]);
  }
}
