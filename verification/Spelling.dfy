/** How each token is written, and that the lexer reads every spelling back. */
module Spelling {
  import opened Basics
  import opened Text
  import opened Syntax
  import opened Lexer
  import opened LexerLaws
  import opened Words

  const NOWHERE: Span := Span(0, 0)

  /** `s` stands in `src` at position `i`. */
  ghost predicate Occurs(src: Utf16, i: nat, s: Utf16) {
    i + |s| <= |src| && forall k | 0 <= k < |s| :: src[i + k] == s[k]
  }

  lemma OccursConcat(src: Utf16, i: nat, a: Utf16, b: Utf16)
    requires Occurs(src, i, a + b)
    ensures Occurs(src, i, a) && Occurs(src, i + |a|, b)
  {
    forall k | 0 <= k < |a| ensures src[i + k] == a[k] {
      assert (a + b)[k] == a[k];
    }
    forall k | 0 <= k < |b| ensures src[i + |a| + k] == b[k] {
      assert (a + b)[|a| + k] == b[k];
    }
  }

  lemma OccursSplit(src: Utf16, i: nat, whole: Utf16, a: Utf16, b: Utf16, close: CodeUnit)
    requires whole == a + b && Occurs(src, i, whole + [close])
    ensures Occurs(src, i, a) && Occurs(src, i + |a|, b + [close])
  {
    assert a + b + [close] == a + (b + [close]);
    OccursConcat(src, i, a, b + [close]);
  }

  /** `s` stands at `i` and is followed by a space. */
  ghost predicate Stands(src: Utf16, i: nat, s: Utf16) {
    Occurs(src, i, s) && i + |s| < |src| && src[i + |s|] == SPACE
  }

  // ---------------------------------------------------------------- numbers

  lemma {:induction false} DigitsEndStands(src: Utf16, i: nat, raw: Utf16, a: nat)
    requires Stands(src, i, raw) && a <= |raw|
    ensures DigitsEnd(src, i + a) == i + DigitsEnd(raw, a)
    decreases |raw| - a
  {
    if a < |raw| {
      assert src[i + a] == raw[a];
      DigitsEndStands(src, i, raw, a + 1);
    }
  }

  lemma SignEndStands(src: Utf16, i: nat, raw: Utf16, a: nat)
    requires Stands(src, i, raw) && a <= |raw|
    ensures SignEnd(src, i + a) == i + SignEnd(raw, a)
  {
    assert a < |raw| ==> src[i + a] == raw[a];
  }

  lemma ExponentEndStands(src: Utf16, i: nat, raw: Utf16, a: nat)
    requires Stands(src, i, raw) && a <= |raw|
    ensures ExponentEnd(src, i + a) == i + ExponentEnd(raw, a)
  {
    if a < |raw| {
      assert src[i + a] == raw[a];
      SignEndStands(src, i, raw, a + 1);
      DigitsEndStands(src, i, raw, SignEnd(raw, a + 1));
    }
  }

  lemma MantissaEndStands(src: Utf16, i: nat, raw: Utf16, a: nat)
    requires Stands(src, i, raw) && a <= |raw|
    ensures MantissaEnd(src, i + a) == i + MantissaEnd(raw, a)
  {
    DigitsEndStands(src, i, raw, a);
    var whole := DigitsEnd(raw, a);
    if whole < |raw| {
      assert src[i + whole] == raw[whole];
      DigitsEndStands(src, i, raw, whole + 1);
    }
  }

  lemma DecimalEndStands(src: Utf16, i: nat, raw: Utf16)
    requires Stands(src, i, raw)
    ensures DecimalEnd(src, i) == if DecimalEnd(raw, 0) > 0 then i + DecimalEnd(raw, 0) else i
  {
    SignEndStands(src, i, raw, 0);
    var unsigned := SignEnd(raw, 0);
    MantissaEndStands(src, i, raw, unsigned);
    ExponentEndStands(src, i, raw, MantissaEnd(raw, unsigned));
  }

  /** `text` is one complete decimal number that the host reads as `x`. */
  ghost predicate HostReads(host: Host, text: Utf16, x: real) {
    text != [] && DecimalEnd(text, 0) == |text| && host.number(text) == Some(x)
  }

  lemma NumberScans(host: Host, src: Utf16, i: nat, x: real)
    requires Stands(src, i, host.show(x)) && HostReads(host, host.show(x), x)
    ensures var next := i + |host.show(x)|;
            ScanToken(host, src, i) == Found(Token(NumberKind, Number(x), Span(i, next)), next)
    ensures !IsSpace(src[i])
  {
    var raw := host.show(x);
    DecimalEndStands(src, i, raw);
    assert src[i] == raw[0];
    assert src[i..i + |raw|] == raw;
  }

  // ---------------------------------------------------------------- strings

  function EscapeUnit(c: CodeUnit): Utf16 {
    if c == QUOTE || c == BACKSLASH then [BACKSLASH, c]
    else if c == LINE_FEED then [BACKSLASH, 110]
    else if c == CARRIAGE_RETURN then [BACKSLASH, 114]
    else if c == LINE_SEPARATOR then [BACKSLASH, LOWER_U, 50, 48, 50, 56]
    else if c == PARAGRAPH_SEPARATOR then [BACKSLASH, LOWER_U, 50, 48, 50, 57]
    else [c]
  }

  /** Escapes quotes, backslashes and line breaks, and keeps surrogate pairs together. */
  function Escape(s: Utf16): Utf16 {
    if s == [] then []
    else if |s| >= 2 && IsHighSurrogate(s[0]) then s[..2] + Escape(s[2..])
    else EscapeUnit(s[0]) + Escape(s[1..])
  }

  lemma UnitScans(src: Utf16, i: nat, c: CodeUnit)
    requires Occurs(src, i, EscapeUnit(c)) && !IsHighSurrogate(c) && !IsLowSurrogate(c)
    ensures src[i] != QUOTE && !IsLineBreak(src[i])
    ensures ScanCharacter(src, i) == Found([c], i + |EscapeUnit(c)|)
  {
    var e := EscapeUnit(c);
    assert src[i] == e[0];
    if |e| > 1 {
      assert src[i + 1] == e[1];
    }
    if |e| == 6 {
      assert src[i + 2] == e[2] && src[i + 3] == e[3] && src[i + 4] == e[4] && src[i + 5] == e[5];
      assert IsHex4(src, i + 2);
      assert Hex4(src, i + 2) == c;
    }
  }

  lemma Reassociate(a: Utf16, s: Utf16, n: nat)
    requires n <= |s|
    ensures a + s[..n] + s[n..] == a + s
  {
    assert s == s[..n] + s[n..];
  }

  lemma PairScans(src: Utf16, i: nat, pair: Utf16)
    requires |pair| == 2 && IsHighSurrogate(pair[0]) && IsLowSurrogate(pair[1]) && Occurs(src, i, pair)
    ensures src[i] != QUOTE && !IsLineBreak(src[i])
    ensures ScanCharacter(src, i) == Found(pair, i + 2)
  {
    assert src[i] == pair[0] && src[i + 1] == pair[1];
    assert src[i..i + 2] == pair;
  }

  lemma CharacterStep(src: Utf16, start: nat, i: nat, value: Utf16, piece: Utf16, next: nat)
    requires i < |src| && src[i] != QUOTE && !IsLineBreak(src[i]) && |value| + |piece| <= MAX_STRING_LENGTH
    requires ScanCharacter(src, i) == Found(piece, next)
    ensures ScanString(src, start, i, value) == ScanString(src, start, next, value + piece)
  {}

  /** A well-formed text begins with a pair or with a unit that is no half of one. */
  lemma FirstScans(src: Utf16, i: nat, s: Utf16) returns (width: nat, next: nat)
    requires WellFormed(s) && s != [] && Occurs(src, i, Escape(s) + [QUOTE])
    ensures 1 <= width <= |s| && WellFormed(s[width..])
    ensures next + |Escape(s[width..])| == i + |Escape(s)| && Occurs(src, next, Escape(s[width..]) + [QUOTE])
    ensures src[i] != QUOTE && !IsLineBreak(src[i]) && ScanCharacter(src, i) == Found(s[..width], next)
  {
    if IsHighSurrogate(s[0]) {
      OccursSplit(src, i, Escape(s), s[..2], Escape(s[2..]), QUOTE);
      PairScans(src, i, s[..2]);
      width, next := 2, i + 2;
    } else {
      OccursSplit(src, i, Escape(s), EscapeUnit(s[0]), Escape(s[1..]), QUOTE);
      UnitScans(src, i, s[0]);
      assert s[..1] == [s[0]];
      width, next := 1, i + |EscapeUnit(s[0])|;
    }
  }

  lemma {:induction false} StringScans(src: Utf16, start: nat, i: nat, value: Utf16, s: Utf16)
    requires WellFormed(s) && |value| + |s| <= MAX_STRING_LENGTH
    requires Occurs(src, i, Escape(s) + [QUOTE])
    ensures ScanString(src, start, i, value) == Found(value + s, i + |Escape(s)| + 1)
    decreases |s|
  {
    if s == [] {
      assert src[i] == (Escape(s) + [QUOTE])[0];
      assert value + s == value;
    } else {
      var width, next := FirstScans(src, i, s);
      CharacterStep(src, start, i, value, s[..width], next);
      StringScans(src, start, next, value + s[..width], s[width..]);
      Reassociate(value, s, width);
    }
  }

  // ----------------------------------------------------------------- fields

  /** Doubles every closing bracket. */
  function Double(name: Utf16): Utf16 {
    if name == [] then []
    else (if name[0] == CLOSE_BRACKET then [CLOSE_BRACKET, CLOSE_BRACKET] else [name[0]]) + Double(name[1..])
  }

  lemma {:induction false} FieldScans(src: Utf16, start: nat, i: nat, value: Utf16, name: Utf16)
    requires 0 < |value| + |name| <= MAX_FIELD_NAME_LENGTH
    requires Occurs(src, i, Double(name) + [CLOSE_BRACKET])
    requires i + |Double(name)| + 1 < |src| && src[i + |Double(name)| + 1] == SPACE
    ensures ScanField(src, start, i, value) == Found(value + name, i + |Double(name)| + 1)
    decreases |name|
  {
    if name == [] {
      assert src[i] == (Double(name) + [CLOSE_BRACKET])[0];
      assert value + name == value;
    } else {
      var head := if name[0] == CLOSE_BRACKET then [CLOSE_BRACKET, CLOSE_BRACKET] else [name[0]];
      assert Double(name) + [CLOSE_BRACKET] == head + (Double(name[1..]) + [CLOSE_BRACKET]);
      OccursConcat(src, i, head, Double(name[1..]) + [CLOSE_BRACKET]);
      assert src[i] == head[0];
      if |head| == 2 {
        assert src[i + 1] == head[1];
      }
      FieldScans(src, start, i + |head|, value + [name[0]], name[1..]);
      assert name[..1] == [name[0]];
      Reassociate(value, name, 1);
    }
  }

  // ------------------------------------------------------------------ words

  lemma {:induction false} WordEndStands(src: Utf16, i: nat, w: Utf16, a: nat)
    requires Stands(src, i, w) && IsWord(w) && a <= |w|
    ensures WordEnd(src, i + a) == i + |w|
    decreases |w| - a
  {
    if a < |w| {
      assert src[i + a] == w[a];
      WordEndStands(src, i, w, a + 1);
    }
  }

  lemma WordScans(host: Host, src: Utf16, i: nat, w: Utf16)
    requires Stands(src, i, w) && IsWord(w)
    ensures ScanToken(host, src, i) == Found(WordToken(w, Span(i, i + |w|)), i + |w|)
    ensures !IsSpace(src[i])
  {
    assert src[i] == w[0];
    WordEndStands(src, i, w, 1);
    assert src[i..i + |w|] == w;
  }

  lemma BuiltinIsIdentifier(b: Builtin)
    ensures IsIdentifier(BuiltinName(b))
  {
    var name := BuiltinName(b);
    var upper := AsciiUpper(name);
    assert upper[0] == UpperUnit(name[0]) && upper[1] == UpperUnit(name[1]) && upper[2] == UpperUnit(name[2]);
  }

  lemma KeywordTokens(span: Span)
    ensures IsWord(TRUE_WORD) && WordToken(TRUE_WORD, span) == Token(TrueKind, Boolean(true), span)
    ensures IsWord(FALSE_WORD) && WordToken(FALSE_WORD, span) == Token(FalseKind, Boolean(false), span)
    ensures IsWord(NULL_WORD) && WordToken(NULL_WORD, span) == Token(NullKind, Null, span)
  {
    assert AsciiUpper(TRUE_WORD) == TRUE_WORD;
    assert AsciiUpper(FALSE_WORD) == FALSE_WORD;
    assert AsciiUpper(NULL_WORD) == NULL_WORD;
  }

  /** The letters of a keyword that is also an operator. */
  function OperatorLetters(kind: Kind): string {
    match kind
    case AndKind => "AND"
    case OrKind => "OR"
    case NotKind => "NOT"
    case InKind => "IN"
    case _ => ""
  }

  /** An operator written as a word, in any mixture of cases. */
  predicate IsOperatorWord(token: Token) {
    token.kind in {AndKind, OrKind, NotKind, InKind} && token.value.Str? && EitherCase(token.value.s, OperatorLetters(token.kind))
  }

  lemma OperatorWords(token: Token, span: Span)
    requires IsOperatorWord(token)
    ensures IsWord(token.value.s) && WordToken(token.value.s, span) == token.(span := span)
  {
    WordKinds(token.value.s, span);
  }

  // ---------------------------------------------------------------- spelling

  function SymbolSpelling(kind: Kind): Utf16 {
    match kind
    case LeftParen => [40]
    case RightParen => [41]
    case Comma => [44]
    case EqualKind => [61, 61]
    case NotEqualKind => [33, 61]
    case LessKind => [60]
    case LessEqualKind => [60, 61]
    case GreaterKind => [62]
    case GreaterEqualKind => [62, 61]
    case AndKind => [38, 38]
    case OrKind => [124, 124]
    case NotKind => [33]
    case _ => []
  }

  predicate IsSymbol(kind: Kind) { SymbolSpelling(kind) != [] }

  lemma SymbolScans(host: Host, src: Utf16, i: nat, kind: Kind)
    requires IsSymbol(kind) && Stands(src, i, SymbolSpelling(kind))
    ensures var next := i + |SymbolSpelling(kind)|;
            ScanToken(host, src, i) == Found(Token(kind, Null, Span(i, next)), next)
    ensures !IsSpace(src[i])
  {
    var s := SymbolSpelling(kind);
    assert src[i] == s[0];
    if |s| == 2 {
      assert src[i + 1] == s[1];
    } else {
      assert src[i + 1] == SPACE;
    }
    NoDecimal(src, i);
    SymbolIsScanned(host, src, i);
  }

  /** The text of a token; only the kinds that rendering uses have one. */
  function Spell(host: Host, token: Token): Utf16 {
    match (token.kind, token.value)
    case (NumberKind, Number(x)) => host.show(x)
    case (StringKind, Str(s)) => [QUOTE] + Escape(s) + [QUOTE]
    case (FieldKind, Str(name)) => [OPEN_BRACKET] + Double(name) + [CLOSE_BRACKET]
    case (IdentifierKind, Str(name)) => name
    case (TrueKind, _) => TRUE_WORD
    case (FalseKind, _) => FALSE_WORD
    case (NullKind, _) => NULL_WORD
    case (AndKind, Str(word)) => word
    case (OrKind, Str(word)) => word
    case (NotKind, Str(word)) => word
    case (InKind, Str(word)) => word
    case (kind, _) => SymbolSpelling(kind)
  }

  /** The tokens whose payload the lexer can read back from their spelling. */
  ghost predicate Spellable(host: Host, token: Token) {
    match token.kind
    case NumberKind => token.value.Number? && HostReads(host, host.show(token.value.r), token.value.r)
    case StringKind => token.value.Str? && WellFormed(token.value.s) && |token.value.s| <= MAX_STRING_LENGTH
    case FieldKind => token.value.Str? && 0 < |token.value.s| <= MAX_FIELD_NAME_LENGTH
    case IdentifierKind => token.value.Str? && IsIdentifier(token.value.s)
    case TrueKind => token.value == Boolean(true)
    case FalseKind => token.value == Boolean(false)
    case NullKind => token.value == Null
    case InKind => IsOperatorWord(token)
    case AndKind => token.value == Null || IsOperatorWord(token)
    case OrKind => token.value == Null || IsOperatorWord(token)
    case NotKind => token.value == Null || IsOperatorWord(token)
    case Eof => false
    case _ => token.value == Null
  }

  /** The token at position `i`, over the text it is spelled with. */
  function At(host: Host, token: Token, i: nat): Token {
    token.(span := Span(i, i + |Spell(host, token)|))
  }

  lemma NumberTokenScans(host: Host, src: Utf16, i: nat, token: Token)
    requires token.kind.NumberKind?
    requires Spellable(host, token) && Stands(src, i, Spell(host, token))
    ensures Placed(host, src, At(host, token, i))
  {
    NumberScans(host, src, i, token.value.r);
  }

  lemma Opens(src: Utf16, i: nat, open: CodeUnit, inner: Utf16, close: CodeUnit)
    requires Occurs(src, i, [open] + inner + [close])
    ensures src[i] == open && Occurs(src, i + 1, inner + [close])
  {
    assert [open] + inner + [close] == [open] + (inner + [close]);
    OccursConcat(src, i, [open], inner + [close]);
    assert src[i] == [open][0];
  }

  lemma QuotedScans(host: Host, src: Utf16, i: nat, value: Utf16, next: nat)
    requires i < |src| && src[i] == QUOTE && ScanString(src, i, i + 1, []) == Found(value, next)
    ensures ScanToken(host, src, i) == Found(Token(StringKind, Str(value), Span(i, next)), next)
  {}

  lemma StringTokenScans(host: Host, src: Utf16, i: nat, token: Token)
    requires token.kind.StringKind?
    requires Spellable(host, token) && Stands(src, i, Spell(host, token))
    ensures Placed(host, src, At(host, token, i))
  {
    var s := token.value.s;
    Opens(src, i, QUOTE, Escape(s), QUOTE);
    StringScans(src, i, i + 1, [], s);
    assert [] + s == s;
    QuotedScans(host, src, i, s, i + 2 + |Escape(s)|);
  }

  lemma FieldTokenScans(host: Host, src: Utf16, i: nat, token: Token)
    requires token.kind.FieldKind?
    requires Spellable(host, token) && Stands(src, i, Spell(host, token))
    ensures Placed(host, src, At(host, token, i))
  {
    var name := token.value.s;
    Opens(src, i, OPEN_BRACKET, Double(name), CLOSE_BRACKET);
    FieldScans(src, i, i + 1, [], name);
    assert [] + name == name;
  }

  lemma IdentifierScans(host: Host, src: Utf16, i: nat, token: Token)
    requires token.kind.IdentifierKind?
    requires Spellable(host, token) && Stands(src, i, Spell(host, token))
    ensures Placed(host, src, At(host, token, i))
  {
    var name := token.value.s;
    var span := Span(i, i + |name|);
    WordScans(host, src, i, name);
    assert WordToken(name, span).kind == WordToken(name, Span(0, 0)).kind;
  }

  lemma KeywordScans(host: Host, src: Utf16, i: nat, token: Token)
    requires token.kind in {TrueKind, FalseKind, NullKind}
    requires Spellable(host, token) && Stands(src, i, Spell(host, token))
    ensures Placed(host, src, At(host, token, i))
  {
    var word := Spell(host, token);
    KeywordTokens(Span(i, i + |word|));
    WordScans(host, src, i, word);
  }

  lemma OperatorWordScans(host: Host, src: Utf16, i: nat, token: Token)
    requires IsOperatorWord(token) && Stands(src, i, token.value.s)
    ensures Placed(host, src, token.(span := Span(i, i + |token.value.s|)))
  {
    OperatorWords(token, Span(i, i + |token.value.s|));
    WordScans(host, src, i, token.value.s);
  }

  lemma OperatorScans(host: Host, src: Utf16, i: nat, token: Token)
    requires token.kind in {AndKind, OrKind, NotKind, InKind}
    requires Spellable(host, token) && Stands(src, i, Spell(host, token))
    ensures Placed(host, src, At(host, token, i))
  {
    if IsOperatorWord(token) {
      OperatorWordScans(host, src, i, token);
    } else {
      SymbolScans(host, src, i, token.kind);
    }
  }

  /** A spelled token followed by a space is scanned back, at its place. */
  lemma SpellingScans(host: Host, src: Utf16, i: nat, token: Token)
    requires Spellable(host, token) && Stands(src, i, Spell(host, token))
    ensures Placed(host, src, At(host, token, i))
  {
    match token.kind
    case NumberKind => NumberTokenScans(host, src, i, token);
    case StringKind => StringTokenScans(host, src, i, token);
    case FieldKind => FieldTokenScans(host, src, i, token);
    case IdentifierKind => IdentifierScans(host, src, i, token);
    case TrueKind | FalseKind | NullKind => KeywordScans(host, src, i, token);
    case AndKind | OrKind | NotKind | InKind => OperatorScans(host, src, i, token);
    case _ => SymbolScans(host, src, i, token.kind);
  }
}
