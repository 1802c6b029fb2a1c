/** The lexer yields exactly the tiling of the source by tokens and whitespace. */
module LexerLaws {
  import opened Text
  import opened Syntax
  import opened Lexer

  ghost predicate Blank(src: Utf16, from: nat, to: nat) {
    from <= to <= |src| && forall p | from <= p < to :: IsSpace(src[p])
  }

  /** The token is the one that starts at its own span, and it does not start with whitespace. */
  ghost predicate Placed(host: Host, src: Utf16, token: Token) {
    && token.span.start < |src|
    && !IsSpace(src[token.span.start])
    && ScanToken(host, src, token.span.start) == Found(token, token.span.end)
  }

  /** From `i` on, only whitespace lies around the tokens from the `k`-th on; end of file is last. */
  ghost predicate Spaced(src: Utf16, i: nat, tokens: seq<Token>, k: nat)
    decreases |tokens| - k
  {
    if k + 1 >= |tokens| then
      k + 1 == |tokens| && Blank(src, i, |src|) && tokens[k] == Token(Eof, Null, Span(|src|, |src|))
    else
      Blank(src, i, tokens[k].span.start) && Spaced(src, tokens[k].span.end, tokens, k + 1)
  }

  ghost predicate AllPlaced(host: Host, src: Utf16, tokens: seq<Token>, k: nat) {
    forall n | k <= n < |tokens| - 1 :: Placed(host, src, tokens[n])
  }

  /** The source is exactly these tokens and whitespace. */
  ghost predicate Tiles(host: Host, src: Utf16, tokens: seq<Token>) {
    Spaced(src, 0, tokens, 0) && AllPlaced(host, src, tokens, 0)
  }

  lemma LexOneSpace(host: Host, src: Utf16, i: nat, before: seq<Token>)
    requires i < |src| && IsSpace(src[i])
    ensures LexFrom(host, src, i, before) == LexFrom(host, src, i + 1, before)
  {}

  lemma LexOneToken(host: Host, src: Utf16, token: Token, before: seq<Token>)
    requires Placed(host, src, token) && |before| < MAX_TOKEN_COUNT
    ensures token.span.start < token.span.end <= |src|
    ensures LexFrom(host, src, token.span.start, before)
         == LexFrom(host, src, token.span.end, before + [token])
  {}

  lemma BlankStep(src: Utf16, i: nat, to: nat)
    requires i < |src| && IsSpace(src[i]) && i != to
    ensures Blank(src, i, to) <==> Blank(src, i + 1, to)
  {
    assert Blank(src, i + 1, to) ==> forall p | i <= p < to :: p == i || IsSpace(src[p]);
  }

  lemma SkipBlank(src: Utf16, i: nat, tokens: seq<Token>, k: nat)
    requires i < |src| && IsSpace(src[i]) && k < |tokens| && tokens[k].span.start != i
    ensures Spaced(src, i, tokens, k) <==> Spaced(src, i + 1, tokens, k)
  {
    BlankStep(src, i, |src|);
    BlankStep(src, i, tokens[k].span.start);
  }

  lemma NextToken(host: Host, src: Utf16, i: nat, before: seq<Token>, tokens: seq<Token>) returns (token: Token)
    requires i < |src| && !IsSpace(src[i]) && |before| <= MAX_TOKEN_COUNT
    requires LexFrom(host, src, i, before) == Tokens(tokens)
    ensures Placed(host, src, token) && token.span.start == i < token.span.end <= |src|
    ensures |before| < MAX_TOKEN_COUNT && LexFrom(host, src, token.span.end, before + [token]) == Tokens(tokens)
  {
    token := ScanToken(host, src, i).value;
  }

  lemma {:induction false} LexFromTiles(host: Host, src: Utf16, i: nat, before: seq<Token>, tokens: seq<Token>)
    requires i <= |src| && |before| <= MAX_TOKEN_COUNT
    requires LexFrom(host, src, i, before) == Tokens(tokens)
    ensures before < tokens && |tokens| <= MAX_TOKEN_COUNT + 1 && i <= tokens[|before|].span.start
    ensures Spaced(src, i, tokens, |before|) && AllPlaced(host, src, tokens, |before|)
    decreases |src| - i
  {
    if i < |src| && IsSpace(src[i]) {
      LexFromTiles(host, src, i + 1, before, tokens);
      SkipBlank(src, i, tokens, |before|);
    } else if i < |src| {
      var token := NextToken(host, src, i, before, tokens);
      LexFromTiles(host, src, token.span.end, before + [token], tokens);
      assert tokens[|before|] == token;
    } else {
      assert tokens == before + [Token(Eof, Null, Span(i, i))];
    }
  }

  lemma TokenAt(host: Host, src: Utf16, i: nat, tokens: seq<Token>, k: nat)
    requires i <= |src| && k < |tokens| && Spaced(src, i, tokens, k) && AllPlaced(host, src, tokens, k)
    ensures i < |src| && IsSpace(src[i]) ==> tokens[k].span.start != i
    ensures i < |src| && !IsSpace(src[i]) ==>
      k + 1 < |tokens| && tokens[k].span.start == i && Placed(host, src, tokens[k])
    ensures i == |src| ==> k + 1 == |tokens| && tokens[k] == Token(Eof, Null, Span(i, i))
  {
    assert k + 1 < |tokens| ==> Placed(host, src, tokens[k]);
  }

  lemma TakeOne(tokens: seq<Token>, k: nat)
    requires k < |tokens|
    ensures tokens[..k] + [tokens[k]] == tokens[..k + 1]
    ensures k + 1 == |tokens| ==> tokens[..k + 1] == tokens
  {}

  lemma {:induction false} TilesLexFrom(host: Host, src: Utf16, i: nat, tokens: seq<Token>, k: nat)
    requires i <= |src| && k < |tokens| <= MAX_TOKEN_COUNT + 1
    requires Spaced(src, i, tokens, k) && AllPlaced(host, src, tokens, k)
    ensures LexFrom(host, src, i, tokens[..k]) == Tokens(tokens)
    decreases |src| - i
  {
    TokenAt(host, src, i, tokens, k);
    TakeOne(tokens, k);
    if i < |src| && IsSpace(src[i]) {
      SkipBlank(src, i, tokens, k);
      TilesLexFrom(host, src, i + 1, tokens, k);
      LexOneSpace(host, src, i, tokens[..k]);
    } else if i < |src| {
      LexOneToken(host, src, tokens[k], tokens[..k]);
      TilesLexFrom(host, src, tokens[k].span.end, tokens, k + 1);
    }
  }

  /**
   * Lexing succeeds with exactly the tokens that tile the source: each token is the one that its
   * start determines, and everything between tokens is whitespace.
   */
  lemma {:induction false} LexingIsTiling(host: Host, src: Utf16, tokens: seq<Token>)
    ensures Lexed(host, src) == Tokens(tokens) <==>
      && |src| <= MAX_SOURCE_LENGTH && 0 < |tokens| <= MAX_TOKEN_COUNT + 1
      && Tiles(host, src, tokens)
  {
    if Lexed(host, src) == Tokens(tokens) {
      LexFromTiles(host, src, 0, [], tokens);
    } else if |src| <= MAX_SOURCE_LENGTH && 0 < |tokens| <= MAX_TOKEN_COUNT + 1 && Tiles(host, src, tokens) {
      assert tokens[..0] == [];
      TilesLexFrom(host, src, 0, tokens, 0);
    }
  }

  /** The payload of a token follows from its kind, within the limit on decoded strings. */
  predicate PayloadFits(token: Token) {
    match token.kind
    case NumberKind => token.value.Number?
    case StringKind => token.value.Str? && |token.value.s| <= MAX_STRING_LENGTH && WellFormed(token.value.s)
    case TrueKind => token.value == Boolean(true)
    case FalseKind => token.value == Boolean(false)
    case NullKind => token.value == Null
    case FieldKind => token.value.Str? && 0 < |token.value.s| <= MAX_FIELD_NAME_LENGTH
    case IdentifierKind => token.value.Str? && IsIdentifier(token.value.s)
    case _ => true
  }

  /** A letter or underscore and then letters, digits and underscores. */
  predicate IsWord(w: Utf16) {
    w != [] && IsIdentifierStart(w[0]) && forall k | 0 <= k < |w| :: IsIdentifierPart(w[k])
  }

  /** A word that is no keyword. */
  predicate IsIdentifier(w: Utf16) { IsWord(w) && WordToken(w, Span(0, 0)).kind.IdentifierKind? }

  lemma {:induction false} WellFormedConcat(a: Utf16, b: Utf16)
    requires WellFormed(a) && WellFormed(b)
    ensures WellFormed(a + b)
    decreases |a|
  {
    if a == [] {
      assert a + b == b;
    } else if IsHighSurrogate(a[0]) {
      assert (a + b)[2..] == a[2..] + b;
      WellFormedConcat(a[2..], b);
    } else {
      assert (a + b)[1..] == a[1..] + b;
      WellFormedConcat(a[1..], b);
    }
  }

  /** Every escape or raw character decodes to a character of its own, or to a whole surrogate pair. */
  lemma CharacterWellFormed(src: Utf16, i: nat)
    requires i < |src| && ScanCharacter(src, i).Found? && !IsLineBreak(src[i])
    ensures WellFormed(ScanCharacter(src, i).value)
  {
    var piece := ScanCharacter(src, i).value;
    assert |piece| == 2 ==> IsHighSurrogate(piece[0]) && IsLowSurrogate(piece[1]);
    assert |piece| == 1 ==> !IsHighSurrogate(piece[0]) && !IsLowSurrogate(piece[0]);
  }

  /** Every decoded string literal is well-formed UTF-16. */
  lemma {:induction false} StringWellFormed(src: Utf16, start: nat, i: nat, value: Utf16)
    requires i <= |src| && |value| <= MAX_STRING_LENGTH && WellFormed(value)
    requires ScanString(src, start, i, value).Found?
    ensures WellFormed(ScanString(src, start, i, value).value)
    decreases |src| - i
  {
    if src[i] != QUOTE {
      CharacterWellFormed(src, i);
      var r := ScanCharacter(src, i);
      WellFormedConcat(value, r.value);
      StringWellFormed(src, start, r.next, value + r.value);
    }
  }

  lemma {:induction false} WordPartsTo(src: Utf16, i: nat)
    requires i <= |src|
    ensures forall k | i <= k < WordEnd(src, i) :: IsIdentifierPart(src[k])
    decreases |src| - i
  {
    if i < |src| && IsIdentifierPart(src[i]) { WordPartsTo(src, i + 1); }
  }

  lemma WordPayload(word: Utf16, span: Span)
    requires IsWord(word)
    ensures PayloadFits(WordToken(word, span))
  {
    assert WordToken(word, span).kind == WordToken(word, Span(0, 0)).kind;
  }

  lemma PlacedToken(host: Host, src: Utf16, token: Token)
    requires Placed(host, src, token)
    ensures token.span.start < token.span.end <= |src| && !token.kind.Eof? && PayloadFits(token)
  {
    var i := token.span.start;
    if src[i] == QUOTE {
      StringWellFormed(src, i, i + 1, []);
    } else if src[i] != OPEN_BRACKET && DecimalEnd(src, i) <= i && IsIdentifierStart(src[i]) {
      WordPartsTo(src, i + 1);
      WordPayload(src[i..WordEnd(src, i + 1)], token.span);
    }
  }

  /** What lexing gives: one end-of-file token, last, spans in source order and payloads that fit. */
  ghost predicate Stream(tokens: seq<Token>) {
    && Terminated(tokens)
    && (forall k | 0 <= k < |tokens| :: tokens[k].span.start <= tokens[k].span.end)
    && (forall k | 0 <= k < |tokens| :: PayloadFits(tokens[k]))
    && (forall j, k | 0 <= j < k < |tokens| :: tokens[j].span.end <= tokens[k].span.start)
  }

  /** Each token makes progress and stays within the source. */
  ghost predicate Progresses(src: Utf16, tokens: seq<Token>, k: nat) {
    forall n | k <= n < |tokens| - 1 :: tokens[n].span.start < tokens[n].span.end <= |src|
  }

  lemma {:induction false} SpacedOrder(src: Utf16, i: nat, tokens: seq<Token>, k: nat)
    requires k < |tokens| && Spaced(src, i, tokens, k) && Progresses(src, tokens, k)
    ensures forall n | k <= n < |tokens| :: i <= tokens[n].span.start <= tokens[n].span.end
    ensures forall m, n | k <= m < n < |tokens| :: tokens[m].span.end <= tokens[n].span.start
    decreases |tokens| - k
  {
    if k + 1 < |tokens| {
      SpacedOrder(src, tokens[k].span.end, tokens, k + 1);
    }
  }

  /** Every position that no token covers is whitespace. */
  lemma {:induction false} UncoveredIsSpace(src: Utf16, i: nat, tokens: seq<Token>, k: nat, p: nat)
    requires k < |tokens| && Spaced(src, i, tokens, k) && i <= p < |src|
    requires forall n | k <= n < |tokens| :: !(tokens[n].span.start <= p < tokens[n].span.end)
    ensures IsSpace(src[p])
    decreases |tokens| - k
  {
    if k + 1 < |tokens| && p >= tokens[k].span.start {
      UncoveredIsSpace(src, tokens[k].span.end, tokens, k + 1, p);
    }
  }

  lemma TilesStream(host: Host, src: Utf16, tokens: seq<Token>)
    requires tokens != [] && Tiles(host, src, tokens)
    ensures Stream(tokens)
  {
    forall n | 0 <= n < |tokens| - 1
      ensures tokens[n].span.start < tokens[n].span.end <= |src|
      ensures !tokens[n].kind.Eof? && PayloadFits(tokens[n])
    {
      PlacedToken(host, src, tokens[n]);
    }
    SpacedOrder(src, 0, tokens, 0);
    EndsWithEof(src, 0, tokens, 0);
  }

  lemma {:induction false} EndsWithEof(src: Utf16, i: nat, tokens: seq<Token>, k: nat)
    requires k < |tokens| && Spaced(src, i, tokens, k)
    ensures tokens[|tokens| - 1] == Token(Eof, Null, Span(|src|, |src|))
    decreases |tokens| - k
  {
    if k + 1 < |tokens| {
      EndsWithEof(src, tokens[k].span.end, tokens, k + 1);
    }
  }

  /** The spans of a lexed source are ordered, disjoint and cover all but its whitespace. */
  lemma {:induction false} TokenSpans(host: Host, src: Utf16, tokens: seq<Token>)
    requires Lexed(host, src) == Tokens(tokens)
    ensures Stream(tokens) && |tokens| <= MAX_TOKEN_COUNT + 1
    ensures forall p | 0 <= p < |src| && !IsSpace(src[p]) ::
      exists k | 0 <= k < |tokens| :: tokens[k].span.start <= p < tokens[k].span.end
  {
    LexingIsTiling(host, src, tokens);
    TilesStream(host, src, tokens);
    forall p | 0 <= p < |src| && !IsSpace(src[p])
      ensures exists k | 0 <= k < |tokens| :: tokens[k].span.start <= p < tokens[k].span.end
    {
      if forall k | 0 <= k < |tokens| :: !(tokens[k].span.start <= p < tokens[k].span.end) {
        UncoveredIsSpace(src, 0, tokens, 0, p);
      }
    }
  }
}
