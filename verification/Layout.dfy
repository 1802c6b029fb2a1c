/** Source text laid out from tokens: every spelling is followed by a space, and the lexer reads it back. */
module Layout {
  import opened Text
  import opened Syntax
  import opened Lexer
  import opened LexerLaws
  import opened Spelling

  /** The first `n` texts one after the other, each followed by a space. */
  function Joined(texts: seq<Utf16>, n: nat): Utf16
    requires n <= |texts|
  {
    if n == 0 then [] else Joined(texts, n - 1) + texts[n - 1] + [SPACE]
  }

  lemma StandsLast(before: Utf16, text: Utf16)
    ensures Stands(before + text + [SPACE], |before|, text)
  {}

  lemma StandsLonger(src: Utf16, after: Utf16, i: nat, text: Utf16)
    requires Stands(src, i, text)
    ensures Stands(src + after, i, text)
  {
    forall k | 0 <= k < |text| ensures (src + after)[i + k] == text[k] {
      assert (src + after)[i + k] == src[i + k];
    }
    assert (src + after)[i + |text|] == src[i + |text|];
  }

  /** The `n`-th text stands after the texts before it. */
  lemma {:induction false} TextStands(texts: seq<Utf16>, to: nat, n: nat)
    requires n < to <= |texts|
    ensures Stands(Joined(texts, to), |Joined(texts, n)|, texts[n])
  {
    var before, last := Joined(texts, to - 1), texts[to - 1];
    if n == to - 1 {
      StandsLast(before, last);
    } else {
      TextStands(texts, to - 1, n);
      StandsLonger(before, last + [SPACE], |Joined(texts, n)|, texts[n]);
      assert before + last + [SPACE] == before + (last + [SPACE]);
    }
  }

  // --------------------------------------------------------------------- gaps

  /** Exactly one unit, a space, lies between the `n`-th token and the next one. */
  ghost predicate Gap(src: Utf16, placed: seq<Token>, n: nat)
    requires n + 1 < |placed|
  {
    var end := placed[n].span.end;
    end < |src| && src[end] == SPACE && placed[n + 1].span.start == end + 1
  }

  lemma BlankUnit(src: Utf16, i: nat)
    requires i < |src| && src[i] == SPACE
    ensures Blank(src, i, i + 1)
  {}

  lemma {:induction false} GapsSpaced(src: Utf16, placed: seq<Token>, k: nat)
    requires k + 1 < |placed| && placed[|placed| - 1] == Token(Eof, Null, Span(|src|, |src|))
    requires forall n | k <= n < |placed| - 1 :: Gap(src, placed, n)
    ensures Spaced(src, placed[k].span.end, placed, k + 1)
    decreases |placed| - k
  {
    assert Gap(src, placed, k);
    BlankUnit(src, placed[k].span.end);
    if k + 2 < |placed| {
      GapsSpaced(src, placed, k + 1);
    }
  }

  // ------------------------------------------------------------- main theorem

  function Spellings(host: Host, tokens: seq<Token>): seq<Utf16> {
    seq(|tokens|, n requires 0 <= n < |tokens| => Spell(host, tokens[n]))
  }

  /** The source text of the first `n` tokens: each spelling and a space after it. */
  function Written(host: Host, tokens: seq<Token>, n: nat): Utf16
    requires n <= |tokens|
  {
    Joined(Spellings(host, tokens), n)
  }

  /** The `n`-th token with the span it gets in that text; the end of file comes last. */
  function PlacedAt(host: Host, tokens: seq<Token>, n: nat): Token
    requires n <= |tokens|
  {
    var start := |Written(host, tokens, n)|;
    if n < |tokens| then At(host, tokens[n], start) else Token(Eof, Null, Span(start, start))
  }

  lemma TokenStands(host: Host, tokens: seq<Token>, n: nat)
    requires n < |tokens|
    ensures var start := |Written(host, tokens, n)|;
            && Stands(Written(host, tokens, |tokens|), start, Spell(host, tokens[n]))
            && |Written(host, tokens, n + 1)| == start + |Spell(host, tokens[n])| + 1
  {
    TextStands(Spellings(host, tokens), |tokens|, n);
  }

  lemma {:induction false} PlacedSpaced(host: Host, tokens: seq<Token>, placed: seq<Token>)
    requires |placed| == |tokens| + 1 && forall n | 0 <= n <= |tokens| :: placed[n] == PlacedAt(host, tokens, n)
    ensures Spaced(Written(host, tokens, |tokens|), 0, placed, 0)
  {
    var src := Written(host, tokens, |tokens|);
    forall n | 0 <= n < |tokens| ensures Gap(src, placed, n) {
      TokenStands(host, tokens, n);
    }
    if tokens != [] {
      GapsSpaced(src, placed, 0);
    }
  }

  /** Lexing a written list within the limits returns its tokens, with their places. */
  lemma WrittenLexes(host: Host, tokens: seq<Token>) returns (placed: seq<Token>)
    requires forall n | 0 <= n < |tokens| :: Spellable(host, tokens[n])
    requires |Written(host, tokens, |tokens|)| <= MAX_SOURCE_LENGTH && |tokens| <= MAX_TOKEN_COUNT
    ensures Lexed(host, Written(host, tokens, |tokens|)) == Tokens(placed) && |placed| == |tokens| + 1
    ensures forall k | 0 <= k < |tokens| :: placed[k].kind == tokens[k].kind && placed[k].value == tokens[k].value
  {
    var src := Written(host, tokens, |tokens|);
    placed := seq(|tokens| + 1, n requires 0 <= n <= |tokens| => PlacedAt(host, tokens, n));
    PlacedSpaced(host, tokens, placed);
    forall n | 0 <= n < |tokens| ensures Placed(host, src, placed[n]) {
      TokenStands(host, tokens, n);
      SpellingScans(host, src, |Written(host, tokens, n)|, tokens[n]);
    }
    LexingIsTiling(host, src, placed);
  }
}
