/** Parsing, rendering and parsing again: every accepted source, not only trees built for the purpose. */
module RoundTrip {
  import opened Text
  import opened Syntax
  import opened Lexer
  import opened LexerLaws
  import opened Parser
  import opened Grammar
  import opened Positions
  import opened ParserLaws
  import opened Spelling
  import opened Render

  // ---------------------------------------------- parsed trees can be read back

  ghost predicate ValueSpells(host: Host, value: Value) {
    value.Number? ==> HostReads(host, host.show(value.r), value.r)
  }

  /** The numbers of the tree are ones that the host prints in a form it reads back. */
  ghost predicate NumbersSpell(host: Host, e: Expr)
    decreases e, 1
  {
    match e
    case Literal(value, _) => ValueSpells(host, value)
    case Field(_, _) => true
    case Not(operand, _) => NumbersSpell(host, operand)
    case Binary(_, left, right, _) => NumbersSpell(host, left) && NumbersSpell(host, right)
    case Membership(candidate, members, _) =>
      NumbersSpell(host, candidate) && forall k | 0 <= k < |members| :: ValueSpells(host, members[k].value)
    case Call(_, args, _) => AllNumbersSpell(host, args)
  }

  ghost predicate AllNumbersSpell(host: Host, es: seq<Expr>)
    decreases es, 0
  {
    es == [] || (NumbersSpell(host, es[0]) && AllNumbersSpell(host, es[1..]))
  }

  ghost predicate PayloadsFit(tokens: seq<Token>) { forall k | 0 <= k < |tokens| :: PayloadFits(tokens[k]) }

  lemma LiteralReads(host: Host, token: Token)
    requires PayloadFits(token) && IsLiteralKind(token.kind) && ValueSpells(host, token.value)
    ensures Spellable(host, LiteralToken(token.value))
  {
  }

  /** A derivation over tokens of the lexer denotes a tree that can be written and read, but for its numbers. */
  lemma {:induction false} DerivedReads(host: Host, t: Tree, tokens: seq<Token>, i: nat)
    requires Derives(t) && Sits(t, tokens, i) && PayloadsFit(tokens)
    ensures Writable(Denotes(t))
    ensures NumbersSpell(host, Denotes(t)) ==> Readable(host, Denotes(t))
  {
    match t
    case Atom(token) =>
      assert PayloadFits(tokens[i]);
      if IsLiteralKind(token.kind) && ValueSpells(host, token.value) { LiteralReads(host, token); }
    case Apply0(_, _, _, _) =>
    case Apply(_, _, _, args, _) => DerivedReadsAll(host, args, tokens, i + 2);
    case Group(_, inner, _) => DerivedReads(host, inner, tokens, i + 1);
    case Negation(_, operand) => DerivedReads(host, operand, tokens, i + 1);
    case Infix(_, left, _, right) =>
      DerivedReads(host, left, tokens, i);
      DerivedReads(host, right, tokens, i + Width(left) + 1);
    case Within(candidate, _, _, members, _) =>
      DerivedReads(host, candidate, tokens, i);
      DerivedReadsLiterals(host, members, tokens, i + Width(candidate) + 2);
  }

  lemma {:induction false} DerivedReadsAll(host: Host, ts: Trees, tokens: seq<Token>, i: nat)
    requires DerivesAll(ts) && SitsAll(ts, tokens, i) && PayloadsFit(tokens)
    ensures WritableAll(DenotesAll(ts))
    ensures AllNumbersSpell(host, DenotesAll(ts)) ==> ReadableAll(host, DenotesAll(ts))
  {
    match ts
    case One(t) =>
      DerivedReads(host, t, tokens, i);
      assert DenotesAll(ts)[1..] == [];
    case More(t, _, rest) =>
      DerivedReads(host, t, tokens, i);
      DerivedReadsAll(host, rest, tokens, i + Width(t) + 1);
      assert DenotesAll(ts)[1..] == DenotesAll(rest);
  }

  lemma {:induction false} DerivedReadsLiterals(host: Host, ls: Literals, tokens: seq<Token>, i: nat)
    requires AllLiterals(ls) && SitsLiterals(ls, tokens, i) && PayloadsFit(tokens)
    ensures DenotesLiterals(ls) != []
    ensures
      forall k | 0 <= k < |DenotesLiterals(ls)| && ValueSpells(host, DenotesLiterals(ls)[k].value) ::
        Spellable(host, LiteralToken(DenotesLiterals(ls)[k].value))
  {
    var first := if ls.OneLiteral? then ls.only else ls.first;
    assert PayloadFits(tokens[i]);
    if ValueSpells(host, first.value) { LiteralReads(host, first); }
    if ls.MoreLiterals? { DerivedReadsLiterals(host, ls.rest, tokens, i + 2); }
  }

  // ------------------------------------------------ rendering needs no more room

  /** Written with only the needed parentheses, a tree takes no more tokens and no more nesting than it was parsed from. */
  lemma {:induction false} WriteIsMinimal(t: Tree, level: nat)
    requires Derives(t) && Level(t) <= level <= 4 && Writable(Denotes(t))
    ensures Width(Write(Denotes(t), level)) <= Width(t) && Nesting(Write(Denotes(t), level)) <= Nesting(t)
  {
    match t
    case Atom(_) =>
    case Apply0(_, _, _, _) =>
    case Apply(_, _, _, args, _) => WriteAllIsMinimal(args);
    case Group(_, inner, _) => WriteIsMinimal(inner, 4);
    case Negation(_, operand) => WriteIsMinimal(operand, 1);
    case Infix(op, left, _, right) =>
      WriteIsMinimal(left, LeftLevel(op));
      WriteIsMinimal(right, OpLevel(op) - 1);
    case Within(candidate, _, _, members, _) =>
      WriteIsMinimal(candidate, 1);
      WriteMembersWidth(DenotesLiterals(members));
      LiteralCount(members);
  }

  lemma {:induction false} WriteAllIsMinimal(ts: Trees)
    requires DerivesAll(ts) && WritableAll(DenotesAll(ts))
    ensures DenotesAll(ts) != []
    ensures WidthAll(WriteAll(DenotesAll(ts))) <= WidthAll(ts)
    ensures NestingAll(WriteAll(DenotesAll(ts))) <= NestingAll(ts)
  {
    match ts
    case One(t) => WriteIsMinimal(t, 4);
    case More(t, _, rest) =>
      assert DenotesAll(ts)[1..] == DenotesAll(rest);
      WriteIsMinimal(t, 4);
      WriteAllIsMinimal(rest);
  }

  lemma {:induction false} WriteMembersWidth(members: seq<LiteralNode>)
    requires members != []
    ensures WidthLiterals(WriteMembers(members)) == 2 * |members| - 1
  {
    if |members| > 1 { WriteMembersWidth(members[1..]); }
  }

  lemma {:induction false} LiteralCount(ls: Literals)
    ensures DenotesLiterals(ls) != [] && WidthLiterals(ls) == 2 * |DenotesLiterals(ls)| - 1
  {
    if ls.MoreLiterals? { LiteralCount(ls.rest); }
  }

  // --------------------------------------------------------------- main theorem

  /** A parsed tree can be written and read, but for its numbers, and rendering it keeps the limits on tokens and nesting. */
  lemma ParsedIsReadable(host: Host, source: Utf16, tokens: seq<Token>, e: Expr)
    requires Stream(tokens) && |tokens| <= MAX_TOKEN_COUNT + 1 && TreeOf(source, tokens) == Parser.Tree(e)
    ensures Writable(e) && (NumbersSpell(host, e) ==> Readable(host, e))
    ensures |Rendering(e)| <= MAX_TOKEN_COUNT && Nesting(Write(e, 4)) <= MAX_NESTING_DEPTH
  {
    var t := AcceptedIsDerived(tokens);
    SitsIsSlice(t, tokens, 0);
    DerivedReads(host, t, tokens, 0);
    WriteIsMinimal(t, 4);
    SitsIsSlice(Write(e, 4), [], 0);
  }

  /**
   * Whatever source was accepted: its tree, rendered, is accepted again as the same tree up to spans, provided the
   * host reads back the numbers it prints and the rendered text is not longer than a source may be.
   */
  lemma ParseRenderParse(host: Host, source: Utf16, tokens: seq<Token>, e: Expr)
      returns (again: seq<Token>, parsed: Expr)
    requires Lexed(host, source) == Tokens(tokens) && Ended(tokens) && TreeOf(source, tokens) == Parser.Tree(e)
    requires NumbersSpell(host, e)
    ensures Writable(e) && Readable(host, e)
    ensures |Source(host, e)| <= MAX_SOURCE_LENGTH ==>
      && Lexed(host, Source(host, e)) == Tokens(again) && Ended(again)
      && TreeOf(Source(host, e), again) == Parser.Tree(parsed) && Erase(parsed) == Erase(e)
  {
    TokenSpans(host, source, tokens);
    ParsedIsReadable(host, source, tokens, e);
    again, parsed := tokens, e;
    if |Source(host, e)| <= MAX_SOURCE_LENGTH {
      again, parsed := SourceRoundTrip(host, e);
    }
  }
}
