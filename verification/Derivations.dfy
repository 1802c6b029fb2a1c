/** Derivations read off a stream from a position: the tokens, the grammar and the nesting in one predicate. */
module Derivations {
  import opened Syntax
  import opened Parser
  import opened Grammar
  import opened Positions

  /** `t` derives the tokens from `i` on, `depth` levels deep and within the nesting limit. */
  predicate Derived(t: Tree, tokens: seq<Token>, i: nat, depth: int) {
    match t
    case Atom(token) => Has(tokens, i, token) && IsAtomKind(token.kind) && depth <= MAX_NESTING_DEPTH
    case Apply0(builtin, name, open, close) =>
      && Has(tokens, i, name) && Calls(name, builtin) && depth < MAX_NESTING_DEPTH
      && Has(tokens, i + 1, open) && open.kind.LeftParen? && Has(tokens, i + 2, close) && close.kind.RightParen?
    case Apply(builtin, name, open, args, close) =>
      && Has(tokens, i, name) && Calls(name, builtin) && depth < MAX_NESTING_DEPTH
      && Has(tokens, i + 1, open) && open.kind.LeftParen?
      && DerivedAll(args, tokens, i + 2, depth + 1)
      && Has(tokens, i + 2 + WidthAll(args), close) && close.kind.RightParen?
    case Group(open, inner, close) =>
      && Has(tokens, i, open) && open.kind.LeftParen? && depth < MAX_NESTING_DEPTH
      && Derived(inner, tokens, i + 1, depth + 1)
      && Has(tokens, i + 1 + Width(inner), close) && close.kind.RightParen?
    case Negation(not, operand) =>
      && Has(tokens, i, not) && not.kind.NotKind? && depth < MAX_NESTING_DEPTH
      && Derived(operand, tokens, i + 1, depth + 1) && Level(operand) <= 1
    case Infix(op, left, token, right) =>
      && Derived(left, tokens, i, depth) && Level(left) <= LeftLevel(op)
      && Has(tokens, i + Width(left), token) && IsOperator(token.kind, op)
      && Derived(right, tokens, i + Width(left) + 1, depth) && Level(right) < OpLevel(op)
    case Within(candidate, kw, open, members, close) =>
      var j := i + Width(candidate);
      && Derived(candidate, tokens, i, depth) && Level(candidate) <= 1
      && Has(tokens, j, kw) && kw.kind.InKind? && Has(tokens, j + 1, open) && open.kind.LeftParen?
      && AllLiterals(members) && SitsLiterals(members, tokens, j + 2)
      && Has(tokens, j + 2 + WidthLiterals(members), close) && close.kind.RightParen?
  }

  predicate DerivedAll(ts: Trees, tokens: seq<Token>, i: nat, depth: int) {
    match ts
    case One(t) => Derived(t, tokens, i, depth)
    case More(t, comma, rest) =>
      && Derived(t, tokens, i, depth)
      && Has(tokens, i + Width(t), comma) && comma.kind.Comma?
      && DerivedAll(rest, tokens, i + Width(t) + 1, depth)
  }

  lemma {:induction false} DerivedSits(t: Tree, tokens: seq<Token>, i: nat, depth: int)
    ensures Derived(t, tokens, i, depth) <==>
      Derives(t) && Sits(t, tokens, i) && depth + Nesting(t) <= MAX_NESTING_DEPTH
  {
    match t
    case Atom(_) =>
    case Apply0(_, _, _, _) =>
    case Apply(_, _, _, args, _) => DerivedSitsAll(args, tokens, i + 2, depth + 1);
    case Group(_, inner, _) => DerivedSits(inner, tokens, i + 1, depth + 1);
    case Negation(_, operand) => DerivedSits(operand, tokens, i + 1, depth + 1);
    case Infix(_, left, _, right) =>
      DerivedSits(left, tokens, i, depth);
      DerivedSits(right, tokens, i + Width(left) + 1, depth);
    case Within(candidate, _, _, _, _) => DerivedSits(candidate, tokens, i, depth);
  }

  lemma {:induction false} DerivedSitsAll(ts: Trees, tokens: seq<Token>, i: nat, depth: int)
    ensures DerivedAll(ts, tokens, i, depth) <==>
      DerivesAll(ts) && SitsAll(ts, tokens, i) && depth + NestingAll(ts) <= MAX_NESTING_DEPTH
  {
    match ts
    case One(t) => DerivedSits(t, tokens, i, depth);
    case More(t, _, rest) =>
      DerivedSits(t, tokens, i, depth);
      DerivedSitsAll(rest, tokens, i + Width(t) + 1, depth);
  }

  /** A derivation whose yield is all of the stream but its last token is read from the first position. */
  lemma YieldIsDerived(t: Tree, tokens: seq<Token>, depth: int)
    requires tokens != []
    ensures Derived(t, tokens, 0, depth) && Width(t) == |tokens| - 1 <==>
      Derives(t) && Yield(t) == tokens[..|tokens| - 1] && depth + Nesting(t) <= MAX_NESTING_DEPTH
  {
    DerivedSits(t, tokens, 0, depth);
    SitsIsSlice(t, tokens, 0);
  }

  lemma InfixDenotes(t: Tree)
    requires t.Infix?
    ensures Denotes(t) == Join(t.op, Denotes(t.left), Denotes(t.right))
    ensures Width(t) == Width(t.left) + 1 + Width(t.right)
  {}

  /** The call of `builtin` at `i` with the arguments `ts`. */
  function CallOf(builtin: Builtin, ts: Trees, tokens: seq<Token>, i: nat): Parsed<Expr>
    requires i + 2 + WidthAll(ts) < |tokens|
  {
    var j := i + 2 + WidthAll(ts);
    Ok(Call(builtin, DenotesAll(ts), Span(tokens[i].span.start, tokens[j].span.end)), j + 1)
  }

  /** `members` is the bracketed list after the IN at `j`. */
  predicate Lists(members: Literals, tokens: seq<Token>, j: nat) {
    var k := j + 2 + WidthLiterals(members);
    && k < |tokens| && tokens[j].kind.InKind? && tokens[j + 1].kind.LeftParen? && tokens[k].kind.RightParen?
    && AllLiterals(members) && SitsLiterals(members, tokens, j + 2)
  }

  /** The test of `left` against that list. */
  function InOf(left: Expr, members: Literals, tokens: seq<Token>, j: nat): Parsed<Expr>
    requires j + 2 + WidthLiterals(members) < |tokens|
  {
    var k := j + 2 + WidthLiterals(members);
    Ok(Membership(left, DenotesLiterals(members), Span(left.span.start, tokens[k].span.end)), k + 1)
  }
}
