/** One production of the parser at a time, from the results of its parts to the result of the whole. */
module ParserSteps {
  import opened Syntax
  import opened Parser
  import opened Grammar

  lemma RelationStep(tokens: seq<Token>, i: nat, depth: int, left: Expr, j: nat, right: Expr, k: nat)
    requires Ended(tokens) && i < |tokens| && j + 1 < |tokens|
    requires NotAt(tokens, i, depth) == Ok(left, j) && ComparisonOp(tokens[j].kind).Some?
    requires NotAt(tokens, j + 1, depth) == Ok(right, k)
    ensures ComparisonAt(tokens, i, depth) == Ok(Join(ComparisonOp(tokens[j].kind).value, left, right), k)
  {}

  lemma InStart(tokens: seq<Token>, i: nat, depth: int, left: Expr, j: nat)
    requires Ended(tokens) && i < |tokens| && j < |tokens|
    requires NotAt(tokens, i, depth) == Ok(left, j) && tokens[j].kind.InKind?
    ensures ComparisonAt(tokens, i, depth) == InAt(tokens, left, j)
  {}

  lemma InStep(tokens: seq<Token>, left: Expr, j: nat, members: seq<LiteralNode>, k: nat)
    requires Ended(tokens) && j + 2 < |tokens| && k < |tokens|
    requires tokens[j].kind.InKind? && tokens[j + 1].kind.LeftParen? && !tokens[j + 2].kind.RightParen?
    requires MembersAt(tokens, j + 2, []) == Ok(members, k) && tokens[k].kind.RightParen?
    ensures InAt(tokens, left, j) == Ok(Membership(left, members, Span(left.span.start, tokens[k].span.end)), k + 1)
  {}

  lemma AndStep(tokens: seq<Token>, left: Expr, i: nat, depth: int, right: Expr, j: nat)
    requires Ended(tokens) && i + 1 < |tokens| && j < |tokens| && tokens[i].kind.AndKind?
    requires ComparisonAt(tokens, i + 1, depth) == Ok(right, j)
    ensures AndLoop(tokens, left, i, depth) == AndLoop(tokens, Join(And, left, right), j, depth)
  {}

  lemma AndStart(tokens: seq<Token>, i: nat, depth: int, left: Expr, j: nat)
    requires Ended(tokens) && i < |tokens| && ComparisonAt(tokens, i, depth) == Ok(left, j)
    ensures j < |tokens| && AndAt(tokens, i, depth) == AndLoop(tokens, left, j, depth)
  {}

  lemma OrStart(tokens: seq<Token>, i: nat, depth: int, left: Expr, j: nat)
    requires Ended(tokens) && i < |tokens| && AndAt(tokens, i, depth) == Ok(left, j)
    ensures j < |tokens| && OrAt(tokens, i, depth) == OrLoop(tokens, left, j, depth)
  {}

  lemma OrStep(tokens: seq<Token>, left: Expr, i: nat, depth: int, right: Expr, j: nat)
    requires Ended(tokens) && i + 1 < |tokens| && j < |tokens| && tokens[i].kind.OrKind?
    requires AndAt(tokens, i + 1, depth) == Ok(right, j)
    ensures OrLoop(tokens, left, i, depth) == OrLoop(tokens, Join(Or, left, right), j, depth)
  {}

  lemma ArgumentStep(tokens: seq<Token>, i: nat, depth: int, before: seq<Expr>, argument: Expr, j: nat)
    requires Ended(tokens) && i < |tokens| && j + 1 < |tokens|
    requires OrAt(tokens, i, depth) == Ok(argument, j)
    requires tokens[j].kind.Comma? && !tokens[j + 1].kind.RightParen?
    ensures ArgumentsAt(tokens, i, depth, before) == ArgumentsAt(tokens, j + 1, depth, before + [argument])
  {}

  /** What an accepted list looks like after the IN at `j`. */
  lemma InParts(tokens: seq<Token>, left: Expr, j: nat)
    requires Ended(tokens) && j < |tokens| && tokens[j].kind.InKind?
    requires InAt(tokens, left, j).Ok?
    ensures j + 2 < |tokens| && tokens[j + 1].kind.LeftParen? && !tokens[j + 2].kind.RightParen?
    ensures MembersAt(tokens, j + 2, []).Ok? && tokens[MembersAt(tokens, j + 2, []).next].kind.RightParen?
  {}

  lemma GroupStep(tokens: seq<Token>, i: nat, depth: int, inner: Expr, j: nat)
    requires Ended(tokens) && i + 1 < |tokens| && j < |tokens| && depth < MAX_NESTING_DEPTH
    requires tokens[i].kind.LeftParen? && OrAt(tokens, i + 1, depth + 1) == Ok(inner, j)
    requires tokens[j].kind.RightParen?
    ensures PrimaryAt(tokens, i, depth) == Ok(inner, j + 1)
  {}

  lemma CallStep(tokens: seq<Token>, i: nat, depth: int, builtin: Builtin)
    requires Ended(tokens) && i + 2 < |tokens|
    requires Calls(tokens[i], builtin) && tokens[i + 1].kind.LeftParen?
    ensures PrimaryAt(tokens, i, depth) == CallAt(tokens, i, depth, builtin)
  {}
}
