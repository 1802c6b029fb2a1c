/** The grammar as derivation trees: which token streams spell which expressions. */
module Grammar {
  import opened Basics
  import opened Syntax
  import opened Parser

  /** A derivation. Its leaves are the tokens it spans; parentheses keep their own node. */
  datatype Tree =
    | Atom(token: Token)
    | Apply0(builtin: Builtin, name: Token, open: Token, close: Token)
    | Apply(builtin: Builtin, name: Token, open: Token, args: Trees, close: Token)
    | Group(open: Token, inner: Tree, close: Token)
    | Negation(not: Token, operand: Tree)
    | Infix(op: BinaryOp, left: Tree, token: Token, right: Tree)
    | Within(candidate: Tree, kw: Token, open: Token, members: Literals, close: Token)

  /** One or more trees, or literals, separated by commas. */
  datatype Trees = One(only: Tree) | More(first: Tree, comma: Token, rest: Trees)

  datatype Literals = OneLiteral(only: Token) | MoreLiterals(first: Token, comma: Token, rest: Literals)

  /** Precedence, tightest first: 0 primary, 1 NOT, 2 comparison, 3 AND, 4 OR. */
  function Level(t: Tree): nat {
    match t
    case Negation(_, _) => 1
    case Infix(op, _, _, _) => OpLevel(op)
    case Within(_, _, _, _, _) => 2
    case _ => 0
  }

  function OpLevel(op: BinaryOp): nat { if op.Or? then 4 else if op.And? then 3 else 2 }

  /** Chains of AND and of OR lean left; comparisons do not chain. */
  function LeftLevel(op: BinaryOp): nat { if op.Or? then 4 else if op.And? then 3 else 1 }

  predicate IsOperator(kind: Kind, op: BinaryOp) {
    if op.Or? then kind.OrKind? else if op.And? then kind.AndKind? else ComparisonOp(kind) == Some(op)
  }

  predicate IsAtomKind(kind: Kind) { IsLiteralKind(kind) || kind.FieldKind? || kind.IdentifierKind? }

  predicate Calls(name: Token, builtin: Builtin) {
    name.kind.IdentifierKind? && GetBuiltin(NameOf(name)) == Some(builtin)
  }

  /** Every node has the tokens of its production and operands that bind tightly enough. */
  predicate Derives(t: Tree) {
    match t
    case Atom(token) => IsAtomKind(token.kind)
    case Apply0(builtin, name, open, close) =>
      Calls(name, builtin) && open.kind.LeftParen? && close.kind.RightParen?
    case Apply(builtin, name, open, args, close) =>
      Calls(name, builtin) && open.kind.LeftParen? && DerivesAll(args) && close.kind.RightParen?
    case Group(open, inner, close) => open.kind.LeftParen? && Derives(inner) && close.kind.RightParen?
    case Negation(not, operand) => not.kind.NotKind? && Derives(operand) && Level(operand) <= 1
    case Infix(op, left, token, right) =>
      && IsOperator(token.kind, op)
      && Derives(left) && Level(left) <= LeftLevel(op) && Derives(right) && Level(right) < OpLevel(op)
    case Within(candidate, kw, open, members, close) =>
      && Derives(candidate) && Level(candidate) <= 1
      && kw.kind.InKind? && open.kind.LeftParen? && AllLiterals(members) && close.kind.RightParen?
  }

  predicate DerivesAll(ts: Trees) {
    match ts
    case One(t) => Derives(t)
    case More(t, comma, rest) => Derives(t) && comma.kind.Comma? && DerivesAll(rest)
  }

  predicate AllLiterals(ls: Literals) {
    match ls
    case OneLiteral(token) => IsLiteralKind(token.kind)
    case MoreLiterals(token, comma, rest) => IsLiteralKind(token.kind) && comma.kind.Comma? && AllLiterals(rest)
  }

  /** The tokens of a derivation, left to right. */
  function Yield(t: Tree): seq<Token> {
    match t
    case Atom(token) => [token]
    case Apply0(_, name, open, close) => [name, open, close]
    case Apply(_, name, open, args, close) => [name, open] + YieldAll(args) + [close]
    case Group(open, inner, close) => [open] + Yield(inner) + [close]
    case Negation(not, operand) => [not] + Yield(operand)
    case Infix(_, left, token, right) => Yield(left) + [token] + Yield(right)
    case Within(candidate, kw, open, members, close) =>
      Yield(candidate) + [kw, open] + YieldLiterals(members) + [close]
  }

  function YieldAll(ts: Trees): seq<Token> {
    match ts
    case One(t) => Yield(t)
    case More(t, comma, rest) => Yield(t) + [comma] + YieldAll(rest)
  }

  function YieldLiterals(ls: Literals): seq<Token> {
    match ls
    case OneLiteral(token) => [token]
    case MoreLiterals(token, comma, rest) => [token, comma] + YieldLiterals(rest)
  }

  /** The expression a derivation denotes. */
  function Denotes(t: Tree): Expr {
    match t
    case Atom(token) =>
      if IsLiteralKind(token.kind) then LiteralExpr(token) else Field(NameOf(token), token.span)
    case Apply0(builtin, name, _, close) => Call(builtin, [], Span(name.span.start, close.span.end))
    case Apply(builtin, name, _, args, close) =>
      Call(builtin, DenotesAll(args), Span(name.span.start, close.span.end))
    case Group(_, inner, _) => Denotes(inner)
    case Negation(not, operand) => Not(Denotes(operand), Span(not.span.start, Denotes(operand).span.end))
    case Infix(op, left, _, right) => Join(op, Denotes(left), Denotes(right))
    case Within(candidate, _, _, members, close) =>
      Membership(Denotes(candidate), DenotesLiterals(members), Span(Denotes(candidate).span.start, close.span.end))
  }

  function DenotesAll(ts: Trees): seq<Expr> {
    match ts
    case One(t) => [Denotes(t)]
    case More(t, _, rest) => [Denotes(t)] + DenotesAll(rest)
  }

  function DenotesLiterals(ls: Literals): seq<LiteralNode> {
    match ls
    case OneLiteral(token) => [LiteralFrom(token)]
    case MoreLiterals(token, _, rest) => [LiteralFrom(token)] + DenotesLiterals(rest)
  }

  /** How deeply calls, groups and negations are nested in each other. */
  function Nesting(t: Tree): nat {
    match t
    case Atom(_) => 0
    case Apply0(_, _, _, _) => 1
    case Apply(_, _, _, args, _) => 1 + NestingAll(args)
    case Group(_, inner, _) => 1 + Nesting(inner)
    case Negation(_, operand) => 1 + Nesting(operand)
    case Infix(_, left, _, right) => Max(Nesting(left), Nesting(right))
    case Within(candidate, _, _, _, _) => Nesting(candidate)
  }

  function NestingAll(ts: Trees): nat {
    match ts
    case One(t) => Nesting(t)
    case More(t, _, rest) => Max(Nesting(t), NestingAll(rest))
  }

  /** `t` spells all of `tokens` up to the end of file, within the nesting limit. */
  ghost predicate Spells(t: Tree, tokens: seq<Token>)
    requires tokens != []
  {
    Derives(t) && Yield(t) == tokens[..|tokens| - 1] && Nesting(t) <= MAX_NESTING_DEPTH
  }

  // ------------------------------------------- the yield by position, not by slices

  function Width(t: Tree): (w: nat)
    ensures w > 0
  {
    match t
    case Atom(_) => 1
    case Apply0(_, _, _, _) => 3
    case Apply(_, _, _, args, _) => WidthAll(args) + 3
    case Group(_, inner, _) => Width(inner) + 2
    case Negation(_, operand) => Width(operand) + 1
    case Infix(_, left, _, right) => Width(left) + 1 + Width(right)
    case Within(candidate, _, _, members, _) => Width(candidate) + WidthLiterals(members) + 3
  }

  function WidthAll(ts: Trees): (w: nat)
    ensures w > 0
  {
    match ts
    case One(t) => Width(t)
    case More(t, _, rest) => Width(t) + 1 + WidthAll(rest)
  }

  function WidthLiterals(ls: Literals): (w: nat)
    ensures w > 0
  {
    match ls
    case OneLiteral(_) => 1
    case MoreLiterals(_, _, rest) => 2 + WidthLiterals(rest)
  }

  predicate Has(tokens: seq<Token>, i: nat, token: Token) { i < |tokens| && tokens[i] == token }

  /** The tokens of `t` stand in `tokens` from position `i` on. */
  predicate Sits(t: Tree, tokens: seq<Token>, i: nat) {
    match t
    case Atom(token) => Has(tokens, i, token)
    case Apply0(_, name, open, close) => Has(tokens, i, name) && Has(tokens, i + 1, open) && Has(tokens, i + 2, close)
    case Apply(_, name, open, args, close) =>
      && Has(tokens, i, name) && Has(tokens, i + 1, open)
      && SitsAll(args, tokens, i + 2) && Has(tokens, i + 2 + WidthAll(args), close)
    case Group(open, inner, close) =>
      Has(tokens, i, open) && Sits(inner, tokens, i + 1) && Has(tokens, i + 1 + Width(inner), close)
    case Negation(not, operand) => Has(tokens, i, not) && Sits(operand, tokens, i + 1)
    case Infix(_, left, token, right) =>
      && Sits(left, tokens, i) && Has(tokens, i + Width(left), token)
      && Sits(right, tokens, i + Width(left) + 1)
    case Within(candidate, kw, open, members, close) =>
      var j := i + Width(candidate);
      && Sits(candidate, tokens, i) && Has(tokens, j, kw) && Has(tokens, j + 1, open)
      && SitsLiterals(members, tokens, j + 2) && Has(tokens, j + 2 + WidthLiterals(members), close)
  }

  predicate SitsAll(ts: Trees, tokens: seq<Token>, i: nat) {
    match ts
    case One(t) => Sits(t, tokens, i)
    case More(t, comma, rest) =>
      && Sits(t, tokens, i) && Has(tokens, i + Width(t), comma)
      && SitsAll(rest, tokens, i + Width(t) + 1)
  }

  predicate SitsLiterals(ls: Literals, tokens: seq<Token>, i: nat) {
    match ls
    case OneLiteral(token) => Has(tokens, i, token)
    case MoreLiterals(token, comma, rest) =>
      Has(tokens, i, token) && Has(tokens, i + 1, comma) && SitsLiterals(rest, tokens, i + 2)
  }
}
