/** What every tree the parser returns satisfies: its size, its spans and its literals. */
module TreeLaws {
  import opened Text
  import opened Syntax
  import opened Parser
  import opened Grammar
  import opened Positions
  import opened LexerLaws
  import opened ParserLaws

  /** The number of nodes, counting each member of an IN list as one. */
  function Nodes(e: Expr): (n: nat)
    ensures n > 0
    decreases e, 1
  {
    match e
    case Literal(_, _) => 1
    case Field(_, _) => 1
    case Not(operand, _) => 1 + Nodes(operand)
    case Binary(_, left, right, _) => 1 + Nodes(left) + Nodes(right)
    case Membership(candidate, members, _) => 1 + Nodes(candidate) + |members|
    case Call(_, args, _) => 1 + NodesAll(args)
  }

  function NodesAll(es: seq<Expr>): nat
    decreases es, 0
  {
    if es == [] then 0 else Nodes(es[0]) + NodesAll(es[1..])
  }

  lemma {:induction false} SizeWithinWidth(t: Tree)
    requires Derives(t)
    ensures Nodes(Denotes(t)) <= Width(t)
  {
    match t
    case Apply(_, _, _, args, _) => SizeWithinWidthAll(args);
    case Group(_, inner, _) => SizeWithinWidth(inner);
    case Negation(_, operand) => SizeWithinWidth(operand);
    case Infix(_, left, _, right) =>
      SizeWithinWidth(left);
      SizeWithinWidth(right);
    case Within(candidate, _, _, members, _) =>
      SizeWithinWidth(candidate);
      MembersWithinWidth(members);
    case _ =>
  }

  lemma {:induction false} SizeWithinWidthAll(ts: Trees)
    requires DerivesAll(ts)
    ensures NodesAll(DenotesAll(ts)) <= WidthAll(ts)
  {
    match ts
    case One(t) =>
      SizeWithinWidth(t);
      assert DenotesAll(ts)[1..] == [];
    case More(t, _, rest) =>
      SizeWithinWidth(t);
      SizeWithinWidthAll(rest);
      assert DenotesAll(ts)[1..] == DenotesAll(rest);
  }

  lemma {:induction false} MembersWithinWidth(ls: Literals)
    ensures |DenotesLiterals(ls)| <= WidthLiterals(ls)
  {
    if ls.MoreLiterals? {
      MembersWithinWidth(ls.rest);
    }
  }

  // --------------------------------------------------------------------- spans

  predicate Inside(inner: Span, outer: Span) { outer.start <= inner.start && inner.end <= outer.end }

  /** Spans nest in their parents, and siblings stand left to right. */
  predicate Nested(e: Expr)
    decreases e, 1
  {
    && e.span.start <= e.span.end
    && match e
       case Literal(_, _) => true
       case Field(_, _) => true
       case Not(operand, _) => Nested(operand) && Inside(operand.span, e.span)
       case Binary(_, left, right, _) =>
         && Nested(left) && Inside(left.span, e.span)
         && Nested(right) && Inside(right.span, e.span)
         && left.span.end <= right.span.start
       case Membership(candidate, members, _) =>
         && Nested(candidate) && Inside(candidate.span, e.span)
         && MembersFrom(members, candidate.span.end, e.span.end)
       case Call(_, args, _) => NestedFrom(args, e.span.start, e.span.end)
  }

  /** The expressions stand one after another between `from` and `to`. */
  predicate NestedFrom(es: seq<Expr>, from: nat, to: nat)
    decreases es, 0
  {
    if es == [] then from <= to
    else Nested(es[0]) && from <= es[0].span.start && NestedFrom(es[1..], es[0].span.end, to)
  }

  predicate MembersFrom(members: seq<LiteralNode>, from: nat, to: nat) {
    if members == [] then from <= to
    else
      && from <= members[0].span.start <= members[0].span.end
      && MembersFrom(members[1..], members[0].span.end, to)
  }

  lemma {:induction false} NestedWiden(es: seq<Expr>, from: nat, to: nat, lower: nat, upper: nat)
    requires NestedFrom(es, from, to) && lower <= from && to <= upper
    ensures NestedFrom(es, lower, upper)
  {
    if es != [] {
      NestedWiden(es[1..], es[0].span.end, to, es[0].span.end, upper);
    }
  }

  lemma {:induction false} EndsAfter(es: seq<Expr>, from: nat, to: nat)
    requires NestedFrom(es, from, to)
    ensures from <= to
  {
    if es != [] {
      EndsAfter(es[1..], es[0].span.end, to);
    }
  }

  lemma {:induction false} MembersEndAfter(members: seq<LiteralNode>, from: nat, to: nat)
    requires MembersFrom(members, from, to)
    ensures from <= to
  {
    if members != [] {
      MembersEndAfter(members[1..], members[0].span.end, to);
    }
  }

  lemma {:induction false} MembersWiden(members: seq<LiteralNode>, from: nat, to: nat, lower: nat, upper: nat)
    requires MembersFrom(members, from, to) && lower <= from && to <= upper
    ensures MembersFrom(members, lower, upper)
  {
    if members != [] {
      MembersWiden(members[1..], members[0].span.end, to, members[0].span.end, upper);
    }
  }

  /** The `k`-th token ends before the next one starts. */
  ghost predicate InOrder(tokens: seq<Token>, k: nat)
    requires k < |tokens|
  {
    && tokens[k].span.start <= tokens[k].span.end
    && (k + 1 < |tokens| ==> tokens[k].span.end <= tokens[k + 1].span.start)
  }

  ghost predicate Ordered(tokens: seq<Token>) { forall k | 0 <= k < |tokens| :: InOrder(tokens, k) }

  /** The expression at `i` lies between the first and the last of its own tokens. */
  ghost predicate Framed(e: Expr, tokens: seq<Token>, i: nat, width: nat) {
    && 0 < width && i + width <= |tokens| && Nested(e)
    && tokens[i].span.start <= e.span.start && e.span.end <= tokens[i + width - 1].span.end
  }

  lemma JoinFramed(op: BinaryOp, left: Expr, right: Expr, tokens: seq<Token>, i: nat, w: nat, v: nat)
    requires Ordered(tokens) && Framed(left, tokens, i, w) && Framed(right, tokens, i + w + 1, v)
    ensures Framed(Join(op, left, right), tokens, i, w + 1 + v)
  {
    assert InOrder(tokens, i + w - 1) && InOrder(tokens, i + w);
  }

  lemma NotFramed(operand: Expr, tokens: seq<Token>, i: nat, w: nat)
    requires Ordered(tokens) && Framed(operand, tokens, i + 1, w)
    ensures Framed(Expr.Not(operand, Span(tokens[i].span.start, operand.span.end)), tokens, i, w + 1)
  {
    assert InOrder(tokens, i);
  }

  lemma GroupFramed(inner: Expr, tokens: seq<Token>, i: nat, w: nat)
    requires Ordered(tokens) && Framed(inner, tokens, i + 1, w) && i + w + 2 <= |tokens|
    ensures Framed(inner, tokens, i, w + 2)
  {
    assert InOrder(tokens, i) && InOrder(tokens, i + w) && InOrder(tokens, i + w + 1);
  }

  lemma CallFramed(builtin: Builtin, args: seq<Expr>, tokens: seq<Token>, i: nat, w: nat)
    requires Ordered(tokens) && 0 < w && i + w + 3 <= |tokens|
    requires NestedFrom(args, tokens[i + 2].span.start, tokens[i + 1 + w].span.end)
    ensures Framed(Call(builtin, args, Span(tokens[i].span.start, tokens[i + 2 + w].span.end)), tokens, i, w + 3)
  {
    assert InOrder(tokens, i) && InOrder(tokens, i + 1) && InOrder(tokens, i + 1 + w) && InOrder(tokens, i + 2 + w);
    var from, to := tokens[i].span.start, tokens[i + 2 + w].span.end;
    EndsAfter(args, tokens[i + 2].span.start, tokens[i + 1 + w].span.end);
    NestedWiden(args, tokens[i + 2].span.start, tokens[i + 1 + w].span.end, from, to);
  }

  lemma EmptyCallFramed(builtin: Builtin, tokens: seq<Token>, i: nat)
    requires Ordered(tokens) && i + 3 <= |tokens|
    ensures Framed(Call(builtin, [], Span(tokens[i].span.start, tokens[i + 2].span.end)), tokens, i, 3)
  {
    assert InOrder(tokens, i) && InOrder(tokens, i + 1) && InOrder(tokens, i + 2);
  }

  lemma InFramed(candidate: Expr, members: seq<LiteralNode>, tokens: seq<Token>, i: nat, w: nat, v: nat)
    requires Ordered(tokens) && Framed(candidate, tokens, i, w) && 0 < v && i + w + v + 3 <= |tokens|
    requires MembersFrom(members, tokens[i + w + 2].span.start, tokens[i + w + v + 1].span.end)
    ensures
      Framed(Membership(candidate, members, Span(candidate.span.start, tokens[i + w + v + 2].span.end)),
             tokens, i, w + v + 3)
  {
    assert InOrder(tokens, i + w - 1) && InOrder(tokens, i + w) && InOrder(tokens, i + w + 1);
    assert InOrder(tokens, i + w + v + 1) && InOrder(tokens, i + w + v + 2);
    var to := tokens[i + w + v + 2].span.end;
    MembersEndAfter(members, tokens[i + w + 2].span.start, tokens[i + w + v + 1].span.end);
    MembersWiden(members, tokens[i + w + 2].span.start, tokens[i + w + v + 1].span.end, candidate.span.end, to);
  }

  lemma {:induction false} TreeFramed(t: Tree, tokens: seq<Token>, i: nat)
    requires Ordered(tokens) && Sits(t, tokens, i)
    ensures Framed(Denotes(t), tokens, i, Width(t))
    decreases t, 1
  {
    match t
    case Atom(_) => assert InOrder(tokens, i);
    case Apply0(builtin, _, _, _) => EmptyCallFramed(builtin, tokens, i);
    case Apply(_, _, _, _, _) => ApplyFramed(t, tokens, i);
    case Group(_, inner, _) =>
      TreeFramed(inner, tokens, i + 1);
      GroupFramed(Denotes(inner), tokens, i, Width(inner));
    case Negation(_, operand) =>
      TreeFramed(operand, tokens, i + 1);
      NotFramed(Denotes(operand), tokens, i, Width(operand));
    case Infix(_, _, _, _) => InfixFramed(t, tokens, i);
    case Within(_, _, _, _, _) => WithinFramed(t, tokens, i);
  }

  lemma {:induction false} ApplyFramed(t: Tree, tokens: seq<Token>, i: nat)
    requires Ordered(tokens) && Sits(t, tokens, i) && t.Apply?
    ensures Framed(Denotes(t), tokens, i, Width(t))
    decreases t, 0
  {
    TreesFramed(t.args, tokens, i + 2);
    CallFramed(t.builtin, DenotesAll(t.args), tokens, i, WidthAll(t.args));
  }

  lemma {:induction false} InfixFramed(t: Tree, tokens: seq<Token>, i: nat)
    requires Ordered(tokens) && Sits(t, tokens, i) && t.Infix?
    ensures Framed(Denotes(t), tokens, i, Width(t))
    decreases t, 0
  {
    TreeFramed(t.left, tokens, i);
    TreeFramed(t.right, tokens, i + Width(t.left) + 1);
    JoinFramed(t.op, Denotes(t.left), Denotes(t.right), tokens, i, Width(t.left), Width(t.right));
  }

  lemma {:induction false} WithinFramed(t: Tree, tokens: seq<Token>, i: nat)
    requires Ordered(tokens) && Sits(t, tokens, i) && t.Within?
    ensures Framed(Denotes(t), tokens, i, Width(t))
    decreases t, 0
  {
    var w, v := Width(t.candidate), WidthLiterals(t.members);
    TreeFramed(t.candidate, tokens, i);
    LiteralsFramed(t.members, tokens, i + w + 2);
    InFramed(Denotes(t.candidate), DenotesLiterals(t.members), tokens, i, w, v);
  }

  lemma NestedMore(first: Expr, rest: seq<Expr>, tokens: seq<Token>, i: nat, w: nat, to: nat)
    requires Ordered(tokens) && Framed(first, tokens, i, w) && i + w + 1 < |tokens|
    requires NestedFrom(rest, tokens[i + w + 1].span.start, to)
    ensures NestedFrom([first] + rest, tokens[i].span.start, to)
  {
    assert InOrder(tokens, i + w - 1) && InOrder(tokens, i + w);
    NestedWiden(rest, tokens[i + w + 1].span.start, to, first.span.end, to);
    assert ([first] + rest)[1..] == rest;
  }

  lemma {:induction false} TreesFramed(ts: Trees, tokens: seq<Token>, i: nat)
    requires Ordered(tokens) && SitsAll(ts, tokens, i)
    ensures i + WidthAll(ts) <= |tokens|
    ensures NestedFrom(DenotesAll(ts), tokens[i].span.start, tokens[i + WidthAll(ts) - 1].span.end)
    decreases ts, 1
  {
    match ts
    case One(t) =>
      TreeFramed(t, tokens, i);
      assert DenotesAll(ts)[1..] == [];
    case More(t, _, rest) =>
      TreeFramed(t, tokens, i);
      TreesFramed(rest, tokens, i + Width(t) + 1);
      NestedMore(Denotes(t), DenotesAll(rest), tokens, i, Width(t), tokens[i + WidthAll(ts) - 1].span.end);
  }

  lemma MembersMore(first: LiteralNode, rest: seq<LiteralNode>, tokens: seq<Token>, i: nat, to: nat)
    requires Ordered(tokens) && i + 2 < |tokens| && first.span == tokens[i].span
    requires MembersFrom(rest, tokens[i + 2].span.start, to)
    ensures MembersFrom([first] + rest, tokens[i].span.start, to)
  {
    assert InOrder(tokens, i) && InOrder(tokens, i + 1);
    MembersWiden(rest, tokens[i + 2].span.start, to, first.span.end, to);
    assert ([first] + rest)[1..] == rest;
  }

  lemma {:induction false} LiteralsFramed(ls: Literals, tokens: seq<Token>, i: nat)
    requires Ordered(tokens) && SitsLiterals(ls, tokens, i)
    ensures i + WidthLiterals(ls) <= |tokens|
    ensures MembersFrom(DenotesLiterals(ls), tokens[i].span.start, tokens[i + WidthLiterals(ls) - 1].span.end)
  {
    match ls
    case OneLiteral(token) =>
      assert InOrder(tokens, i);
      assert DenotesLiterals(ls)[1..] == [];
    case MoreLiterals(token, _, rest) =>
      LiteralsFramed(rest, tokens, i + 2);
      MembersMore(LiteralFrom(token), DenotesLiterals(rest), tokens, i, tokens[i + WidthLiterals(ls) - 1].span.end);
  }

  // ------------------------------------------------------------------- literals

  predicate Fits(value: Value) { value.Str? ==> |value.s| <= MAX_STRING_LENGTH }

  /** Every string literal is within the limit, and every field has a name. */
  predicate Bounded(e: Expr)
    decreases e, 1
  {
    match e
    case Literal(value, _) => Fits(value)
    case Field(name, _) => name != []
    case Not(operand, _) => Bounded(operand)
    case Binary(_, left, right, _) => Bounded(left) && Bounded(right)
    case Membership(candidate, members, _) =>
      Bounded(candidate) && forall i | 0 <= i < |members| :: Fits(members[i].value)
    case Call(_, args, _) => BoundedAll(args)
  }

  predicate BoundedAll(es: seq<Expr>)
    decreases es, 0
  {
    es == [] || (Bounded(es[0]) && BoundedAll(es[1..]))
  }

  /** Every token that can become a literal or a field has a payload within the limits. */
  ghost predicate Limited(tokens: seq<Token>) {
    forall k | 0 <= k < |tokens| && IsAtomKind(tokens[k].kind) ::
      if IsLiteralKind(tokens[k].kind) then Fits(tokens[k].value) else NameOf(tokens[k]) != []
  }

  lemma {:induction false} TreeBounded(t: Tree, tokens: seq<Token>, i: nat)
    requires Limited(tokens) && Derives(t) && Sits(t, tokens, i)
    ensures Bounded(Denotes(t))
  {
    match t
    case Atom(token) => assert tokens[i] == token;
    case Apply0(_, _, _, _) =>
    case Apply(_, _, _, args, _) => TreesBounded(args, tokens, i + 2);
    case Group(_, inner, _) => TreeBounded(inner, tokens, i + 1);
    case Negation(_, operand) => TreeBounded(operand, tokens, i + 1);
    case Infix(_, left, _, right) =>
      TreeBounded(left, tokens, i);
      TreeBounded(right, tokens, i + Width(left) + 1);
    case Within(candidate, _, _, members, _) =>
      TreeBounded(candidate, tokens, i);
      LiteralsBounded(members, tokens, i + Width(candidate) + 2);
  }

  lemma {:induction false} TreesBounded(ts: Trees, tokens: seq<Token>, i: nat)
    requires Limited(tokens) && DerivesAll(ts) && SitsAll(ts, tokens, i)
    ensures BoundedAll(DenotesAll(ts))
  {
    match ts
    case One(t) =>
      TreeBounded(t, tokens, i);
      assert DenotesAll(ts)[1..] == [];
    case More(t, _, rest) =>
      TreeBounded(t, tokens, i);
      TreesBounded(rest, tokens, i + Width(t) + 1);
      assert DenotesAll(ts)[1..] == DenotesAll(rest);
  }

  lemma {:induction false} LiteralsBounded(ls: Literals, tokens: seq<Token>, i: nat)
    requires Limited(tokens) && AllLiterals(ls) && SitsLiterals(ls, tokens, i)
    ensures forall k | 0 <= k < |DenotesLiterals(ls)| :: Fits(DenotesLiterals(ls)[k].value)
  {
    assert tokens[i] == if ls.OneLiteral? then ls.only else ls.first;
    if ls.MoreLiterals? {
      LiteralsBounded(ls.rest, tokens, i + 2);
    }
  }

  // --------------------------------------------------------------- main theorem

  lemma StreamIsOrdered(tokens: seq<Token>)
    requires Stream(tokens)
    ensures Ordered(tokens)
  {
    forall k | 0 <= k < |tokens| ensures InOrder(tokens, k) {
      assert tokens[k].span.start <= tokens[k].span.end;
    }
  }

  lemma StreamIsLimited(tokens: seq<Token>)
    requires Stream(tokens)
    ensures Limited(tokens)
  {
    forall k | 0 <= k < |tokens| && IsAtomKind(tokens[k].kind)
      ensures if IsLiteralKind(tokens[k].kind) then Fits(tokens[k].value) else NameOf(tokens[k]) != []
    {
      assert PayloadFits(tokens[k]);
    }
  }

  /** Parsed trees have no more nodes than tokens, nested spans and literals within the limits. */
  lemma ParsedTrees(source: Utf16, tokens: seq<Token>, e: Expr)
    requires Stream(tokens) && TreeOf(source, tokens) == Parser.Tree(e)
    ensures Nodes(e) < |tokens|
    ensures Nested(e) && Bounded(e)
    ensures tokens[0].span.start <= e.span.start && e.span.end <= tokens[|tokens| - 1].span.start
  {
    var t := AcceptedIsDerived(tokens);
    SitsIsSlice(t, tokens, 0);
    SizeWithinWidth(t);
    StreamIsOrdered(tokens);
    TreeFramed(t, tokens, 0);
    StreamIsLimited(tokens);
    TreeBounded(t, tokens, 0);
  }
}
