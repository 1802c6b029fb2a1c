/** Standing at a position is the same as being the slice at that position. */
module Positions {
  import opened Syntax
  import opened Grammar

  /** The tokens of `s` stand in `tokens` from position `i` on. */
  ghost predicate Slice(s: seq<Token>, tokens: seq<Token>, i: nat) { i + |s| <= |tokens| && tokens[i..i + |s|] == s }

  lemma SliceToken(token: Token, tokens: seq<Token>, i: nat)
    ensures Slice([token], tokens, i) <==> Has(tokens, i, token)
  {
    if i < |tokens| { assert tokens[i..i + 1] == [tokens[i]]; }
  }

  lemma SliceConcat(a: seq<Token>, b: seq<Token>, tokens: seq<Token>, i: nat)
    ensures Slice(a + b, tokens, i) <==> Slice(a, tokens, i) && Slice(b, tokens, i + |a|)
  {
    var j, k := i + |a|, i + |a| + |b|;
    if k <= |tokens| {
      assert tokens[i..k] == tokens[i..j] + tokens[j..k];
      if tokens[i..k] == a + b {
        assert tokens[i..j] == (a + b)[..|a|] == a && tokens[j..k] == (a + b)[|a|..] == b;
      }
    }
  }

  lemma Regroup(a: seq<Token>, b: seq<Token>, c: seq<Token>)
    ensures a + b + c == a + (b + c)
  {
  }

  lemma SliceCons(first: Token, rest: seq<Token>, tokens: seq<Token>, i: nat)
    ensures Slice([first] + rest, tokens, i) <==> Has(tokens, i, first) && Slice(rest, tokens, i + 1)
  {
    SliceConcat([first], rest, tokens, i);
    SliceToken(first, tokens, i);
  }

  lemma SliceEnd(front: seq<Token>, last: Token, tokens: seq<Token>, i: nat)
    ensures Slice(front + [last], tokens, i) <==> Slice(front, tokens, i) && Has(tokens, i + |front|, last)
  {
    SliceConcat(front, [last], tokens, i);
    SliceToken(last, tokens, i + |front|);
  }

  lemma SliceAround(a: seq<Token>, m: Token, b: seq<Token>, tokens: seq<Token>, i: nat)
    ensures Slice(a + [m] + b, tokens, i) <==>
      Slice(a, tokens, i) && Has(tokens, i + |a|, m) && Slice(b, tokens, i + |a| + 1)
  {
    Regroup(a, [m], b);
    SliceConcat(a, [m] + b, tokens, i);
    SliceCons(m, b, tokens, i + |a|);
  }

  lemma SliceTwo(a: Token, b: Token, c: seq<Token>, tokens: seq<Token>, i: nat)
    ensures Slice([a, b] + c, tokens, i) <==> Has(tokens, i, a) && Has(tokens, i + 1, b) && Slice(c, tokens, i + 2)
  {
    assert [a, b] + c == [a] + ([b] + c);
    SliceCons(a, [b] + c, tokens, i);
    SliceCons(b, c, tokens, i + 1);
  }

  lemma CallIsSlice(name: Token, open: Token, args: seq<Token>, close: Token, tokens: seq<Token>, i: nat)
    ensures Slice([name, open] + args + [close], tokens, i) <==>
      && Has(tokens, i, name) && Has(tokens, i + 1, open)
      && Slice(args, tokens, i + 2) && Has(tokens, i + 2 + |args|, close)
  {
    Regroup([name, open], args, [close]);
    SliceTwo(name, open, args + [close], tokens, i);
    SliceEnd(args, close, tokens, i + 2);
  }

  lemma GroupIsSlice(open: Token, inner: seq<Token>, close: Token, tokens: seq<Token>, i: nat)
    ensures Slice([open] + inner + [close], tokens, i) <==>
      Has(tokens, i, open) && Slice(inner, tokens, i + 1) && Has(tokens, i + 1 + |inner|, close)
  {
    Regroup([open], inner, [close]);
    SliceCons(open, inner + [close], tokens, i);
    SliceEnd(inner, close, tokens, i + 1);
  }

  /** What both readings of a derivation agree on. */
  ghost predicate Agree(t: Tree, tokens: seq<Token>, i: nat) {
    |Yield(t)| == Width(t) && (Sits(t, tokens, i) <==> Slice(Yield(t), tokens, i))
  }

  lemma InfixAgrees(t: Tree, tokens: seq<Token>, i: nat)
    requires t.Infix? && Agree(t.left, tokens, i) && Agree(t.right, tokens, i + Width(t.left) + 1)
    ensures Agree(t, tokens, i)
  {
    SliceAround(Yield(t.left), t.token, Yield(t.right), tokens, i);
  }

  lemma WithinAgrees(t: Tree, tokens: seq<Token>, i: nat)
    requires t.Within? && Agree(t.candidate, tokens, i)
    ensures Agree(t, tokens, i)
  {
    SitsLiteralsIsSlice(t.members, tokens, i + Width(t.candidate) + 2);
    WithinIsSlice(Yield(t.candidate), t.kw, t.open, YieldLiterals(t.members), t.close, tokens, i);
  }

  lemma ApplyAgrees(t: Tree, tokens: seq<Token>, i: nat)
    requires t.Apply? && |YieldAll(t.args)| == WidthAll(t.args)
    requires SitsAll(t.args, tokens, i + 2) <==> Slice(YieldAll(t.args), tokens, i + 2)
    ensures Agree(t, tokens, i)
  {
    CallIsSlice(t.name, t.open, YieldAll(t.args), t.close, tokens, i);
  }

  lemma Apply0Agrees(t: Tree, tokens: seq<Token>, i: nat)
    requires t.Apply0?
    ensures Agree(t, tokens, i)
  {
    CallIsSlice(t.name, t.open, [], t.close, tokens, i);
    assert [t.name, t.open] + [] + [t.close] == [t.name, t.open, t.close];
    assert Slice([], tokens, i + 2) <==> i + 2 <= |tokens|;
  }

  lemma GroupAgrees(t: Tree, tokens: seq<Token>, i: nat)
    requires t.Group? && Agree(t.inner, tokens, i + 1)
    ensures Agree(t, tokens, i)
  {
    GroupIsSlice(t.open, Yield(t.inner), t.close, tokens, i);
  }

  lemma NegationAgrees(t: Tree, tokens: seq<Token>, i: nat)
    requires t.Negation? && Agree(t.operand, tokens, i + 1)
    ensures Agree(t, tokens, i)
  {
    SliceCons(t.not, Yield(t.operand), tokens, i);
  }

  lemma {:induction false} SitsIsSlice(t: Tree, tokens: seq<Token>, i: nat)
    ensures Agree(t, tokens, i)
  {
    match t
    case Atom(token) => SliceToken(token, tokens, i);
    case Apply0(_, _, _, _) => Apply0Agrees(t, tokens, i);
    case Apply(_, _, _, args, _) =>
      SitsAllIsSlice(args, tokens, i + 2);
      ApplyAgrees(t, tokens, i);
    case Group(_, inner, _) =>
      SitsIsSlice(inner, tokens, i + 1);
      GroupAgrees(t, tokens, i);
    case Negation(_, operand) =>
      SitsIsSlice(operand, tokens, i + 1);
      NegationAgrees(t, tokens, i);
    case Infix(_, left, _, right) =>
      SitsIsSlice(left, tokens, i);
      SitsIsSlice(right, tokens, i + Width(left) + 1);
      InfixAgrees(t, tokens, i);
    case Within(candidate, _, _, _, _) =>
      SitsIsSlice(candidate, tokens, i);
      WithinAgrees(t, tokens, i);
  }

  lemma WithinIsSlice(a: seq<Token>, kw: Token, open: Token, b: seq<Token>, close: Token,
                      tokens: seq<Token>, i: nat)
    ensures Slice(a + [kw, open] + b + [close], tokens, i) <==>
      && Slice(a, tokens, i) && Has(tokens, i + |a|, kw) && Has(tokens, i + |a| + 1, open)
      && Slice(b, tokens, i + |a| + 2) && Has(tokens, i + |a| + 2 + |b|, close)
  {
    var j := i + |a|;
    assert a + [kw, open] + b + [close] == a + ([kw, open] + (b + [close]));
    SliceConcat(a, [kw, open] + (b + [close]), tokens, i);
    SliceTwo(kw, open, b + [close], tokens, j);
    SliceEnd(b, close, tokens, j + 2);
  }

  lemma {:induction false} SitsAllIsSlice(ts: Trees, tokens: seq<Token>, i: nat)
    ensures |YieldAll(ts)| == WidthAll(ts)
    ensures SitsAll(ts, tokens, i) <==> Slice(YieldAll(ts), tokens, i)
  {
    match ts
    case One(t) => SitsIsSlice(t, tokens, i);
    case More(t, comma, rest) =>
      SitsIsSlice(t, tokens, i);
      SitsAllIsSlice(rest, tokens, i + Width(t) + 1);
      SliceAround(Yield(t), comma, YieldAll(rest), tokens, i);
  }

  lemma {:induction false} SitsLiteralsIsSlice(ls: Literals, tokens: seq<Token>, i: nat)
    ensures |YieldLiterals(ls)| == WidthLiterals(ls)
    ensures SitsLiterals(ls, tokens, i) <==> Slice(YieldLiterals(ls), tokens, i)
  {
    match ls
    case OneLiteral(token) => SliceToken(token, tokens, i);
    case MoreLiterals(token, comma, rest) =>
      SitsLiteralsIsSlice(rest, tokens, i + 2);
      SliceTwo(token, comma, YieldLiterals(rest), tokens, i);
  }
}
