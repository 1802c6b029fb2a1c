/** What the parser returns depends on no token after the one it stops at, and on no room for nesting it does not miss. */
module ParserLocal {
  import opened Syntax
  import opened Parser

  /** The last position the parser looked at. */
  function Reach<T>(r: Parsed<T>): nat { if r.Ok? then r.next else r.at }

  ghost predicate Alike(tokens: seq<Token>, other: seq<Token>, m: nat) {
    && Ended(tokens) && Ended(other) && m <= |tokens| && m <= |other|
    && forall n | 0 <= n < m :: tokens[n] == other[n]
  }

  /** The result needs the first `m` tokens at most, and would be the same with the room of `shallower`. */
  predicate Settled<T>(r: Parsed<T>, m: nat, depth: int, shallower: int) {
    Reach(r) < m && (shallower == depth || (shallower < depth && !(r.Fail? && r.code.NestingLimitExceeded?)))
  }

  lemma {:induction false} PrimaryLocal(tokens: seq<Token>, other: seq<Token>, m: nat, i: nat, depth: int, shallower: int)
    requires Alike(tokens, other, m) && i < |tokens| && Settled(PrimaryAt(tokens, i, depth), m, depth, shallower)
    ensures i < |other| && PrimaryAt(other, i, shallower) == PrimaryAt(tokens, i, depth)
    decreases |tokens| - i, 0
  {
    var token := tokens[i];
    assert other[i] == token;
    if token.kind.IdentifierKind? {
      NameLocal(tokens, other, m, i, depth, shallower);
    } else if token.kind.LeftParen? && depth < MAX_NESTING_DEPTH {
      GroupLocal(tokens, other, m, i, depth, shallower);
    }
  }

  lemma {:induction false} NameLocal(tokens: seq<Token>, other: seq<Token>, m: nat, i: nat, depth: int, shallower: int)
    requires Alike(tokens, other, m) && i < |tokens| && Settled(PrimaryAt(tokens, i, depth), m, depth, shallower)
    requires tokens[i].kind.IdentifierKind?
    ensures i < |other| && PrimaryAt(other, i, shallower) == PrimaryAt(tokens, i, depth)
    decreases |tokens| - i - 1, 9
  {
    assert other[i] == tokens[i] && other[i + 1] == tokens[i + 1];
    var builtin := GetBuiltin(NameOf(tokens[i]));
    if tokens[i + 1].kind.LeftParen? && builtin.Some? {
      CallLocal(tokens, other, m, i, depth, shallower, builtin.value);
    }
  }

  lemma {:induction false} GroupLocal(tokens: seq<Token>, other: seq<Token>, m: nat, i: nat, depth: int, shallower: int)
    requires Alike(tokens, other, m) && i < |tokens| && Settled(PrimaryAt(tokens, i, depth), m, depth, shallower)
    requires tokens[i].kind.LeftParen? && depth < MAX_NESTING_DEPTH
    ensures i < |other| && PrimaryAt(other, i, shallower) == PrimaryAt(tokens, i, depth)
    decreases |tokens| - i - 1, 6
  {
    assert other[i] == tokens[i];
    OrLocal(tokens, other, m, i + 1, depth + 1, shallower + 1);
    var inner := OrAt(tokens, i + 1, depth + 1);
    if inner.Ok? { assert other[inner.next] == tokens[inner.next]; }
  }

  lemma CallEnds(tokens: seq<Token>, other: seq<Token>, i: nat, depth: int, shallower: int, builtin: Builtin)
    requires Ended(tokens) && Ended(other) && i + 2 < |tokens| && i + 2 < |other| && other[i] == tokens[i]
    requires shallower <= depth < MAX_NESTING_DEPTH
    requires ListAt(other, i + 2, shallower + 1) == ListAt(tokens, i + 2, depth + 1)
    requires
      var list := ListAt(tokens, i + 2, depth + 1);
      list.Ok? ==> list.next < |other| && other[list.next] == tokens[list.next]
    ensures CallAt(other, i, shallower, builtin) == CallAt(tokens, i, depth, builtin)
  {}

  lemma {:induction false} CallLocal(tokens: seq<Token>, other: seq<Token>, m: nat, i: nat, depth: int,
      shallower: int, builtin: Builtin)
    requires Alike(tokens, other, m) && i + 2 < |tokens| && Settled(CallAt(tokens, i, depth, builtin), m, depth, shallower)
    requires i + 1 < m && tokens[i + 1].kind.LeftParen?
    ensures i + 2 < |other| && CallAt(other, i, shallower, builtin) == CallAt(tokens, i, depth, builtin)
    decreases |tokens| - i - 1, 8
  {
    assert other[i] == tokens[i] && other[i + 1] == tokens[i + 1];
    if depth < MAX_NESTING_DEPTH {
      ListLocal(tokens, other, m, i + 2, depth + 1, shallower + 1);
      CallEnds(tokens, other, i, depth, shallower, builtin);
    }
  }

  lemma {:induction false} ListLocal(tokens: seq<Token>, other: seq<Token>, m: nat, i: nat, depth: int, shallower: int)
    requires Alike(tokens, other, m) && i < |tokens| && Settled(ListAt(tokens, i, depth), m, depth, shallower)
    ensures i < |other| && ListAt(other, i, shallower) == ListAt(tokens, i, depth)
    decreases |tokens| - i, 7
  {
    assert other[i] == tokens[i];
    if !tokens[i].kind.RightParen? { ArgumentsLocal(tokens, other, m, i, depth, shallower, []); }
  }

  lemma {:induction false} ArgumentsLocal(tokens: seq<Token>, other: seq<Token>, m: nat, i: nat, depth: int,
      shallower: int, args: seq<Expr>)
    requires Alike(tokens, other, m) && i < |tokens| && Settled(ArgumentsAt(tokens, i, depth, args), m, depth, shallower)
    ensures i < |other| && ArgumentsAt(other, i, shallower, args) == ArgumentsAt(tokens, i, depth, args)
    decreases |tokens| - i, 6
  {
    OrLocal(tokens, other, m, i, depth, shallower);
    var argument := OrAt(tokens, i, depth);
    if argument.Ok? {
      var j := argument.next;
      assert other[j] == tokens[j];
      if tokens[j].kind.Comma? {
        assert other[j + 1] == tokens[j + 1];
        if !tokens[j + 1].kind.RightParen? {
          ArgumentsLocal(tokens, other, m, j + 1, depth, shallower, args + [argument.node]);
        }
      }
    }
  }

  lemma {:induction false} NotLocal(tokens: seq<Token>, other: seq<Token>, m: nat, i: nat, depth: int, shallower: int)
    requires Alike(tokens, other, m) && i < |tokens| && Settled(NotAt(tokens, i, depth), m, depth, shallower)
    ensures i < |other| && NotAt(other, i, shallower) == NotAt(tokens, i, depth)
    decreases |tokens| - i, 1
  {
    assert other[i] == tokens[i];
    if !tokens[i].kind.NotKind? {
      PrimaryLocal(tokens, other, m, i, depth, shallower);
    } else if depth < MAX_NESTING_DEPTH {
      NotLocal(tokens, other, m, i + 1, depth + 1, shallower + 1);
    }
  }

  lemma {:induction false} MembersLocal(tokens: seq<Token>, other: seq<Token>, m: nat, i: nat, members: seq<LiteralNode>)
    requires Alike(tokens, other, m) && i < |tokens| && Reach(MembersAt(tokens, i, members)) < m
    ensures i < |other| && MembersAt(other, i, members) == MembersAt(tokens, i, members)
    decreases |tokens| - i
  {
    assert other[i] == tokens[i];
    if IsLiteralKind(tokens[i].kind) {
      assert other[i + 1] == tokens[i + 1];
      if tokens[i + 1].kind.Comma? {
        assert other[i + 2] == tokens[i + 2];
        if !tokens[i + 2].kind.RightParen? {
          MembersLocal(tokens, other, m, i + 2, members + [LiteralFrom(tokens[i])]);
        }
      }
    }
  }

  lemma InLocal(tokens: seq<Token>, other: seq<Token>, m: nat, left: Expr, j: nat)
    requires Alike(tokens, other, m) && j < |tokens| && tokens[j].kind.InKind? && Reach(InAt(tokens, left, j)) < m
    ensures j < |other| && other[j] == tokens[j] && InAt(other, left, j) == InAt(tokens, left, j)
  {
    assert other[j] == tokens[j] && other[j + 1] == tokens[j + 1];
    if tokens[j + 1].kind.LeftParen? {
      assert other[j + 2] == tokens[j + 2];
      if !tokens[j + 2].kind.RightParen? {
        MembersLocal(tokens, other, m, j + 2, []);
        var list := MembersAt(tokens, j + 2, []);
        if list.Ok? { assert other[list.next] == tokens[list.next]; }
      }
    }
  }

  lemma {:induction false} ComparisonLocal(tokens: seq<Token>, other: seq<Token>, m: nat, i: nat, depth: int,
      shallower: int)
    requires Alike(tokens, other, m) && i < |tokens| && Settled(ComparisonAt(tokens, i, depth), m, depth, shallower)
    ensures i < |other| && ComparisonAt(other, i, shallower) == ComparisonAt(tokens, i, depth)
    decreases |tokens| - i, 2
  {
    NotLocal(tokens, other, m, i, depth, shallower);
    var left := NotAt(tokens, i, depth);
    if left.Ok? { RestLocal(tokens, other, m, left.node, left.next, depth, shallower); }
  }

  lemma {:induction false} RestLocal(tokens: seq<Token>, other: seq<Token>, m: nat, left: Expr, j: nat,
      depth: int, shallower: int)
    requires Alike(tokens, other, m) && j < |tokens| && Settled(ComparisonRest(tokens, left, j, depth), m, depth, shallower)
    ensures j < |other| && ComparisonRest(other, left, j, shallower) == ComparisonRest(tokens, left, j, depth)
    decreases |tokens| - j, 2
  {
    assert other[j] == tokens[j];
    if ComparisonOp(tokens[j].kind).Some? {
      NotLocal(tokens, other, m, j + 1, depth, shallower);
    } else if tokens[j].kind.InKind? {
      InLocal(tokens, other, m, left, j);
    }
  }

  lemma {:induction false} AndLoopLocal(tokens: seq<Token>, other: seq<Token>, m: nat, left: Expr, i: nat,
      depth: int, shallower: int)
    requires Alike(tokens, other, m) && i < |tokens| && Settled(AndLoop(tokens, left, i, depth), m, depth, shallower)
    ensures i < |other| && AndLoop(other, left, i, shallower) == AndLoop(tokens, left, i, depth)
    decreases |tokens| - i, 3
  {
    assert other[i] == tokens[i];
    if tokens[i].kind.AndKind? {
      ComparisonLocal(tokens, other, m, i + 1, depth, shallower);
      var right := ComparisonAt(tokens, i + 1, depth);
      if right.Ok? { AndLoopLocal(tokens, other, m, Join(And, left, right.node), right.next, depth, shallower); }
    }
  }

  lemma {:induction false} AndLocal(tokens: seq<Token>, other: seq<Token>, m: nat, i: nat, depth: int, shallower: int)
    requires Alike(tokens, other, m) && i < |tokens| && Settled(AndAt(tokens, i, depth), m, depth, shallower)
    ensures i < |other| && AndAt(other, i, shallower) == AndAt(tokens, i, depth)
    decreases |tokens| - i, 4
  {
    ComparisonLocal(tokens, other, m, i, depth, shallower);
    var left := ComparisonAt(tokens, i, depth);
    if left.Ok? { AndLoopLocal(tokens, other, m, left.node, left.next, depth, shallower); }
  }

  lemma {:induction false} OrLoopLocal(tokens: seq<Token>, other: seq<Token>, m: nat, left: Expr, i: nat,
      depth: int, shallower: int)
    requires Alike(tokens, other, m) && i < |tokens| && Settled(OrLoop(tokens, left, i, depth), m, depth, shallower)
    ensures i < |other| && OrLoop(other, left, i, shallower) == OrLoop(tokens, left, i, depth)
    decreases |tokens| - i, 4
  {
    assert other[i] == tokens[i];
    if tokens[i].kind.OrKind? {
      AndLocal(tokens, other, m, i + 1, depth, shallower);
      var right := AndAt(tokens, i + 1, depth);
      if right.Ok? { OrLoopLocal(tokens, other, m, Join(Or, left, right.node), right.next, depth, shallower); }
    }
  }

  /** Two streams with the same first tokens are parsed alike as far as these go, and so is one with more room for nesting. */
  lemma {:induction false} OrLocal(tokens: seq<Token>, other: seq<Token>, m: nat, i: nat, depth: int, shallower: int)
    requires Alike(tokens, other, m) && i < |tokens| && Settled(OrAt(tokens, i, depth), m, depth, shallower)
    ensures i < |other| && OrAt(other, i, shallower) == OrAt(tokens, i, depth)
    decreases |tokens| - i, 5
  {
    AndLocal(tokens, other, m, i, depth, shallower);
    var left := AndAt(tokens, i, depth);
    if left.Ok? { OrLoopLocal(tokens, other, m, left.node, left.next, depth, shallower); }
  }
}
