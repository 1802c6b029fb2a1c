/** Whatever the parser reads, the grammar derives: each layer returns its derivation. */
module ParserSound {
  import opened Syntax
  import opened Parser
  import opened Grammar
  import opened Derivations
  import opened ParserSteps

  /** `t` derives the tokens from `i` to `r.next` as `r.node`, within the nesting limit. */
  ghost predicate Covers(t: Tree, level: nat, tokens: seq<Token>, i: nat, depth: int, r: Parsed<Expr>) {
    && r.Ok? && r == Ok(Denotes(t), i + Width(t))
    && Derived(t, tokens, i, depth) && Level(t) <= level
  }

  lemma {:induction false} PrimarySound(tokens: seq<Token>, i: nat, depth: int) returns (t: Tree)
    requires Ended(tokens) && i < |tokens| && depth <= MAX_NESTING_DEPTH
    requires PrimaryAt(tokens, i, depth).Ok?
    ensures Covers(t, 0, tokens, i, depth, PrimaryAt(tokens, i, depth))
    decreases |tokens| - i, 0
  {
    var token := tokens[i];
    if token.kind.LeftParen? {
      t := GroupSound(tokens, i, depth);
    } else if token.kind.IdentifierKind? && tokens[i + 1].kind.LeftParen? {
      CallStep(tokens, i, depth, GetBuiltin(NameOf(token)).value);
      t := CallTreeSound(tokens, i, depth, GetBuiltin(NameOf(token)).value);
    } else {
      t := Atom(token);
    }
  }

  lemma {:induction false} GroupSound(tokens: seq<Token>, i: nat, depth: int) returns (t: Tree)
    requires Ended(tokens) && i < |tokens| && depth <= MAX_NESTING_DEPTH
    requires tokens[i].kind.LeftParen? && PrimaryAt(tokens, i, depth).Ok?
    ensures Covers(t, 0, tokens, i, depth, PrimaryAt(tokens, i, depth))
    decreases |tokens| - i - 1, 6
  {
    var inner := OrSound(tokens, i + 1, depth + 1);
    t := Group(tokens[i], inner, tokens[i + 1 + Width(inner)]);
  }

  lemma {:induction false} CallTreeSound(tokens: seq<Token>, i: nat, depth: int, builtin: Builtin) returns (t: Tree)
    requires Ended(tokens) && i + 2 < |tokens| && depth <= MAX_NESTING_DEPTH
    requires Calls(tokens[i], builtin) && tokens[i + 1].kind.LeftParen?
    requires CallAt(tokens, i, depth, builtin).Ok?
    ensures Covers(t, 0, tokens, i, depth, CallAt(tokens, i, depth, builtin))
    decreases |tokens| - i - 1, 8
  {
    if tokens[i + 2].kind.RightParen? {
      t := Apply0(builtin, tokens[i], tokens[i + 1], tokens[i + 2]);
    } else {
      var args := CallSound(tokens, i, depth, builtin);
      t := CallCovers(args, tokens, i, depth, builtin);
    }
  }

  lemma CallCovers(args: Trees, tokens: seq<Token>, i: nat, depth: int, builtin: Builtin) returns (t: Tree)
    requires i + 2 + WidthAll(args) < |tokens| && Calls(tokens[i], builtin)
    requires tokens[i + 1].kind.LeftParen? && tokens[i + 2 + WidthAll(args)].kind.RightParen?
    requires DerivedAll(args, tokens, i + 2, depth + 1) && depth < MAX_NESTING_DEPTH
    ensures Covers(t, 0, tokens, i, depth, CallOf(builtin, args, tokens, i))
  {
    t := Apply(builtin, tokens[i], tokens[i + 1], args, tokens[i + 2 + WidthAll(args)]);
  }

  lemma {:induction false} CallSound(tokens: seq<Token>, i: nat, depth: int, builtin: Builtin) returns (ts: Trees)
    requires Ended(tokens) && i + 2 < |tokens| && depth <= MAX_NESTING_DEPTH
    requires !tokens[i + 2].kind.RightParen? && CallAt(tokens, i, depth, builtin).Ok?
    ensures DerivedAll(ts, tokens, i + 2, depth + 1) && depth < MAX_NESTING_DEPTH
    ensures i + 2 + WidthAll(ts) < |tokens| && tokens[i + 2 + WidthAll(ts)].kind.RightParen?
    ensures CallAt(tokens, i, depth, builtin) == CallOf(builtin, ts, tokens, i)
    decreases |tokens| - i - 1, 7
  {
    ts := ArgumentsSound(tokens, i + 2, depth + 1, []);
    assert [] + DenotesAll(ts) == DenotesAll(ts);
  }

  /** `ts` derives the arguments from `i` on, which `r` lists after those of `before`. */
  ghost predicate CoversAll(ts: Trees, tokens: seq<Token>, i: nat, depth: int, before: seq<Expr>, r: Parsed<seq<Expr>>) {
    r == Ok(before + DenotesAll(ts), i + WidthAll(ts)) && DerivedAll(ts, tokens, i, depth)
  }

  lemma MoreCovers(t: Tree, rest: Trees, tokens: seq<Token>, i: nat, depth: int, before: seq<Expr>,
                   r: Parsed<seq<Expr>>) returns (ts: Trees)
    requires Derived(t, tokens, i, depth) && i + Width(t) < |tokens| && tokens[i + Width(t)].kind.Comma?
    requires CoversAll(rest, tokens, i + Width(t) + 1, depth, before + [Denotes(t)], r)
    ensures CoversAll(ts, tokens, i, depth, before, r)
  {
    ts := More(t, tokens[i + Width(t)], rest);
    assert before + [Denotes(t)] + DenotesAll(rest) == before + DenotesAll(ts);
  }

  lemma {:induction false} ArgumentsSound(tokens: seq<Token>, i: nat, depth: int, before: seq<Expr>)
    returns (ts: Trees)
    requires Ended(tokens) && i < |tokens| && depth <= MAX_NESTING_DEPTH
    requires ArgumentsAt(tokens, i, depth, before).Ok?
    ensures CoversAll(ts, tokens, i, depth, before, ArgumentsAt(tokens, i, depth, before))
    decreases |tokens| - i, 6
  {
    var t := OrSound(tokens, i, depth);
    var j := i + Width(t);
    if !tokens[j].kind.Comma? {
      ts := One(t);
    } else {
      ArgumentStep(tokens, i, depth, before, Denotes(t), j);
      var rest := ArgumentsSound(tokens, j + 1, depth, before + [Denotes(t)]);
      ts := MoreCovers(t, rest, tokens, i, depth, before, ArgumentsAt(tokens, i, depth, before));
    }
  }

  lemma NegationCovers(operand: Tree, tokens: seq<Token>, i: nat, depth: int) returns (t: Tree)
    requires i < |tokens| && tokens[i].kind.NotKind? && depth < MAX_NESTING_DEPTH
    requires Derived(operand, tokens, i + 1, depth + 1) && Level(operand) <= 1
    ensures
      var inner := Denotes(operand);
      Covers(t, 1, tokens, i, depth, Ok(Not(inner, Span(tokens[i].span.start, inner.span.end)), i + 1 + Width(operand)))
  {
    t := Negation(tokens[i], operand);
  }

  lemma {:induction false} NotSound(tokens: seq<Token>, i: nat, depth: int) returns (t: Tree)
    requires Ended(tokens) && i < |tokens| && depth <= MAX_NESTING_DEPTH
    requires NotAt(tokens, i, depth).Ok?
    ensures Covers(t, 1, tokens, i, depth, NotAt(tokens, i, depth))
    decreases |tokens| - i, 1
  {
    if tokens[i].kind.NotKind? {
      var operand := NotSound(tokens, i + 1, depth + 1);
      t := NegationCovers(operand, tokens, i, depth);
    } else {
      t := PrimarySound(tokens, i, depth);
    }
  }

  lemma {:induction false} MembersSound(tokens: seq<Token>, i: nat, before: seq<LiteralNode>) returns (ls: Literals)
    requires Ended(tokens) && i < |tokens|
    requires MembersAt(tokens, i, before).Ok?
    ensures MembersAt(tokens, i, before) == Ok(before + DenotesLiterals(ls), i + WidthLiterals(ls))
    ensures AllLiterals(ls) && SitsLiterals(ls, tokens, i)
    decreases |tokens| - i
  {
    if !tokens[i + 1].kind.Comma? {
      ls := OneLiteral(tokens[i]);
    } else {
      var extended := before + [LiteralFrom(tokens[i])];
      var rest := MembersSound(tokens, i + 2, extended);
      ls := MoreLiterals(tokens[i], tokens[i + 1], rest);
      assert extended + DenotesLiterals(rest) == before + DenotesLiterals(ls);
    }
  }

  lemma {:induction false} ComparisonSound(tokens: seq<Token>, i: nat, depth: int) returns (t: Tree)
    requires Ended(tokens) && i < |tokens| && depth <= MAX_NESTING_DEPTH
    requires ComparisonAt(tokens, i, depth).Ok?
    ensures Covers(t, 2, tokens, i, depth, ComparisonAt(tokens, i, depth))
    decreases |tokens| - i, 2
  {
    t := NotSound(tokens, i, depth);
    var j := i + Width(t);
    var op := ComparisonOp(tokens[j].kind);
    if op.Some? {
      var right := NotSound(tokens, j + 1, depth);
      RelationStep(tokens, i, depth, Denotes(t), j, Denotes(right), j + 1 + Width(right));
      t := InfixCovers(op.value, t, 2, right, tokens, i, depth);
    } else if tokens[j].kind.InKind? {
      InStart(tokens, i, depth, Denotes(t), j);
      var members := InSound(tokens, Denotes(t), j);
      t := WithinCovers(t, members, tokens, i, depth);
    }
  }

  /** The literals of an accepted list after the IN at `j`. */
  lemma InSound(tokens: seq<Token>, left: Expr, j: nat) returns (members: Literals)
    requires Ended(tokens) && j < |tokens| && tokens[j].kind.InKind?
    requires InAt(tokens, left, j).Ok?
    ensures Lists(members, tokens, j)
    ensures InAt(tokens, left, j) == InOf(left, members, tokens, j)
  {
    InParts(tokens, left, j);
    members := MembersSound(tokens, j + 2, []);
    assert [] + DenotesLiterals(members) == DenotesLiterals(members);
    InStep(tokens, left, j, DenotesLiterals(members), j + 2 + WidthLiterals(members));
  }

  lemma WithinCovers(left: Tree, members: Literals, tokens: seq<Token>, i: nat, depth: int) returns (t: Tree)
    requires Derived(left, tokens, i, depth) && Level(left) <= 1
    requires Lists(members, tokens, i + Width(left))
    ensures Covers(t, 2, tokens, i, depth, InOf(Denotes(left), members, tokens, i + Width(left)))
  {
    var j := i + Width(left);
    t := Within(left, tokens[j], tokens[j + 1], members, tokens[j + 2 + WidthLiterals(members)]);
  }

  /** An operator after a phrase and before a tighter one makes a phrase of its own level. */
  lemma InfixCovers(op: BinaryOp, left: Tree, level: nat, right: Tree, tokens: seq<Token>, start: nat, depth: int)
    returns (t: Tree)
    requires level == OpLevel(op) && Level(left) <= LeftLevel(op) && Level(right) < level
    requires start + Width(left) < |tokens| && IsOperator(tokens[start + Width(left)].kind, op)
    requires Derived(left, tokens, start, depth) && Derived(right, tokens, start + Width(left) + 1, depth)
    ensures
      Covers(t, level, tokens, start, depth,
             Ok(Join(op, Denotes(left), Denotes(right)), start + Width(left) + 1 + Width(right)))
  {
    t := Infix(op, left, tokens[start + Width(left)], right);
    InfixDenotes(t);
  }

  lemma {:induction false} AndLoopSound(tokens: seq<Token>, left: Tree, start: nat, i: nat, depth: int)
    returns (t: Tree)
    requires Ended(tokens) && i < |tokens| && depth <= MAX_NESTING_DEPTH
    requires AndLoop(tokens, Denotes(left), i, depth).Ok?
    requires Covers(left, 3, tokens, start, depth, Ok(Denotes(left), i))
    ensures Covers(t, 3, tokens, start, depth, AndLoop(tokens, Denotes(left), i, depth))
    decreases |tokens| - i, 3
  {
    if !tokens[i].kind.AndKind? {
      t := left;
    } else {
      var right := ComparisonSound(tokens, i + 1, depth);
      var next := i + 1 + Width(right);
      AndStep(tokens, Denotes(left), i, depth, Denotes(right), next);
      var joined := InfixCovers(And, left, 3, right, tokens, start, depth);
      t := AndLoopSound(tokens, joined, start, next, depth);
    }
  }

  lemma {:induction false} AndSound(tokens: seq<Token>, i: nat, depth: int) returns (t: Tree)
    requires Ended(tokens) && i < |tokens| && depth <= MAX_NESTING_DEPTH
    requires AndAt(tokens, i, depth).Ok?
    ensures Covers(t, 3, tokens, i, depth, AndAt(tokens, i, depth))
    decreases |tokens| - i, 4
  {
    var left := ComparisonSound(tokens, i, depth);
    t := AndLoopSound(tokens, left, i, i + Width(left), depth);
  }

  lemma {:induction false} OrLoopSound(tokens: seq<Token>, left: Tree, start: nat, i: nat, depth: int)
    returns (t: Tree)
    requires Ended(tokens) && i < |tokens| && depth <= MAX_NESTING_DEPTH
    requires OrLoop(tokens, Denotes(left), i, depth).Ok?
    requires Covers(left, 4, tokens, start, depth, Ok(Denotes(left), i))
    ensures Covers(t, 4, tokens, start, depth, OrLoop(tokens, Denotes(left), i, depth))
    decreases |tokens| - i, 4
  {
    if !tokens[i].kind.OrKind? {
      t := left;
    } else {
      var right := AndSound(tokens, i + 1, depth);
      var next := i + 1 + Width(right);
      OrStep(tokens, Denotes(left), i, depth, Denotes(right), next);
      var joined := InfixCovers(Or, left, 4, right, tokens, start, depth);
      t := OrLoopSound(tokens, joined, start, next, depth);
    }
  }

  lemma {:induction false} OrSound(tokens: seq<Token>, i: nat, depth: int) returns (t: Tree)
    requires Ended(tokens) && i < |tokens| && depth <= MAX_NESTING_DEPTH
    requires OrAt(tokens, i, depth).Ok?
    ensures Covers(t, 4, tokens, i, depth, OrAt(tokens, i, depth))
    decreases |tokens| - i, 5
  {
    var left := AndSound(tokens, i, depth);
    t := OrLoopSound(tokens, left, i, i + Width(left), depth);
  }
}
