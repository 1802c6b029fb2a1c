/** Whatever the grammar derives, the parser reads: each layer finds the derivation and stops after it. */
module ParserComplete {
  import opened Syntax
  import opened Parser
  import opened Grammar
  import opened Derivations
  import opened ParserSteps

  /** The kinds that cannot follow a complete phrase of the given level. */
  predicate Continues(level: nat, kind: Kind) {
    || kind.LeftParen?
    || (level >= 2 && (kind.InKind? || ComparisonOp(kind).Some?))
    || (level >= 3 && kind.AndKind?)
    || (level >= 4 && kind.OrKind?)
  }

  /** `t` stands at `i`, and the token after it does not continue a phrase of this level. */
  ghost predicate Reads(t: Tree, level: nat, tokens: seq<Token>, i: nat, depth: int) {
    && Ended(tokens) && Derived(t, tokens, i, depth) && i + Width(t) < |tokens|
    && !Continues(level, tokens[i + Width(t)].kind)
  }

  predicate StartsPhrase(kind: Kind) { IsAtomKind(kind) || kind.LeftParen? || kind.NotKind? }

  lemma {:induction false} FirstToken(t: Tree, tokens: seq<Token>, i: nat, depth: int)
    requires Derived(t, tokens, i, depth)
    ensures i < |tokens| && StartsPhrase(tokens[i].kind)
    ensures i + Width(t) <= |tokens|
  {
    match t
    case Group(_, inner, _) => FirstToken(inner, tokens, i + 1, depth + 1);
    case Negation(_, operand) => FirstToken(operand, tokens, i + 1, depth + 1);
    case Infix(_, left, _, right) =>
      FirstToken(left, tokens, i, depth);
      FirstToken(right, tokens, i + Width(left) + 1, depth);
    case Within(candidate, _, _, _, _) => FirstToken(candidate, tokens, i, depth);
    case _ =>
  }

  lemma FirstOfAll(ts: Trees, tokens: seq<Token>, i: nat, depth: int)
    requires DerivedAll(ts, tokens, i, depth)
    ensures i < |tokens| && StartsPhrase(tokens[i].kind)
  {
    FirstToken(if ts.One? then ts.only else ts.first, tokens, i, depth);
  }

  lemma {:induction false} PrimaryComplete(t: Tree, tokens: seq<Token>, i: nat, depth: int)
    requires Reads(t, 0, tokens, i, depth) && Level(t) == 0
    ensures i < |tokens| && PrimaryAt(tokens, i, depth) == Ok(Denotes(t), i + Width(t))
    decreases t, 1
  {
    match t
    case Atom(_) =>
    case Apply0(_, _, _, _) => Apply0Complete(t, tokens, i, depth);
    case Apply(_, _, _, _, _) => ApplyComplete(t, tokens, i, depth);
    case Group(_, _, _) => GroupComplete(t, tokens, i, depth);
  }

  lemma Apply0Complete(t: Tree, tokens: seq<Token>, i: nat, depth: int)
    requires Reads(t, 0, tokens, i, depth) && t.Apply0?
    ensures i < |tokens| && PrimaryAt(tokens, i, depth) == Ok(Denotes(t), i + Width(t))
  {
    CallStep(tokens, i, depth, t.builtin);
    assert ListAt(tokens, i + 2, depth + 1) == Ok([], i + 2);
  }

  lemma {:induction false} ApplyComplete(t: Tree, tokens: seq<Token>, i: nat, depth: int)
    requires Reads(t, 0, tokens, i, depth) && t.Apply?
    ensures i < |tokens| && PrimaryAt(tokens, i, depth) == Ok(Denotes(t), i + Width(t))
    decreases t, 0
  {
    CallComplete(t.args, tokens, i, depth, t.builtin);
    CallStep(tokens, i, depth, t.builtin);
    assert CallOf(t.builtin, t.args, tokens, i) == Ok(Denotes(t), i + Width(t));
  }

  lemma {:induction false} GroupComplete(t: Tree, tokens: seq<Token>, i: nat, depth: int)
    requires Reads(t, 0, tokens, i, depth) && t.Group?
    ensures i < |tokens| && PrimaryAt(tokens, i, depth) == Ok(Denotes(t), i + Width(t))
    decreases t, 0
  {
    FirstToken(t.inner, tokens, i + 1, depth + 1);
    OrComplete(t.inner, tokens, i + 1, depth + 1);
    GroupStep(tokens, i, depth, Denotes(t.inner), i + 1 + Width(t.inner));
  }

  lemma {:induction false} CallComplete(ts: Trees, tokens: seq<Token>, i: nat, depth: int, builtin: Builtin)
    requires Ended(tokens) && DerivedAll(ts, tokens, i + 2, depth + 1) && depth < MAX_NESTING_DEPTH
    requires i + 2 + WidthAll(ts) < |tokens| && tokens[i + 2 + WidthAll(ts)].kind.RightParen?
    ensures CallAt(tokens, i, depth, builtin) == CallOf(builtin, ts, tokens, i)
    decreases ts, 1
  {
    FirstOfAll(ts, tokens, i + 2, depth + 1);
    ArgumentsComplete(ts, tokens, i + 2, depth + 1, []);
    assert [] + DenotesAll(ts) == DenotesAll(ts);
  }

  lemma {:induction false} ArgumentsComplete(ts: Trees, tokens: seq<Token>, i: nat, depth: int, before: seq<Expr>)
    requires Ended(tokens) && DerivedAll(ts, tokens, i, depth)
    requires i + WidthAll(ts) < |tokens| && tokens[i + WidthAll(ts)].kind.RightParen?
    ensures ArgumentsAt(tokens, i, depth, before) == Ok(before + DenotesAll(ts), i + WidthAll(ts))
    decreases ts, 0
  {
    match ts
    case One(t) => OrComplete(t, tokens, i, depth);
    case More(t, comma, rest) =>
      var j := i + Width(t) + 1;
      OrComplete(t, tokens, i, depth);
      FirstOfAll(rest, tokens, j, depth);
      ArgumentStep(tokens, i, depth, before, Denotes(t), j - 1);
      ArgumentsComplete(rest, tokens, j, depth, before + [Denotes(t)]);
      assert before + [Denotes(t)] + DenotesAll(rest) == before + DenotesAll(ts);
  }

  lemma {:induction false} NotComplete(t: Tree, tokens: seq<Token>, i: nat, depth: int)
    requires Reads(t, 1, tokens, i, depth) && Level(t) <= 1
    ensures i < |tokens| && NotAt(tokens, i, depth) == Ok(Denotes(t), i + Width(t))
    decreases t, 2
  {
    if t.Negation? {
      NotComplete(t.operand, tokens, i + 1, depth + 1);
    } else {
      PrimaryComplete(t, tokens, i, depth);
    }
  }

  lemma {:induction false} MembersComplete(ls: Literals, tokens: seq<Token>, i: nat, before: seq<LiteralNode>)
    requires Ended(tokens) && AllLiterals(ls) && SitsLiterals(ls, tokens, i)
    requires i + WidthLiterals(ls) < |tokens| && tokens[i + WidthLiterals(ls)].kind.RightParen?
    ensures MembersAt(tokens, i, before) == Ok(before + DenotesLiterals(ls), i + WidthLiterals(ls))
    ensures IsLiteralKind(tokens[i].kind)
    decreases ls
  {
    match ls
    case OneLiteral(_) =>
    case MoreLiterals(first, comma, rest) =>
      MembersComplete(rest, tokens, i + 2, before + [LiteralFrom(first)]);
      assert before + [LiteralFrom(first)] + DenotesLiterals(rest) == before + DenotesLiterals(ls);
  }

  lemma {:induction false} ComparisonComplete(t: Tree, tokens: seq<Token>, i: nat, depth: int)
    requires Reads(t, 2, tokens, i, depth) && Level(t) <= 2
    ensures i < |tokens| && ComparisonAt(tokens, i, depth) == Ok(Denotes(t), i + Width(t))
    decreases t, 3
  {
    match t
    case Infix(_, _, _, _) => RelationComplete(t, tokens, i, depth);
    case Within(_, _, _, _, _) => WithinComplete(t, tokens, i, depth);
    case _ => NotComplete(t, tokens, i, depth);
  }

  lemma {:induction false} RelationComplete(t: Tree, tokens: seq<Token>, i: nat, depth: int)
    requires Reads(t, 2, tokens, i, depth) && t.Infix? && Level(t) <= 2
    ensures i < |tokens| && ComparisonAt(tokens, i, depth) == Ok(Denotes(t), i + Width(t))
    decreases t, 0
  {
    NotComplete(t.left, tokens, i, depth);
    NotComplete(t.right, tokens, i + Width(t.left) + 1, depth);
    RelationStep(tokens, i, depth, Denotes(t.left), i + Width(t.left), Denotes(t.right), i + Width(t));
  }

  lemma {:induction false} WithinComplete(t: Tree, tokens: seq<Token>, i: nat, depth: int)
    requires Reads(t, 2, tokens, i, depth) && t.Within?
    ensures i < |tokens| && ComparisonAt(tokens, i, depth) == Ok(Denotes(t), i + Width(t))
    decreases t, 0
  {
    NotComplete(t.candidate, tokens, i, depth);
    MembersComplete(t.members, tokens, i + Width(t.candidate) + 2, []);
    assert [] + DenotesLiterals(t.members) == DenotesLiterals(t.members);
    var j := i + Width(t.candidate);
    InStart(tokens, i, depth, Denotes(t.candidate), j);
    InStep(tokens, Denotes(t.candidate), j, DenotesLiterals(t.members), j + 2 + WidthLiterals(t.members));
  }

  /** The operands of an infix phrase are read within it. */
  lemma InfixReads(t: Tree, level: nat, tokens: seq<Token>, i: nat, depth: int)
    requires Reads(t, level, tokens, i, depth) && t.Infix?
    requires (t.op.And? && level == 2) || (t.op.Or? && level == 3)
    ensures Reads(t.left, level, tokens, i, depth) && Reads(t.right, level, tokens, i + Width(t.left) + 1, depth)
    ensures i + Width(t.left) + 1 < |tokens| && i + Width(t) < |tokens|
    ensures Level(t.left) <= level + 1 && Level(t.right) <= level
    ensures if t.op.And? then tokens[i + Width(t.left)].kind.AndKind? else tokens[i + Width(t.left)].kind.OrKind?
  {
    FirstToken(t.right, tokens, i + Width(t.left) + 1, depth);
  }

  /** Whatever follows, the AND layer reads `t` first and then goes on with its loop. */
  lemma {:induction false} AndReads(t: Tree, tokens: seq<Token>, i: nat, depth: int)
    requires Reads(t, 2, tokens, i, depth) && Level(t) <= 3
    ensures i < |tokens| && AndAt(tokens, i, depth) == AndLoop(tokens, Denotes(t), i + Width(t), depth)
    decreases t, 6
  {
    if t.Infix? && t.op.And? {
      AndChainReads(t, tokens, i, depth);
    } else {
      AndFirstReads(t, tokens, i, depth);
    }
  }

  lemma {:induction false} AndFirstReads(t: Tree, tokens: seq<Token>, i: nat, depth: int)
    requires Reads(t, 2, tokens, i, depth) && Level(t) <= 2
    ensures i < |tokens| && AndAt(tokens, i, depth) == AndLoop(tokens, Denotes(t), i + Width(t), depth)
    decreases t, 4
  {
    ComparisonComplete(t, tokens, i, depth);
    AndStart(tokens, i, depth, Denotes(t), i + Width(t));
  }

  /** The loop goes on past one operator and its right operand. */
  lemma {:induction false} AndOperandReads(t: Tree, tokens: seq<Token>, left: Expr, k: nat, depth: int)
    requires Reads(t, 2, tokens, k, depth) && Level(t) <= 2 && 0 < k <= |tokens| && tokens[k - 1].kind.AndKind?
    ensures AndLoop(tokens, left, k - 1, depth) == AndLoop(tokens, Join(And, left, Denotes(t)), k + Width(t), depth)
    decreases t, 4
  {
    ComparisonComplete(t, tokens, k, depth);
    AndStep(tokens, left, k - 1, depth, Denotes(t), k + Width(t));
  }

  lemma {:induction false} AndChainReads(t: Tree, tokens: seq<Token>, i: nat, depth: int)
    requires Reads(t, 2, tokens, i, depth) && t.Infix? && t.op.And?
    ensures i < |tokens| && AndAt(tokens, i, depth) == AndLoop(tokens, Denotes(t), i + Width(t), depth)
    decreases t, 5
  {
    var left, j := Denotes(t.left), i + Width(t.left);
    InfixReads(t, 2, tokens, i, depth);
    InfixDenotes(t);
    AndReads(t.left, tokens, i, depth);
    AndOperandReads(t.right, tokens, left, i + Width(t.left) + 1, depth);
  }

  lemma {:induction false} AndComplete(t: Tree, tokens: seq<Token>, i: nat, depth: int)
    requires Reads(t, 3, tokens, i, depth) && Level(t) <= 3
    ensures i < |tokens| && AndAt(tokens, i, depth) == Ok(Denotes(t), i + Width(t))
    decreases t, 7
  {
    AndReads(t, tokens, i, depth);
  }

  lemma {:induction false} OrReads(t: Tree, tokens: seq<Token>, i: nat, depth: int)
    requires Reads(t, 3, tokens, i, depth)
    ensures i < |tokens| && OrAt(tokens, i, depth) == OrLoop(tokens, Denotes(t), i + Width(t), depth)
    decreases t, 10
  {
    if t.Infix? && t.op.Or? {
      OrChainReads(t, tokens, i, depth);
    } else {
      OrFirstReads(t, tokens, i, depth);
    }
  }

  lemma {:induction false} OrFirstReads(t: Tree, tokens: seq<Token>, i: nat, depth: int)
    requires Reads(t, 3, tokens, i, depth) && Level(t) <= 3
    ensures i < |tokens| && OrAt(tokens, i, depth) == OrLoop(tokens, Denotes(t), i + Width(t), depth)
    decreases t, 8
  {
    AndComplete(t, tokens, i, depth);
    OrStart(tokens, i, depth, Denotes(t), i + Width(t));
  }

  /** The loop goes on past one operator and its right operand. */
  lemma {:induction false} OrOperandReads(t: Tree, tokens: seq<Token>, left: Expr, k: nat, depth: int)
    requires Reads(t, 3, tokens, k, depth) && Level(t) <= 3 && 0 < k <= |tokens| && tokens[k - 1].kind.OrKind?
    ensures OrLoop(tokens, left, k - 1, depth) == OrLoop(tokens, Join(Or, left, Denotes(t)), k + Width(t), depth)
    decreases t, 8
  {
    AndComplete(t, tokens, k, depth);
    OrStep(tokens, left, k - 1, depth, Denotes(t), k + Width(t));
  }

  lemma {:induction false} OrChainReads(t: Tree, tokens: seq<Token>, i: nat, depth: int)
    requires Reads(t, 3, tokens, i, depth) && t.Infix? && t.op.Or?
    ensures i < |tokens| && OrAt(tokens, i, depth) == OrLoop(tokens, Denotes(t), i + Width(t), depth)
    decreases t, 9
  {
    var left, j := Denotes(t.left), i + Width(t.left);
    InfixReads(t, 3, tokens, i, depth);
    InfixDenotes(t);
    OrReads(t.left, tokens, i, depth);
    OrOperandReads(t.right, tokens, left, i + Width(t.left) + 1, depth);
  }

  lemma {:induction false} OrComplete(t: Tree, tokens: seq<Token>, i: nat, depth: int)
    requires Reads(t, 4, tokens, i, depth)
    ensures i < |tokens| && OrAt(tokens, i, depth) == Ok(Denotes(t), i + Width(t))
    decreases t, 11
  {
    OrReads(t, tokens, i, depth);
  }
}
