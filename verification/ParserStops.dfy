/** Where the parser gives up, the tokens before it begin some derivation: each layer builds one. */
module ParserStops {
  import opened Syntax
  import opened Parser
  import opened Grammar
  import opened Positions
  import opened Derivations
  import opened ParserSound
  import opened ParserSteps

  // ---------------------------------------------------------------- beginnings

  /** The tokens from `i` to `end` are the first ones of `spelled`. */
  ghost predicate Starts(spelled: seq<Token>, tokens: seq<Token>, i: nat, end: nat) {
    i <= end <= |tokens| && end - i <= |spelled| && tokens[i..end] == spelled[..end - i]
  }

  lemma StartsNothing(spelled: seq<Token>, tokens: seq<Token>, i: nat)
    requires i <= |tokens|
    ensures Starts(spelled, tokens, i, i)
  {}

  lemma StartsAfter(a: seq<Token>, b: seq<Token>, tokens: seq<Token>, i: nat, end: nat)
    requires Slice(a, tokens, i) && Starts(b, tokens, i + |a|, end)
    ensures Starts(a + b, tokens, i, end)
  {
    var j := i + |a|;
    assert tokens[i..end] == tokens[i..j] + tokens[j..end];
    assert (a + b)[..end - i] == a + b[..end - j];
  }

  lemma StartsLonger(a: seq<Token>, b: seq<Token>, tokens: seq<Token>, i: nat, end: nat)
    requires Starts(a, tokens, i, end)
    ensures Starts(a + b, tokens, i, end)
  {
    assert (a + b)[..end - i] == a[..end - i];
  }

  lemma StartsCons(first: Token, b: seq<Token>, tokens: seq<Token>, i: nat, end: nat)
    requires Has(tokens, i, first) && Starts(b, tokens, i + 1, end)
    ensures Starts([first] + b, tokens, i, end)
  {
    SliceToken(first, tokens, i);
    StartsAfter([first], b, tokens, i, end);
  }

  lemma StartsAround(a: seq<Token>, m: Token, b: seq<Token>, tokens: seq<Token>, i: nat, end: nat)
    requires Slice(a, tokens, i) && Has(tokens, i + |a|, m) && Starts(b, tokens, i + |a| + 1, end)
    ensures Starts(a + [m] + b, tokens, i, end)
  {
    StartsCons(m, b, tokens, i + |a|, end);
    StartsAfter(a, [m] + b, tokens, i, end);
    Regroup(a, [m], b);
  }

  // ---------------------------------------------------------------- openings

  /** Tokens to go on with. They stand in for whatever could follow. */
  const OPERAND: Token := Token(NullKind, Null, Span(0, 0))
  const OPENING: Token := Token(LeftParen, Null, Span(0, 0))
  const CLOSING: Token := Token(RightParen, Null, Span(0, 0))

  /** `t` is a derivation for this layer that begins with the tokens from `i` to `end`. */
  ghost predicate Opens(t: Tree, level: nat, tokens: seq<Token>, i: nat, end: nat) {
    Derives(t) && Level(t) <= level && Starts(Yield(t), tokens, i, end)
  }

  /** Within the limit, unless the token that passed it is to be included. */
  predicate Fits(t: Tree, depth: int, past: bool) { past || depth + Nesting(t) <= MAX_NESTING_DEPTH }

  /** A failure, and which tokens to account for: the ones before it, or for a nesting failure its own too. */
  predicate Stopped<T>(r: Parsed<T>, past: bool) { r.Fail? && (past ==> r.code.NestingLimitExceeded?) }

  function End<T>(r: Parsed<T>, past: bool): nat
    requires r.Fail?
  {
    if past then r.at + 1 else r.at
  }

  lemma AnyOperand(tokens: seq<Token>, i: nat, depth: int, past: bool) returns (t: Tree)
    requires i <= |tokens| && depth <= MAX_NESTING_DEPTH
    ensures Opens(t, 0, tokens, i, i) && Fits(t, depth, past)
  {
    t := Atom(OPERAND);
    StartsNothing(Yield(t), tokens, i);
  }

  lemma OneToken(tokens: seq<Token>, i: nat, depth: int, past: bool) returns (t: Tree)
    requires i < |tokens| && IsAtomKind(tokens[i].kind) && depth <= MAX_NESTING_DEPTH
    ensures Opens(t, 0, tokens, i, i + 1) && Fits(t, depth, past)
  {
    t := Atom(tokens[i]);
  }

  lemma GroupOpens(inner: Tree, tokens: seq<Token>, i: nat, end: nat, depth: int, past: bool) returns (t: Tree)
    requires i < |tokens| && tokens[i].kind.LeftParen?
    requires Opens(inner, 4, tokens, i + 1, end) && Fits(inner, depth + 1, past)
    ensures Opens(t, 0, tokens, i, end) && Fits(t, depth, past)
  {
    t := Group(tokens[i], inner, CLOSING);
    StartsCons(tokens[i], Yield(inner), tokens, i, end);
    StartsLonger([tokens[i]] + Yield(inner), [CLOSING], tokens, i, end);
  }

  lemma NegationOpens(operand: Tree, tokens: seq<Token>, i: nat, end: nat, depth: int, past: bool) returns (t: Tree)
    requires i < |tokens| && tokens[i].kind.NotKind?
    requires Opens(operand, 1, tokens, i + 1, end) && Fits(operand, depth + 1, past)
    ensures Opens(t, 1, tokens, i, end) && Fits(t, depth, past)
  {
    t := Negation(tokens[i], operand);
    StartsCons(tokens[i], Yield(operand), tokens, i, end);
  }

  lemma EmptyCallOpens(tokens: seq<Token>, i: nat, builtin: Builtin) returns (t: Tree)
    requires i + 2 < |tokens| && Calls(tokens[i], builtin) && tokens[i + 1].kind.LeftParen?
    ensures Opens(t, 0, tokens, i, i + 2)
  {
    t := Apply0(builtin, tokens[i], tokens[i + 1], CLOSING);
    assert Yield(t)[..2] == tokens[i..i + 2];
  }

  lemma ApplyOpens(args: Trees, tokens: seq<Token>, i: nat, end: nat, depth: int, past: bool,
      builtin: Builtin) returns (t: Tree)
    requires i + 2 < |tokens| && Calls(tokens[i], builtin) && tokens[i + 1].kind.LeftParen?
    requires OpensAll(args, tokens, i + 2, end, depth + 1, past)
    ensures Opens(t, 0, tokens, i, end) && Fits(t, depth, past)
  {
    t := Apply(builtin, tokens[i], tokens[i + 1], args, CLOSING);
    var name, open, list := tokens[i], tokens[i + 1], YieldAll(args);
    StartsCons(open, list, tokens, i + 1, end);
    StartsCons(name, [open] + list, tokens, i, end);
    assert [name] + ([open] + list) == [name, open] + list;
    StartsLonger([name, open] + list, [CLOSING], tokens, i, end);
  }

  lemma InfixOpens(t: Tree, tokens: seq<Token>, i: nat, end: nat, depth: int, past: bool)
    requires t.Infix? && Derived(t.left, tokens, i, depth) && Level(t.left) <= LeftLevel(t.op)
    requires Has(tokens, i + Width(t.left), t.token) && IsOperator(t.token.kind, t.op)
    requires Opens(t.right, OpLevel(t.op) - 1, tokens, i + Width(t.left) + 1, end) && Fits(t.right, depth, past)
    ensures Opens(t, OpLevel(t.op), tokens, i, end) && Fits(t, depth, past)
  {
    DerivedSits(t.left, tokens, i, depth);
    SitsIsSlice(t.left, tokens, i);
    StartsAround(Yield(t.left), t.token, Yield(t.right), tokens, i, end);
  }

  /** An operator after a phrase that is complete, and before one that is begun. */
  lemma OperandOpens(op: BinaryOp, left: Tree, right: Tree, tokens: seq<Token>, i: nat, end: nat, depth: int, past: bool)
    returns (t: Tree)
    requires Derived(left, tokens, i, depth) && Level(left) <= LeftLevel(op)
    requires i + Width(left) < |tokens| && IsOperator(tokens[i + Width(left)].kind, op)
    requires Opens(right, OpLevel(op) - 1, tokens, i + Width(left) + 1, end) && Fits(right, depth, past)
    ensures Opens(t, OpLevel(op), tokens, i, end) && Fits(t, depth, past)
  {
    t := Infix(op, left, tokens[i + Width(left)], right);
    InfixOpens(t, tokens, i, end, depth, past);
  }

  /** The candidate and IN, and as much of the list as there is. */
  lemma WithinStarts(a: seq<Token>, kw: Token, open: Token, list: seq<Token>, tokens: seq<Token>, i: nat, end: nat)
    requires Slice(a, tokens, i) && Has(tokens, i + |a|, kw)
    requires Starts([open] + list + [CLOSING], tokens, i + |a| + 1, end)
    ensures Starts(a + [kw, open] + list + [CLOSING], tokens, i, end)
  {
    StartsAround(a, kw, [open] + list + [CLOSING], tokens, i, end);
    assert a + [kw] + ([open] + list + [CLOSING]) == a + [kw, open] + list + [CLOSING];
  }

  lemma WithinOpens(left: Tree, open: Token, members: Literals, tokens: seq<Token>, i: nat, end: nat, depth: int)
    returns (t: Tree)
    requires Derived(left, tokens, i, depth) && Level(left) <= 1
    requires i + Width(left) < |tokens| && tokens[i + Width(left)].kind.InKind?
    requires open.kind.LeftParen? && AllLiterals(members)
    requires Starts([open] + YieldLiterals(members) + [CLOSING], tokens, i + Width(left) + 1, end)
    ensures Opens(t, 2, tokens, i, end) && Fits(t, depth, false)
  {
    var kw := tokens[i + Width(left)];
    t := Within(left, kw, open, members, CLOSING);
    DerivedSits(left, tokens, i, depth);
    SitsIsSlice(left, tokens, i);
    WithinStarts(Yield(left), kw, open, YieldLiterals(members), tokens, i, end);
  }

  // ---------------------------------------------------------------- layers

  lemma {:induction false} PrimaryStops(tokens: seq<Token>, i: nat, depth: int, past: bool) returns (t: Tree)
    requires Ended(tokens) && i < |tokens| && depth <= MAX_NESTING_DEPTH && Stopped(PrimaryAt(tokens, i, depth), past)
    ensures Opens(t, 0, tokens, i, End(PrimaryAt(tokens, i, depth), past)) && Fits(t, depth, past)
    decreases |tokens| - i, 0
  {
    if tokens[i].kind.LeftParen? {
      t := GroupStops(tokens, i, depth, past);
    } else if tokens[i].kind.IdentifierKind? {
      t := NameStops(tokens, i, depth, past);
    } else {
      t := AnyOperand(tokens, i, depth, past);
    }
  }

  lemma {:induction false} NameStops(tokens: seq<Token>, i: nat, depth: int, past: bool) returns (t: Tree)
    requires Ended(tokens) && i < |tokens| && depth <= MAX_NESTING_DEPTH && Stopped(PrimaryAt(tokens, i, depth), past)
    requires tokens[i].kind.IdentifierKind?
    ensures Opens(t, 0, tokens, i, End(PrimaryAt(tokens, i, depth), past)) && Fits(t, depth, past)
    decreases |tokens| - i - 1, 9
  {
    var builtin := GetBuiltin(NameOf(tokens[i]));
    if builtin.Some? {
      t := CallStops(tokens, i, depth, past, builtin.value);
    } else {
      t := OneToken(tokens, i, depth, past);
    }
  }

  lemma {:induction false} GroupStops(tokens: seq<Token>, i: nat, depth: int, past: bool) returns (t: Tree)
    requires Ended(tokens) && i < |tokens| && depth <= MAX_NESTING_DEPTH && Stopped(PrimaryAt(tokens, i, depth), past)
    requires tokens[i].kind.LeftParen?
    ensures Opens(t, 0, tokens, i, End(PrimaryAt(tokens, i, depth), past)) && Fits(t, depth, past)
    decreases |tokens| - i - 1, 6
  {
    var end := End(PrimaryAt(tokens, i, depth), past);
    if depth == MAX_NESTING_DEPTH && !past {
      t := AnyOperand(tokens, i, depth, past);
    } else {
      var inner: Tree;
      if depth == MAX_NESTING_DEPTH {
        inner := Atom(OPERAND);
        StartsNothing(Yield(inner), tokens, i + 1);
      } else if OrAt(tokens, i + 1, depth + 1).Fail? {
        inner := OrStops(tokens, i + 1, depth + 1, past);
      } else {
        inner := OrCovered(tokens, i + 1, depth + 1);
      }
      t := GroupOpens(inner, tokens, i, end, depth, past);
    }
  }

  /** An accepted phrase begins with exactly its own tokens. */
  lemma OrCovered(tokens: seq<Token>, i: nat, depth: int) returns (t: Tree)
    requires Ended(tokens) && i < |tokens| && depth <= MAX_NESTING_DEPTH && OrAt(tokens, i, depth).Ok?
    ensures Opens(t, 4, tokens, i, OrAt(tokens, i, depth).next) && Fits(t, depth, false)
    ensures Derived(t, tokens, i, depth) && OrAt(tokens, i, depth).next == i + Width(t)
  {
    t := OrSound(tokens, i, depth);
    DerivedSits(t, tokens, i, depth);
    SitsIsSlice(t, tokens, i);
    assert Yield(t)[..Width(t)] == Yield(t);
  }

  lemma CallFails(tokens: seq<Token>, i: nat, depth: int, builtin: Builtin)
    requires Ended(tokens) && i + 2 < |tokens| && depth < MAX_NESTING_DEPTH && CallAt(tokens, i, depth, builtin).Fail?
    ensures
      var list := ArgumentsAt(tokens, i + 2, depth + 1, []);
      CallAt(tokens, i, depth, builtin)
      == if list.Fail? then Fail(list.code, list.at) else Fail(UnexpectedToken, list.next)
  {}

  lemma {:induction false} CallStops(tokens: seq<Token>, i: nat, depth: int, past: bool,
      builtin: Builtin) returns (t: Tree)
    requires Ended(tokens) && i + 2 < |tokens| && depth <= MAX_NESTING_DEPTH && Stopped(CallAt(tokens, i, depth, builtin), past)
    requires Calls(tokens[i], builtin) && tokens[i + 1].kind.LeftParen?
    ensures Opens(t, 0, tokens, i, End(CallAt(tokens, i, depth, builtin), past)) && Fits(t, depth, past)
    decreases |tokens| - i - 1, 8
  {
    if depth == MAX_NESTING_DEPTH {
      if past {
        t := EmptyCallOpens(tokens, i, builtin);
      } else {
        t := OneToken(tokens, i, depth, past);
      }
    } else {
      CallFails(tokens, i, depth, builtin);
      if ArgumentsAt(tokens, i + 2, depth + 1, []).Fail? {
        t := CallListStops(tokens, i, depth, past, builtin);
      } else {
        t := CallEndMissing(tokens, i, depth, builtin);
      }
    }
  }

  lemma {:induction false} CallListStops(tokens: seq<Token>, i: nat, depth: int, past: bool,
      builtin: Builtin) returns (t: Tree)
    requires Ended(tokens) && i + 2 < |tokens| && depth < MAX_NESTING_DEPTH
    requires Stopped(ArgumentsAt(tokens, i + 2, depth + 1, []), past)
    requires Calls(tokens[i], builtin) && tokens[i + 1].kind.LeftParen?
    ensures Opens(t, 0, tokens, i, End(ArgumentsAt(tokens, i + 2, depth + 1, []), past)) && Fits(t, depth, past)
    decreases |tokens| - i - 1, 7
  {
    var args := ArgumentsStops(tokens, i + 2, depth + 1, past, []);
    t := ApplyOpens(args, tokens, i, End(ArgumentsAt(tokens, i + 2, depth + 1, []), past), depth, past, builtin);
  }

  lemma CallEndMissing(tokens: seq<Token>, i: nat, depth: int, builtin: Builtin) returns (t: Tree)
    requires Ended(tokens) && i + 2 < |tokens| && depth < MAX_NESTING_DEPTH
    requires ArgumentsAt(tokens, i + 2, depth + 1, []).Ok?
    requires Calls(tokens[i], builtin) && tokens[i + 1].kind.LeftParen?
    ensures Opens(t, 0, tokens, i, ArgumentsAt(tokens, i + 2, depth + 1, []).next) && Fits(t, depth, false)
  {
    var args := ArgumentsCovered(tokens, i + 2, depth + 1);
    t := ApplyOpens(args, tokens, i, ArgumentsAt(tokens, i + 2, depth + 1, []).next, depth, false, builtin);
  }

  lemma ArgumentsCovered(tokens: seq<Token>, i: nat, depth: int) returns (ts: Trees)
    requires Ended(tokens) && i < |tokens| && depth <= MAX_NESTING_DEPTH && ArgumentsAt(tokens, i, depth, []).Ok?
    ensures DerivesAll(ts) && Starts(YieldAll(ts), tokens, i, ArgumentsAt(tokens, i, depth, []).next)
    ensures depth + NestingAll(ts) <= MAX_NESTING_DEPTH
  {
    ts := ArgumentsSound(tokens, i, depth, []);
    DerivedSitsAll(ts, tokens, i, depth);
    SitsAllIsSlice(ts, tokens, i);
    assert YieldAll(ts)[..WidthAll(ts)] == YieldAll(ts);
  }

  /** Arguments that begin with the tokens from `i` to `end`. */
  ghost predicate OpensAll(ts: Trees, tokens: seq<Token>, i: nat, end: nat, depth: int, past: bool) {
    DerivesAll(ts) && Starts(YieldAll(ts), tokens, i, end) && (past || depth + NestingAll(ts) <= MAX_NESTING_DEPTH)
  }

  lemma MoreOpens(first: Tree, rest: Trees, tokens: seq<Token>, i: nat, end: nat, depth: int,
      past: bool) returns (ts: Trees)
    requires Derived(first, tokens, i, depth)
    requires i + Width(first) < |tokens| && tokens[i + Width(first)].kind.Comma?
    requires OpensAll(rest, tokens, i + Width(first) + 1, end, depth, past)
    ensures OpensAll(ts, tokens, i, end, depth, past)
  {
    var comma := tokens[i + Width(first)];
    ts := More(first, comma, rest);
    DerivedSits(first, tokens, i, depth);
    SitsIsSlice(first, tokens, i);
    StartsAround(Yield(first), comma, YieldAll(rest), tokens, i, end);
  }

  lemma {:induction false} ArgumentsStops(tokens: seq<Token>, i: nat, depth: int, past: bool,
      args: seq<Expr>) returns (ts: Trees)
    requires Ended(tokens) && i < |tokens| && depth <= MAX_NESTING_DEPTH
    requires Stopped(ArgumentsAt(tokens, i, depth, args), past)
    ensures OpensAll(ts, tokens, i, End(ArgumentsAt(tokens, i, depth, args), past), depth, past)
    decreases |tokens| - i, 6
  {
    if OrAt(tokens, i, depth).Fail? {
      var t := OrStops(tokens, i, depth, past);
      ts := One(t);
    } else {
      ts := LaterArgumentStops(tokens, i, depth, past, args);
    }
  }

  lemma {:induction false} LaterArgumentStops(tokens: seq<Token>, i: nat, depth: int, past: bool, args: seq<Expr>)
    returns (ts: Trees)
    requires Ended(tokens) && i < |tokens| && depth <= MAX_NESTING_DEPTH
    requires Stopped(ArgumentsAt(tokens, i, depth, args), past) && OrAt(tokens, i, depth).Ok?
    ensures OpensAll(ts, tokens, i, End(ArgumentsAt(tokens, i, depth, args), past), depth, past)
    decreases |tokens| - i, 0
  {
    var first := OrCovered(tokens, i, depth);
    var rest: Trees;
    if tokens[i + Width(first) + 1].kind.RightParen? {
      var t := AnyOperand(tokens, i + Width(first) + 1, depth, past);
      rest := One(t);
    } else {
      var argument := OrAt(tokens, i, depth).node;
      ArgumentStep(tokens, i, depth, args, argument, i + Width(first));
      rest := ArgumentsStops(tokens, i + Width(first) + 1, depth, past, args + [argument]);
    }
    ts := MoreOpens(first, rest, tokens, i, End(ArgumentsAt(tokens, i, depth, args), past), depth, past);
  }

  lemma {:induction false} NotStops(tokens: seq<Token>, i: nat, depth: int, past: bool) returns (t: Tree)
    requires Ended(tokens) && i < |tokens| && depth <= MAX_NESTING_DEPTH && Stopped(NotAt(tokens, i, depth), past)
    ensures Opens(t, 1, tokens, i, End(NotAt(tokens, i, depth), past)) && Fits(t, depth, past)
    decreases |tokens| - i, 1
  {
    if !tokens[i].kind.NotKind? {
      t := PrimaryStops(tokens, i, depth, past);
    } else if depth == MAX_NESTING_DEPTH && !past {
      t := AnyOperand(tokens, i, depth, past);
    } else {
      var operand: Tree;
      if depth == MAX_NESTING_DEPTH {
        operand := Atom(OPERAND);
        StartsNothing(Yield(operand), tokens, i + 1);
      } else {
        operand := NotStops(tokens, i + 1, depth + 1, past);
      }
      t := NegationOpens(operand, tokens, i, End(NotAt(tokens, i, depth), past), depth, past);
    }
  }

  lemma {:induction false} MembersStops(tokens: seq<Token>, i: nat, members: seq<LiteralNode>) returns (ls: Literals)
    requires Ended(tokens) && i < |tokens| && MembersAt(tokens, i, members).Fail?
    ensures MembersAt(tokens, i, members).code.UnexpectedToken?
    ensures AllLiterals(ls) && Starts(YieldLiterals(ls), tokens, i, MembersAt(tokens, i, members).at)
    decreases |tokens| - i
  {
    if !IsLiteralKind(tokens[i].kind) {
      ls := OneLiteral(OPERAND);
      StartsNothing(YieldLiterals(ls), tokens, i);
    } else {
      var end := MembersAt(tokens, i, members).at;
      var rest: Literals;
      if tokens[i + 2].kind.RightParen? {
        rest := OneLiteral(OPERAND);
        StartsNothing(YieldLiterals(rest), tokens, i + 2);
      } else {
        rest := MembersStops(tokens, i + 2, members + [LiteralFrom(tokens[i])]);
      }
      ls := MoreLiterals(tokens[i], tokens[i + 1], rest);
      StartsCons(tokens[i + 1], YieldLiterals(rest), tokens, i + 1, end);
      StartsCons(tokens[i], [tokens[i + 1]] + YieldLiterals(rest), tokens, i, end);
      assert [tokens[i]] + ([tokens[i + 1]] + YieldLiterals(rest)) == YieldLiterals(ls);
    }
  }

  /** As much of the bracketed list after the IN at `j` as there is. */
  lemma InStops(tokens: seq<Token>, left: Expr, j: nat) returns (open: Token, members: Literals)
    requires Ended(tokens) && j < |tokens| && tokens[j].kind.InKind? && InAt(tokens, left, j).Fail?
    ensures InAt(tokens, left, j).code.UnexpectedToken?
    ensures open.kind.LeftParen? && AllLiterals(members)
    ensures Starts([open] + YieldLiterals(members) + [CLOSING], tokens, j + 1, InAt(tokens, left, j).at)
  {
    open, members := OPENING, OneLiteral(OPERAND);
    if tokens[j + 1].kind.LeftParen? {
      open := tokens[j + 1];
      members := ListStops(tokens, left, j);
      StartsCons(open, YieldLiterals(members), tokens, j + 1, InAt(tokens, left, j).at);
      StartsLonger([open] + YieldLiterals(members), [CLOSING], tokens, j + 1, InAt(tokens, left, j).at);
    } else {
      StartsNothing([open] + YieldLiterals(members) + [CLOSING], tokens, j + 1);
    }
  }

  lemma ListStops(tokens: seq<Token>, left: Expr, j: nat) returns (members: Literals)
    requires Ended(tokens) && j < |tokens| && tokens[j].kind.InKind? && InAt(tokens, left, j).Fail?
    requires tokens[j + 1].kind.LeftParen?
    ensures InAt(tokens, left, j).code.UnexpectedToken?
    ensures AllLiterals(members) && Starts(YieldLiterals(members), tokens, j + 2, InAt(tokens, left, j).at)
  {
    if tokens[j + 2].kind.RightParen? {
      members := OneLiteral(OPERAND);
      StartsNothing(YieldLiterals(members), tokens, j + 2);
    } else if MembersAt(tokens, j + 2, []).Fail? {
      members := MembersStops(tokens, j + 2, []);
    } else {
      members := MembersSound(tokens, j + 2, []);
      SitsLiteralsIsSlice(members, tokens, j + 2);
      assert YieldLiterals(members)[..WidthLiterals(members)] == YieldLiterals(members);
    }
  }

  lemma {:induction false} ComparisonStops(tokens: seq<Token>, i: nat, depth: int, past: bool) returns (t: Tree)
    requires Ended(tokens) && i < |tokens| && depth <= MAX_NESTING_DEPTH && Stopped(ComparisonAt(tokens, i, depth), past)
    ensures Opens(t, 2, tokens, i, End(ComparisonAt(tokens, i, depth), past)) && Fits(t, depth, past)
    decreases |tokens| - i, 2
  {
    if NotAt(tokens, i, depth).Fail? {
      t := NotStops(tokens, i, depth, past);
    } else {
      var left := NotSound(tokens, i, depth);
      t := RestStops(left, tokens, i, depth, past);
    }
  }

  lemma RestFails(tokens: seq<Token>, left: Expr, j: nat, depth: int)
    requires Ended(tokens) && j < |tokens| && ComparisonRest(tokens, left, j, depth).Fail?
    ensures ComparisonOp(tokens[j].kind).Some? || tokens[j].kind.InKind?
    ensures ComparisonOp(tokens[j].kind).Some? ==>
      && j + 1 < |tokens| && NotAt(tokens, j + 1, depth).Fail?
      && ComparisonRest(tokens, left, j, depth) == Fail(NotAt(tokens, j + 1, depth).code, NotAt(tokens, j + 1, depth).at)
    ensures ComparisonOp(tokens[j].kind).None? ==> ComparisonRest(tokens, left, j, depth) == InAt(tokens, left, j)
  {}

  lemma {:induction false} RestStops(left: Tree, tokens: seq<Token>, i: nat, depth: int, past: bool) returns (t: Tree)
    requires Ended(tokens) && i < |tokens| && depth <= MAX_NESTING_DEPTH && i + Width(left) < |tokens|
    requires Derived(left, tokens, i, depth) && Level(left) <= 1
    requires Stopped(ComparisonRest(tokens, Denotes(left), i + Width(left), depth), past)
    ensures Opens(t, 2, tokens, i, End(ComparisonRest(tokens, Denotes(left), i + Width(left), depth), past))
    ensures Fits(t, depth, past)
    decreases |tokens| - i - 1, 2
  {
    var j := i + Width(left);
    RestFails(tokens, Denotes(left), j, depth);
    if ComparisonOp(tokens[j].kind).Some? {
      t := RelationStops(left, tokens, i, depth, past);
    } else {
      t := WithinStops(left, tokens, i, depth);
    }
  }

  lemma {:induction false} RelationStops(left: Tree, tokens: seq<Token>, i: nat, depth: int, past: bool) returns (t: Tree)
    requires Ended(tokens) && i + Width(left) + 1 < |tokens| && depth <= MAX_NESTING_DEPTH
    requires Derived(left, tokens, i, depth) && Level(left) <= 1 && ComparisonOp(tokens[i + Width(left)].kind).Some?
    requires Stopped(NotAt(tokens, i + Width(left) + 1, depth), past)
    ensures Opens(t, 2, tokens, i, End(NotAt(tokens, i + Width(left) + 1, depth), past)) && Fits(t, depth, past)
    decreases |tokens| - i - 1, 1
  {
    var kind := tokens[i + Width(left)].kind;
    var right := NotStops(tokens, i + Width(left) + 1, depth, past);
    ComparisonOperator(kind);
    t := OperandOpens(ComparisonOp(kind).value, left, right, tokens, i,
                      End(NotAt(tokens, i + Width(left) + 1, depth), past), depth, past);
  }

  lemma ComparisonOperator(kind: Kind)
    requires ComparisonOp(kind).Some?
    ensures
      var op := ComparisonOp(kind).value;
      IsOperator(kind, op) && OpLevel(op) == 2 && LeftLevel(op) == 1
  {}

  lemma WithinStops(left: Tree, tokens: seq<Token>, i: nat, depth: int) returns (t: Tree)
    requires Ended(tokens) && i + Width(left) < |tokens| && tokens[i + Width(left)].kind.InKind?
    requires Derived(left, tokens, i, depth) && Level(left) <= 1
    requires InAt(tokens, Denotes(left), i + Width(left)).Fail?
    ensures InAt(tokens, Denotes(left), i + Width(left)).code.UnexpectedToken?
    ensures Opens(t, 2, tokens, i, InAt(tokens, Denotes(left), i + Width(left)).at) && Fits(t, depth, false)
  {
    var open, members := InStops(tokens, Denotes(left), i + Width(left));
    t := WithinOpens(left, open, members, tokens, i, InAt(tokens, Denotes(left), i + Width(left)).at, depth);
  }

  lemma AndFails(tokens: seq<Token>, left: Expr, i: nat, depth: int)
    requires Ended(tokens) && i < |tokens| && AndLoop(tokens, left, i, depth).Fail?
    ensures i + 1 < |tokens| && tokens[i].kind.AndKind?
    ensures
      var operand := ComparisonAt(tokens, i + 1, depth);
      operand.Fail? ==> AndLoop(tokens, left, i, depth) == Fail(operand.code, operand.at)
  {}

  lemma {:induction false} AndLoopStops(tokens: seq<Token>, left: Tree, start: nat, i: nat, depth: int, past: bool)
    returns (t: Tree)
    requires Ended(tokens) && i < |tokens| && depth <= MAX_NESTING_DEPTH
    requires Stopped(AndLoop(tokens, Denotes(left), i, depth), past)
    requires Covers(left, 3, tokens, start, depth, Ok(Denotes(left), i))
    ensures Opens(t, 3, tokens, start, End(AndLoop(tokens, Denotes(left), i, depth), past)) && Fits(t, depth, past)
    decreases |tokens| - i, 3
  {
    AndFails(tokens, Denotes(left), i, depth);
    if ComparisonAt(tokens, i + 1, depth).Fail? {
      var right := ComparisonStops(tokens, i + 1, depth, past);
      t := OperandOpens(And, left, right, tokens, start, End(ComparisonAt(tokens, i + 1, depth), past), depth, past);
    } else {
      var joined, next := AndJoined(tokens, left, start, i, depth);
      t := AndLoopStops(tokens, joined, start, next, depth, past);
    }
  }

  lemma AndJoined(tokens: seq<Token>, left: Tree, start: nat, i: nat, depth: int) returns (joined: Tree, next: nat)
    requires Ended(tokens) && i + 1 < |tokens| && depth <= MAX_NESTING_DEPTH && tokens[i].kind.AndKind?
    requires ComparisonAt(tokens, i + 1, depth).Ok?
    requires Covers(left, 3, tokens, start, depth, Ok(Denotes(left), i))
    ensures i < next < |tokens| && Covers(joined, 3, tokens, start, depth, Ok(Denotes(joined), next))
    ensures AndLoop(tokens, Denotes(left), i, depth) == AndLoop(tokens, Denotes(joined), next, depth)
  {
    var right := ComparisonSound(tokens, i + 1, depth);
    next := i + 1 + Width(right);
    AndStep(tokens, Denotes(left), i, depth, Denotes(right), next);
    joined := InfixCovers(And, left, 3, right, tokens, start, depth);
  }

  lemma {:induction false} AndStops(tokens: seq<Token>, i: nat, depth: int, past: bool) returns (t: Tree)
    requires Ended(tokens) && i < |tokens| && depth <= MAX_NESTING_DEPTH && Stopped(AndAt(tokens, i, depth), past)
    ensures Opens(t, 3, tokens, i, End(AndAt(tokens, i, depth), past)) && Fits(t, depth, past)
    decreases |tokens| - i, 4
  {
    if ComparisonAt(tokens, i, depth).Fail? {
      t := ComparisonStops(tokens, i, depth, past);
    } else {
      var left := ComparisonSound(tokens, i, depth);
      AndStart(tokens, i, depth, Denotes(left), i + Width(left));
      t := AndLoopStops(tokens, left, i, i + Width(left), depth, past);
    }
  }

  lemma OrFails(tokens: seq<Token>, left: Expr, i: nat, depth: int)
    requires Ended(tokens) && i < |tokens| && OrLoop(tokens, left, i, depth).Fail?
    ensures i + 1 < |tokens| && tokens[i].kind.OrKind?
    ensures
      var operand := AndAt(tokens, i + 1, depth);
      operand.Fail? ==> OrLoop(tokens, left, i, depth) == Fail(operand.code, operand.at)
  {}

  lemma {:induction false} OrLoopStops(tokens: seq<Token>, left: Tree, start: nat, i: nat, depth: int, past: bool)
    returns (t: Tree)
    requires Ended(tokens) && i < |tokens| && depth <= MAX_NESTING_DEPTH
    requires Stopped(OrLoop(tokens, Denotes(left), i, depth), past)
    requires Covers(left, 4, tokens, start, depth, Ok(Denotes(left), i))
    ensures Opens(t, 4, tokens, start, End(OrLoop(tokens, Denotes(left), i, depth), past)) && Fits(t, depth, past)
    decreases |tokens| - i, 4
  {
    OrFails(tokens, Denotes(left), i, depth);
    if AndAt(tokens, i + 1, depth).Fail? {
      var right := AndStops(tokens, i + 1, depth, past);
      t := OperandOpens(Or, left, right, tokens, start, End(AndAt(tokens, i + 1, depth), past), depth, past);
    } else {
      var joined, next := OrJoined(tokens, left, start, i, depth);
      t := OrLoopStops(tokens, joined, start, next, depth, past);
    }
  }

  lemma OrJoined(tokens: seq<Token>, left: Tree, start: nat, i: nat, depth: int) returns (joined: Tree, next: nat)
    requires Ended(tokens) && i + 1 < |tokens| && depth <= MAX_NESTING_DEPTH && tokens[i].kind.OrKind?
    requires AndAt(tokens, i + 1, depth).Ok?
    requires Covers(left, 4, tokens, start, depth, Ok(Denotes(left), i))
    ensures i < next < |tokens| && Covers(joined, 4, tokens, start, depth, Ok(Denotes(joined), next))
    ensures OrLoop(tokens, Denotes(left), i, depth) == OrLoop(tokens, Denotes(joined), next, depth)
  {
    var right := AndSound(tokens, i + 1, depth);
    next := i + 1 + Width(right);
    OrStep(tokens, Denotes(left), i, depth, Denotes(right), next);
    joined := InfixCovers(Or, left, 4, right, tokens, start, depth);
  }

  /** The tokens before the one a phrase fails at begin a derivation within the limit; with that one, one beyond it. */
  lemma {:induction false} OrStops(tokens: seq<Token>, i: nat, depth: int, past: bool) returns (t: Tree)
    requires Ended(tokens) && i < |tokens| && depth <= MAX_NESTING_DEPTH && Stopped(OrAt(tokens, i, depth), past)
    ensures Opens(t, 4, tokens, i, End(OrAt(tokens, i, depth), past)) && Fits(t, depth, past)
    decreases |tokens| - i, 5
  {
    if AndAt(tokens, i, depth).Fail? {
      t := AndStops(tokens, i, depth, past);
    } else {
      var left := AndSound(tokens, i, depth);
      OrStart(tokens, i, depth, Denotes(left), i + Width(left));
      t := OrLoopStops(tokens, left, i, i + Width(left), depth, past);
    }
  }
}
