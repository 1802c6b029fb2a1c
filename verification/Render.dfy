/** Writing a tree as source text, and reading it back. */
module Render {
  import opened Basics
  import opened Text
  import opened Syntax
  import opened Lexer
  import opened LexerLaws
  import opened Parser
  import opened Grammar
  import opened Positions
  import opened ParserLaws
  import opened Spelling
  import opened Layout

  // ------------------------------------------------------- trees up to spans

  function Erase(e: Expr): Expr
    decreases e, 1
  {
    match e
    case Literal(value, _) => Literal(value, NOWHERE)
    case Field(name, _) => Field(name, NOWHERE)
    case Not(operand, _) => Expr.Not(Erase(operand), NOWHERE)
    case Binary(op, left, right, _) => Binary(op, Erase(left), Erase(right), NOWHERE)
    case Membership(candidate, members, _) => Membership(Erase(candidate), EraseMembers(members), NOWHERE)
    case Call(builtin, args, _) => Call(builtin, EraseAll(args), NOWHERE)
  }

  function EraseAll(es: seq<Expr>): seq<Expr>
    decreases es, 0
  {
    if es == [] then [] else [Erase(es[0])] + EraseAll(es[1..])
  }

  function EraseMembers(members: seq<LiteralNode>): seq<LiteralNode> {
    if members == [] then []
    else [LiteralNode(members[0].value, NOWHERE)] + EraseMembers(members[1..])
  }

  // --------------------------------------------------------------- rendering
  function Symbol(kind: Kind): Token { Token(kind, Null, NOWHERE) }

  function LiteralToken(value: Value): Token {
    match value
    case Number(_) => Token(NumberKind, value, NOWHERE)
    case Str(_) => Token(StringKind, value, NOWHERE)
    case Boolean(b) => Token(if b then TrueKind else FalseKind, value, NOWHERE)
    case Null => Token(NullKind, Null, NOWHERE)
  }

  /** Names go into brackets, except for identifiers that are too long for them. */
  function FieldToken(name: Utf16): Token {
    Token(if |name| <= MAX_FIELD_NAME_LENGTH then FieldKind else IdentifierKind, Str(name), NOWHERE)
  }

  function OpKind(op: BinaryOp): Kind {
    match op
    case And => AndKind
    case Or => OrKind
    case Equal => EqualKind
    case NotEqual => NotEqualKind
    case Less => LessKind
    case LessEqual => LessEqualKind
    case Greater => GreaterKind
    case GreaterEqual => GreaterEqualKind
  }

  /** The precedence level at which an expression is written without parentheses. */
  function ExprLevel(e: Expr): nat {
    match e
    case Not(_, _) => 1
    case Binary(op, _, _, _) => OpLevel(op)
    case Membership(_, _, _) => 2
    case _ => 0
  }

  /** Writes `e` where the grammar wants `level`, with parentheses only when precedence needs them. */
  function Write(e: Expr, level: nat): Tree
    requires Writable(e)
    decreases e, 2
  {
    if ExprLevel(e) <= level then Bare(e) else Group(Symbol(LeftParen), Bare(e), Symbol(RightParen))
  }

  function Bare(e: Expr): Tree
    requires Writable(e)
    decreases e, 1
  {
    match e
    case Literal(value, _) => Atom(LiteralToken(value))
    case Field(name, _) => Atom(FieldToken(name))
    case Not(operand, _) => Negation(Symbol(NotKind), Write(operand, 1))
    case Binary(op, left, right, _) =>
      Infix(op, Write(left, LeftLevel(op)), Symbol(OpKind(op)), Write(right, OpLevel(op) - 1))
    case Membership(candidate, members, _) =>
      Within(Write(candidate, 1), Token(InKind, Str(IN_WORD), NOWHERE),
             Symbol(LeftParen), WriteMembers(members), Symbol(RightParen))
    case Call(builtin, args, _) =>
      var name := Token(IdentifierKind, Str(BuiltinName(builtin)), NOWHERE);
      if args == [] then Apply0(builtin, name, Symbol(LeftParen), Symbol(RightParen))
      else Apply(builtin, name, Symbol(LeftParen), WriteAll(args), Symbol(RightParen))
  }

  function WriteAll(es: seq<Expr>): Trees
    requires es != [] && WritableAll(es)
    decreases es, 0
  {
    if |es| == 1 then One(Write(es[0], 4)) else More(Write(es[0], 4), Symbol(Comma), WriteAll(es[1..]))
  }

  function WriteMembers(members: seq<LiteralNode>): Literals
    requires members != []
  {
    if |members| == 1 then OneLiteral(LiteralToken(members[0].value))
    else MoreLiterals(LiteralToken(members[0].value), Symbol(Comma), WriteMembers(members[1..]))
  }

  /** IN lists have at least one member; nothing else restricts the shape of a tree. */
  predicate Writable(e: Expr)
    decreases e, 1
  {
    match e
    case Literal(_, _) => true
    case Field(_, _) => true
    case Not(operand, _) => Writable(operand)
    case Binary(_, left, right, _) => Writable(left) && Writable(right)
    case Membership(candidate, members, _) => Writable(candidate) && members != []
    case Call(_, args, _) => WritableAll(args)
  }

  predicate WritableAll(es: seq<Expr>)
    decreases es, 0
  {
    es == [] || (Writable(es[0]) && WritableAll(es[1..]))
  }

  // ----------------------------------------- the rendering derives the same tree

  lemma {:induction false} FindsName(b: Builtin, at: nat, k: nat)
    requires k <= at < 12 && BuiltinAt(at) == b
    ensures FindBuiltin(BuiltinName(b), k) == Some(b)
    decreases at - k
  {
    if k < at {
      if BuiltinName(BuiltinAt(k)) == BuiltinName(b) { BuiltinNamesDiffer(BuiltinAt(k), b); }
      FindsName(b, at, k + 1);
    }
  }

  function TableIndex(b: Builtin): (k: nat)
    ensures k < 12 && BuiltinAt(k) == b
  {
    match b
    case IsEmpty => 0
    case IsBlank => 1
    case Contains => 2
    case StartsWithFn => 3
    case EndsWithFn => 4
    case EqualsIgnoreCase => 5
    case TrimFn => 6
    case Lower => 7
    case Upper => 8
    case Length => 9
    case TryNumber => 10
    case TextFn => 11
  }

  lemma NameResolves(b: Builtin)
    ensures GetBuiltin(BuiltinName(b)) == Some(b)
  {
    var name := BuiltinName(b);
    assert forall k | 0 <= k < |name| :: !(65 <= name[k] <= 90);
    assert AsciiLower(name) == name;
    FindsName(b, TableIndex(b), 0);
  }

  /** `t` is a derivation that fits `level` and denotes `e` up to spans. */
  ghost predicate Renders(t: Tree, level: nat, e: Expr) {
    Derives(t) && Level(t) <= level && Erase(Denotes(t)) == Erase(e)
  }

  lemma {:induction false} WriteRenders(e: Expr, level: nat)
    requires Writable(e)
    ensures Renders(Write(e, level), level, e)
    decreases e, 2
  {
    BareRenders(e);
  }

  lemma {:induction false} BareRenders(e: Expr)
    requires Writable(e)
    ensures Renders(Bare(e), ExprLevel(e), e)
    decreases e, 1
  {
    match e
    case Not(operand, _) => WriteRenders(operand, 1);
    case Binary(op, left, right, _) =>
      WriteRenders(left, LeftLevel(op));
      WriteRenders(right, OpLevel(op) - 1);
    case Membership(candidate, members, _) =>
      WriteRenders(candidate, 1);
      MembersRender(members);
    case Call(builtin, args, _) =>
      NameResolves(builtin);
      if args != [] {
        AllRender(args);
      }
    case _ =>
  }

  lemma {:induction false} AllRender(es: seq<Expr>)
    requires es != [] && WritableAll(es)
    ensures DerivesAll(WriteAll(es)) && EraseAll(DenotesAll(WriteAll(es))) == EraseAll(es)
    decreases es, 0
  {
    WriteRenders(es[0], 4);
    var ds := DenotesAll(WriteAll(es));
    if |es| > 1 {
      AllRender(es[1..]);
      assert ds[1..] == DenotesAll(WriteAll(es[1..]));
    } else {
      assert ds[1..] == [] == es[1..];
    }
  }

  lemma {:induction false} MembersRender(members: seq<LiteralNode>)
    requires members != []
    ensures AllLiterals(WriteMembers(members))
    ensures EraseMembers(DenotesLiterals(WriteMembers(members))) == EraseMembers(members)
  {
    var ds := DenotesLiterals(WriteMembers(members));
    if |members| > 1 {
      MembersRender(members[1..]);
      assert ds[1..] == DenotesLiterals(WriteMembers(members[1..]));
    } else {
      assert ds[1..] == [] == members[1..];
    }
  }

  // ------------------------------------------ every token of it can be read back

  /** Literals and names the lexer accepts, numbers being ones the host can print and read back. */
  ghost predicate Readable(host: Host, e: Expr)
    decreases e, 1
  {
    match e
    case Literal(value, _) => Spellable(host, LiteralToken(value))
    case Field(name, _) => if |name| <= MAX_FIELD_NAME_LENGTH then name != [] else IsIdentifier(name)
    case Not(operand, _) => Readable(host, operand)
    case Binary(_, left, right, _) => Readable(host, left) && Readable(host, right)
    case Membership(candidate, members, _) =>
      && Readable(host, candidate)
      && forall k | 0 <= k < |members| :: Spellable(host, LiteralToken(members[k].value))
    case Call(_, args, _) => ReadableAll(host, args)
  }

  ghost predicate ReadableAll(host: Host, es: seq<Expr>)
    decreases es, 0
  {
    es == [] || (Readable(host, es[0]) && ReadableAll(host, es[1..]))
  }

  ghost predicate AllSpellable(host: Host, tokens: seq<Token>) {
    forall k | 0 <= k < |tokens| :: Spellable(host, tokens[k])
  }

  lemma SpellableConcat(host: Host, a: seq<Token>, b: seq<Token>)
    requires AllSpellable(host, a) && AllSpellable(host, b)
    ensures AllSpellable(host, a + b)
  {}

  lemma SpellableAround(host: Host, a: seq<Token>, m: Token, b: seq<Token>)
    requires AllSpellable(host, a) && Spellable(host, m) && AllSpellable(host, b)
    ensures AllSpellable(host, a + [m] + b)
  {}

  lemma {:induction false} WriteSpellable(host: Host, e: Expr, level: nat)
    requires Writable(e) && Readable(host, e)
    ensures AllSpellable(host, Yield(Write(e, level)))
    decreases e, 2
  {
    BareSpellable(host, e);
    if ExprLevel(e) > level {
      var open, close := Symbol(LeftParen), Symbol(RightParen);
      SpellableConcat(host, [open], Yield(Bare(e)));
      SpellableConcat(host, [open] + Yield(Bare(e)), [close]);
    }
  }

  lemma {:induction false} BareSpellable(host: Host, e: Expr)
    requires Writable(e) && Readable(host, e)
    ensures AllSpellable(host, Yield(Bare(e)))
    decreases e, 1
  {
    match e
    case Literal(_, _) =>
    case Field(_, _) =>
    case Not(operand, _) =>
      WriteSpellable(host, operand, 1);
      SpellableConcat(host, [Symbol(NotKind)], Yield(Write(operand, 1)));
    case Binary(op, left, right, _) =>
      WriteSpellable(host, left, LeftLevel(op));
      WriteSpellable(host, right, OpLevel(op) - 1);
      SpellableAround(host, Yield(Write(left, LeftLevel(op))), Symbol(OpKind(op)), Yield(Write(right, OpLevel(op) - 1)));
    case Membership(candidate, members, _) =>
      WriteSpellable(host, candidate, 1);
      MembersSpellable(host, members);
      InSpellable(host, Yield(Write(candidate, 1)), YieldLiterals(WriteMembers(members)));
    case Call(builtin, args, _) =>
      CallSpellable(host, builtin, []);
      if args != [] {
        AllWriteSpellable(host, args);
        CallSpellable(host, builtin, YieldAll(WriteAll(args)));
      } else {
        assert CallTokens(builtin, []) == Yield(Bare(e));
      }
  }

  lemma InSpellable(host: Host, candidate: seq<Token>, members: seq<Token>)
    requires AllSpellable(host, candidate) && AllSpellable(host, members)
    ensures
      var kw, open, close := Token(InKind, Str(IN_WORD), NOWHERE), Symbol(LeftParen), Symbol(RightParen);
      AllSpellable(host, candidate + [kw, open] + members + [close])
  {
    var kw, open, close := Token(InKind, Str(IN_WORD), NOWHERE), Symbol(LeftParen), Symbol(RightParen);
    SpellableConcat(host, candidate, [kw, open]);
    SpellableConcat(host, candidate + [kw, open], members);
    SpellableConcat(host, candidate + [kw, open] + members, [close]);
  }

  /** The tokens of a call around those of its arguments. */
  function CallTokens(builtin: Builtin, args: seq<Token>): seq<Token> {
    [Token(IdentifierKind, Str(BuiltinName(builtin)), NOWHERE), Symbol(LeftParen)] + args + [Symbol(RightParen)]
  }

  lemma CallSpellable(host: Host, builtin: Builtin, args: seq<Token>)
    requires AllSpellable(host, args)
    ensures AllSpellable(host, CallTokens(builtin, args))
  {
    var name, open := Token(IdentifierKind, Str(BuiltinName(builtin)), NOWHERE), Symbol(LeftParen);
    BuiltinIsIdentifier(builtin);
    assert Spellable(host, name) && Spellable(host, open);
    SpellableConcat(host, [name, open], args);
    SpellableConcat(host, [name, open] + args, [Symbol(RightParen)]);
  }

  lemma {:induction false} AllWriteSpellable(host: Host, es: seq<Expr>)
    requires es != [] && WritableAll(es) && ReadableAll(host, es)
    ensures AllSpellable(host, YieldAll(WriteAll(es)))
    decreases es, 0
  {
    WriteSpellable(host, es[0], 4);
    if |es| > 1 {
      AllWriteSpellable(host, es[1..]);
      SpellableAround(host, Yield(Write(es[0], 4)), Symbol(Comma), YieldAll(WriteAll(es[1..])));
    }
  }

  lemma {:induction false} MembersSpellable(host: Host, members: seq<LiteralNode>)
    requires members != []
    requires forall k | 0 <= k < |members| :: Spellable(host, LiteralToken(members[k].value))
    ensures AllSpellable(host, YieldLiterals(WriteMembers(members)))
  {
    if |members| > 1 {
      MembersSpellable(host, members[1..]);
      SpellableConcat(host, [LiteralToken(members[0].value), Symbol(Comma)], YieldLiterals(WriteMembers(members[1..])));
    }
  }

  // ------------------------------------- the same derivation over placed tokens

  /** The same token at another place. */
  predicate Twin(a: Token, b: Token) { a.kind == b.kind && a.value == b.value }

  ghost predicate Twins(a: seq<Token>, b: seq<Token>) {
    |a| <= |b| && forall k | 0 <= k < |a| :: Twin(a[k], b[k])
  }

  /** The derivation with its tokens taken from `tokens`, where it stands at `i`. */
  function Retoken(t: Tree, tokens: seq<Token>, i: nat): Tree
    requires i + Width(t) <= |tokens|
  {
    match t
    case Atom(_) => Atom(tokens[i])
    case Apply0(builtin, _, _, _) => Apply0(builtin, tokens[i], tokens[i + 1], tokens[i + 2])
    case Apply(builtin, _, _, args, _) =>
      Apply(builtin, tokens[i], tokens[i + 1], RetokenAll(args, tokens, i + 2), tokens[i + 2 + WidthAll(args)])
    case Group(_, inner, _) => Group(tokens[i], Retoken(inner, tokens, i + 1), tokens[i + 1 + Width(inner)])
    case Negation(_, operand) => Negation(tokens[i], Retoken(operand, tokens, i + 1))
    case Infix(op, left, _, right) =>
      var j := i + Width(left);
      Infix(op, Retoken(left, tokens, i), tokens[j], Retoken(right, tokens, j + 1))
    case Within(candidate, _, _, members, _) =>
      var j := i + Width(candidate);
      Within(Retoken(candidate, tokens, i), tokens[j], tokens[j + 1],
             RetokenLiterals(members, tokens, j + 2), tokens[j + 2 + WidthLiterals(members)])
  }

  function RetokenAll(ts: Trees, tokens: seq<Token>, i: nat): Trees
    requires i + WidthAll(ts) <= |tokens|
  {
    match ts
    case One(t) => One(Retoken(t, tokens, i))
    case More(t, _, rest) =>
      var j := i + Width(t);
      More(Retoken(t, tokens, i), tokens[j], RetokenAll(rest, tokens, j + 1))
  }

  function RetokenLiterals(ls: Literals, tokens: seq<Token>, i: nat): Literals
    requires i + WidthLiterals(ls) <= |tokens|
  {
    match ls
    case OneLiteral(_) => OneLiteral(tokens[i])
    case MoreLiterals(_, _, rest) => MoreLiterals(tokens[i], tokens[i + 1], RetokenLiterals(rest, tokens, i + 2))
  }

  /** What retokening keeps. */
  ghost predicate Same(t: Tree, u: Tree, tokens: seq<Token>, i: nat) {
    && Derives(u) && Level(u) == Level(t) && Nesting(u) == Nesting(t) && Width(u) == Width(t)
    && Sits(u, tokens, i) && Erase(Denotes(u)) == Erase(Denotes(t))
  }

  lemma {:induction false} RetokenSame(t: Tree, from: seq<Token>, tokens: seq<Token>, i: nat)
    requires Derives(t) && Sits(t, from, i) && i + Width(t) <= |from| && Twins(from, tokens)
    ensures Same(t, Retoken(t, tokens, i), tokens, i)
    decreases t, 1
  {
    match t
    case Atom(_) => assert Twin(from[i], tokens[i]);
    case Apply0(_, _, _, _) =>
      assert Twin(from[i], tokens[i]) && Twin(from[i + 1], tokens[i + 1]) && Twin(from[i + 2], tokens[i + 2]);
    case Apply(_, _, _, _, _) => RetokenApply(t, from, tokens, i);
    case Group(_, _, _) => RetokenGroup(t, from, tokens, i);
    case Negation(_, operand) =>
      assert Twin(from[i], tokens[i]);
      RetokenSame(operand, from, tokens, i + 1);
    case Infix(_, _, _, _) => RetokenInfix(t, from, tokens, i);
    case Within(_, _, _, _, _) => RetokenWithin(t, from, tokens, i);
  }

  lemma {:induction false} RetokenApply(t: Tree, from: seq<Token>, tokens: seq<Token>, i: nat)
    requires t.Apply? && Derives(t) && Sits(t, from, i) && Twins(from, tokens)
    ensures Same(t, Retoken(t, tokens, i), tokens, i)
    decreases t, 0
  {
    var j := i + 2 + WidthAll(t.args);
    assert Twin(from[i], tokens[i]) && Twin(from[i + 1], tokens[i + 1]) && Twin(from[j], tokens[j]);
    RetokenAllSame(t.args, from, tokens, i + 2);
    SameApply(t, Retoken(t, tokens, i), tokens, i);
  }

  lemma {:induction false} RetokenGroup(t: Tree, from: seq<Token>, tokens: seq<Token>, i: nat)
    requires t.Group? && Derives(t) && Sits(t, from, i) && Twins(from, tokens)
    ensures Same(t, Retoken(t, tokens, i), tokens, i)
    decreases t, 0
  {
    var j := i + 1 + Width(t.inner);
    assert Twin(from[i], tokens[i]) && Twin(from[j], tokens[j]);
    RetokenSame(t.inner, from, tokens, i + 1);
    SameGroup(t, Retoken(t, tokens, i), tokens, i);
  }

  lemma {:induction false} RetokenInfix(t: Tree, from: seq<Token>, tokens: seq<Token>, i: nat)
    requires t.Infix? && Derives(t) && Sits(t, from, i) && i + Width(t) <= |from| && Twins(from, tokens)
    ensures Same(t, Retoken(t, tokens, i), tokens, i)
    decreases t, 0
  {
    var left, right, j := t.left, t.right, i + Width(t.left);
    assert Twin(from[j], tokens[j]);
    assert Derives(left) && Derives(right) && Sits(left, from, i) && Sits(right, from, j + 1);
    assert j + 1 + Width(right) <= |from|;
    RetokenSame(left, from, tokens, i);
    RetokenSame(right, from, tokens, j + 1);
    SameInfix(t, Retoken(t, tokens, i), tokens, i);
  }

  lemma {:induction false} RetokenWithin(t: Tree, from: seq<Token>, tokens: seq<Token>, i: nat)
    requires t.Within? && Derives(t) && Sits(t, from, i) && Twins(from, tokens)
    ensures Same(t, Retoken(t, tokens, i), tokens, i)
    decreases t, 0
  {
    var j := i + Width(t.candidate);
    var k := j + 2 + WidthLiterals(t.members);
    assert Twin(from[j], tokens[j]) && Twin(from[j + 1], tokens[j + 1]) && Twin(from[k], tokens[k]);
    RetokenSame(t.candidate, from, tokens, i);
    RetokenLiteralsSame(t.members, from, tokens, j + 2);
    SameWithin(t, Retoken(t, tokens, i), tokens, i);
  }

  lemma SameApply(t: Tree, u: Tree, tokens: seq<Token>, i: nat)
    requires t.Apply? && u.Apply? && Derives(t) && t.builtin == u.builtin
    requires SameAll(t.args, u.args, tokens, i + 2)
    requires Twin(t.name, u.name) && Twin(t.open, u.open) && Twin(t.close, u.close)
    requires Has(tokens, i, u.name) && Has(tokens, i + 1, u.open) && Has(tokens, i + 2 + WidthAll(t.args), u.close)
    ensures Same(t, u, tokens, i)
  {}

  lemma SameGroup(t: Tree, u: Tree, tokens: seq<Token>, i: nat)
    requires t.Group? && u.Group? && Derives(t) && Same(t.inner, u.inner, tokens, i + 1)
    requires Twin(t.open, u.open) && Twin(t.close, u.close)
    requires Has(tokens, i, u.open) && Has(tokens, i + 1 + Width(t.inner), u.close)
    ensures Same(t, u, tokens, i)
  {}

  lemma InfixShape(t: Tree, u: Tree)
    requires t.Infix? && u.Infix? && Derives(t) && t.op == u.op && Twin(t.token, u.token)
    requires Derives(u.left) && Level(u.left) == Level(t.left) && Derives(u.right) && Level(u.right) == Level(t.right)
    ensures Derives(u) && Level(u) == Level(t)
  {}

  lemma InfixMeasures(t: Tree, u: Tree)
    requires t.Infix? && u.Infix? && t.op == u.op
    requires Nesting(u.left) == Nesting(t.left) && Width(u.left) == Width(t.left)
    requires Nesting(u.right) == Nesting(t.right) && Width(u.right) == Width(t.right)
    requires Erase(Denotes(u.left)) == Erase(Denotes(t.left)) && Erase(Denotes(u.right)) == Erase(Denotes(t.right))
    ensures Nesting(u) == Nesting(t) && Width(u) == Width(t) && Erase(Denotes(u)) == Erase(Denotes(t))
  {}

  lemma SameInfix(t: Tree, u: Tree, tokens: seq<Token>, i: nat)
    requires t.Infix? && u.Infix? && Derives(t) && t.op == u.op && Twin(t.token, u.token)
    requires Same(t.left, u.left, tokens, i) && Same(t.right, u.right, tokens, i + Width(t.left) + 1)
    requires Has(tokens, i + Width(t.left), u.token)
    ensures Same(t, u, tokens, i)
  {
    InfixShape(t, u);
    InfixMeasures(t, u);
  }

  lemma SameWithin(t: Tree, u: Tree, tokens: seq<Token>, i: nat)
    requires t.Within? && u.Within? && Derives(t)
    requires Same(t.candidate, u.candidate, tokens, i)
    requires SameLiterals(t.members, u.members, tokens, i + Width(t.candidate) + 2)
    requires Twin(t.kw, u.kw) && Twin(t.open, u.open) && Twin(t.close, u.close)
    requires var j := i + Width(t.candidate);
      && Has(tokens, j, u.kw) && Has(tokens, j + 1, u.open)
      && Has(tokens, j + 2 + WidthLiterals(t.members), u.close)
    ensures Same(t, u, tokens, i)
  {}

  ghost predicate SameAll(ts: Trees, us: Trees, tokens: seq<Token>, i: nat) {
    && DerivesAll(us) && NestingAll(us) == NestingAll(ts) && WidthAll(us) == WidthAll(ts)
    && SitsAll(us, tokens, i) && EraseAll(DenotesAll(us)) == EraseAll(DenotesAll(ts))
  }

  lemma SameOne(t: Tree, u: Tree, tokens: seq<Token>, i: nat)
    requires Same(t, u, tokens, i)
    ensures SameAll(One(t), One(u), tokens, i)
  {
    assert DenotesAll(One(t))[1..] == [] == DenotesAll(One(u))[1..];
  }

  lemma MoreErases(t: Tree, comma: Token, rest: Trees)
    ensures EraseAll(DenotesAll(More(t, comma, rest))) == [Erase(Denotes(t))] + EraseAll(DenotesAll(rest))
  {
    assert DenotesAll(More(t, comma, rest))[1..] == DenotesAll(rest);
  }

  lemma SameMore(ts: Trees, us: Trees, tokens: seq<Token>, i: nat)
    requires ts.More? && us.More? && Same(ts.first, us.first, tokens, i) && us.comma.kind.Comma?
    requires Has(tokens, i + Width(ts.first), us.comma) && SameAll(ts.rest, us.rest, tokens, i + Width(ts.first) + 1)
    ensures SameAll(ts, us, tokens, i)
  {
    MoreErases(ts.first, ts.comma, ts.rest);
    MoreErases(us.first, us.comma, us.rest);
  }

  lemma {:induction false} RetokenAllSame(ts: Trees, from: seq<Token>, tokens: seq<Token>, i: nat)
    requires DerivesAll(ts) && SitsAll(ts, from, i) && i + WidthAll(ts) <= |from| && Twins(from, tokens)
    ensures SameAll(ts, RetokenAll(ts, tokens, i), tokens, i)
  {
    match ts
    case One(t) =>
      RetokenSame(t, from, tokens, i);
      SameOne(t, Retoken(t, tokens, i), tokens, i);
    case More(t, _, rest) =>
      var j := i + Width(t);
      assert Twin(from[j], tokens[j]);
      RetokenSame(t, from, tokens, i);
      RetokenAllSame(rest, from, tokens, j + 1);
      SameMore(ts, RetokenAll(ts, tokens, i), tokens, i);
  }

  ghost predicate SameLiterals(ls: Literals, ms: Literals, tokens: seq<Token>, i: nat) {
    && AllLiterals(ms) && WidthLiterals(ms) == WidthLiterals(ls) && SitsLiterals(ms, tokens, i)
    && EraseMembers(DenotesLiterals(ms)) == EraseMembers(DenotesLiterals(ls))
  }

  lemma {:induction false} RetokenLiteralsSame(ls: Literals, from: seq<Token>, tokens: seq<Token>, i: nat)
    requires AllLiterals(ls) && SitsLiterals(ls, from, i) && i + WidthLiterals(ls) <= |from| && Twins(from, tokens)
    ensures SameLiterals(ls, RetokenLiterals(ls, tokens, i), tokens, i)
  {
    var ms := RetokenLiterals(ls, tokens, i);
    assert Twin(from[i], tokens[i]);
    match ls
    case OneLiteral(_) =>
      assert DenotesLiterals(ls)[1..] == [] == DenotesLiterals(ms)[1..];
    case MoreLiterals(_, _, rest) =>
      assert Twin(from[i + 1], tokens[i + 1]);
      RetokenLiteralsSame(rest, from, tokens, i + 2);
      assert DenotesLiterals(ls)[1..] == DenotesLiterals(rest) && DenotesLiterals(ms)[1..] == DenotesLiterals(ms.rest);
  }

  // --------------------------------------------------------------- main theorem

  function Rendering(e: Expr): seq<Token>
    requires Writable(e)
  {
    Yield(Write(e, 4))
  }

  /** The text of an expression. */
  function Source(host: Host, e: Expr): Utf16
    requires Writable(e)
  {
    Written(host, Rendering(e), |Rendering(e)|)
  }

  /**
   * However the tokens of a derivation are spelled (AND, OR, NOT and IN as words in any case, or as symbols), and
   * whatever parentheses it has, its text is read as the expression it denotes, up to spans.
   */
  lemma TreeRoundTrip(host: Host, t: Tree) returns (tokens: seq<Token>, parsed: Expr)
    requires Derives(t) && AllSpellable(host, Yield(t)) && Nesting(t) <= MAX_NESTING_DEPTH
    requires |Written(host, Yield(t), |Yield(t)|)| <= MAX_SOURCE_LENGTH && |Yield(t)| <= MAX_TOKEN_COUNT
    ensures Lexed(host, Written(host, Yield(t), |Yield(t)|)) == Tokens(tokens) && Ended(tokens)
    ensures TreeOf(Written(host, Yield(t), |Yield(t)|), tokens) == Parser.Tree(parsed)
    ensures Erase(parsed) == Erase(Denotes(t))
  {
    var written := Yield(t);
    tokens := WrittenLexes(host, written);
    TokenSpans(host, Written(host, written, |written|), tokens);
    SitsIsSlice(t, written, 0);
    RetokenSame(t, written, tokens, 0);
    var u := Retoken(t, tokens, 0);
    SitsIsSlice(u, tokens, 0);
    DerivedIsAccepted(tokens, u);
    parsed := Denotes(u);
  }

  /** Rendering a tree, then lexing and parsing the text, gives the tree back up to spans. */
  lemma SourceRoundTrip(host: Host, e: Expr) returns (tokens: seq<Token>, parsed: Expr)
    requires Writable(e) && Readable(host, e)
    requires |Source(host, e)| <= MAX_SOURCE_LENGTH && |Rendering(e)| <= MAX_TOKEN_COUNT
    requires Nesting(Write(e, 4)) <= MAX_NESTING_DEPTH
    ensures Lexed(host, Source(host, e)) == Tokens(tokens) && Ended(tokens)
    ensures TreeOf(Source(host, e), tokens) == Parser.Tree(parsed) && Erase(parsed) == Erase(e)
  {
    WriteRenders(e, 4);
    WriteSpellable(host, e, 4);
    tokens, parsed := TreeRoundTrip(host, Write(e, 4));
  }
}
