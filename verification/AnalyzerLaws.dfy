/** The analyzer's verdict, characterised without its visit: problems, references and types. */
module AnalyzerLaws {
  import opened Basics
  import opened Text
  import opened Syntax
  import opened Types
  import opened Analyzer
  import opened SmallestLaws
  import opened TreeLaws

  // ----------------------------------------------- what an expression calls for

  /** The type a visit gives a node, which it does even where an operand is unsuitable. */
  function Infers(fields: Fields, e: Expr): Option<TypeInfo> {
    match e
    case Literal(value, _) => Some(LiteralType(value))
    case Field(name, _) => if name in fields then Some(fields[name]) else None
    case Not(operand, _) => if Infers(fields, operand).Some? then Some(BOOLEAN) else None
    case Binary(_, left, right, _) =>
      if Infers(fields, left).Some? && Infers(fields, right).Some? then Some(BOOLEAN) else None
    case Membership(candidate, _, _) => if Infers(fields, candidate).Some? then Some(BOOLEAN) else None
    case Call(builtin, _, _) => Some(ResultType(builtin))
  }

  ghost function OneIf(bad: bool, code: Code, span: Span): set<Diagnostic> {
    if bad then {Diagnostic(code, span)} else {}
  }

  ghost function MemberProblems(t: TypeInfo, members: seq<LiteralNode>): set<Diagnostic> {
    set k | 0 <= k < |members| && !EqualityCompatible(t, LiteralType(members[k].value)) ::
      Diagnostic(TypeMismatch, members[k].span)
  }

  /** The unsuitable arguments among those from the `k`-th on. */
  ghost function ArgumentProblems(fields: Fields, builtin: Builtin, args: seq<Expr>, k: nat): set<Diagnostic>
    requires |args| == |Parameters(builtin)|
  {
    set n | k <= n < |args| && ArgumentBad(builtin, n, Infers(fields, args[n])) ::
      Diagnostic(TypeMismatch, args[n].span)
  }

  /** Every problem of an expression, each node's own and those below it. */
  ghost function Problems(fields: Fields, e: Expr): set<Diagnostic>
    decreases e, 1
  {
    match e
    case Literal(_, _) => {}
    case Field(name, span) => OneIf(name !in fields, UnknownField, span)
    case Not(operand, span) =>
      var t := Infers(fields, operand);
      Problems(fields, operand) + OneIf(t.Some? && !t.value.kind.BooleanType?, TypeMismatch, span)
    case Binary(op, left, right, span) =>
      var l, r := Infers(fields, left), Infers(fields, right);
      Problems(fields, left) + Problems(fields, right)
      + OneIf(l.Some? && r.Some? && !OperandsSuit(op, l.value, r.value), TypeMismatch, span)
    case Membership(candidate, members, _) =>
      var t := Infers(fields, candidate);
      Problems(fields, candidate) + (if t.Some? then MemberProblems(t.value, members) else {})
    case Call(builtin, args, span) =>
      ProblemsAll(fields, args)
      + (if |args| != |Parameters(builtin)| then {Diagnostic(InvalidArgumentCount, span)}
         else ArgumentProblems(fields, builtin, args, 0))
  }

  ghost function ProblemsAll(fields: Fields, es: seq<Expr>): set<Diagnostic>
    decreases es, 0
  {
    if es == [] then {} else Problems(fields, es[0]) + ProblemsAll(fields, es[1..])
  }

  function Either<T>(a: Option<T>, b: Option<T>): Option<T> { if a.Some? then a else b }

  /** The leftmost undeclared built-in name that is used as a field without brackets. */
  function BareBuiltin(source: Utf16, fields: Fields, e: Expr): Option<Diagnostic>
    decreases e, 1
  {
    match e
    case Literal(_, _) => None
    case Field(name, span) =>
      if name !in fields && IsBareBuiltin(source, name, span)
      then Some(SourceDiagnostic(source, UnexpectedToken, span.start, span.end)) else None
    case Not(operand, _) => BareBuiltin(source, fields, operand)
    case Binary(_, left, right, _) => Either(BareBuiltin(source, fields, left), BareBuiltin(source, fields, right))
    case Membership(candidate, _, _) => BareBuiltin(source, fields, candidate)
    case Call(_, args, _) => BareBuiltinAll(source, fields, args)
  }

  function BareBuiltinAll(source: Utf16, fields: Fields, es: seq<Expr>): Option<Diagnostic>
    decreases es, 0
  {
    if es == [] then None
    else Either(BareBuiltin(source, fields, es[0]), BareBuiltinAll(source, fields, es[1..]))
  }

  /** The declared fields an expression mentions, left to right, with repetitions. */
  function Mentions(fields: Fields, e: Expr): seq<Utf16>
    decreases e, 1
  {
    match e
    case Literal(_, _) => []
    case Field(name, _) => if name in fields then [name] else []
    case Not(operand, _) => Mentions(fields, operand)
    case Binary(_, left, right, _) => Mentions(fields, left) + Mentions(fields, right)
    case Membership(candidate, _, _) => Mentions(fields, candidate)
    case Call(_, args, _) => MentionsAll(fields, args)
  }

  function MentionsAll(fields: Fields, es: seq<Expr>): seq<Utf16>
    decreases es, 0
  {
    if es == [] then [] else Mentions(fields, es[0]) + MentionsAll(fields, es[1..])
  }

  /** Drops every name that stands earlier in the list or in `before`. */
  function ReferAll(before: seq<Utf16>, names: seq<Utf16>): seq<Utf16>
    decreases |names|
  {
    if names == [] then before else ReferAll(Refer(before, names[0]), names[1..])
  }

  lemma {:induction false} ReferAllConcat(before: seq<Utf16>, a: seq<Utf16>, b: seq<Utf16>)
    ensures ReferAll(before, a + b) == ReferAll(ReferAll(before, a), b)
    decreases |a|
  {
    if a == [] {
      assert a + b == b;
    } else {
      assert (a + b)[1..] == a[1..] + b;
      ReferAllConcat(Refer(before, a[0]), a[1..], b);
    }
  }

  // ------------------------------------------------- the visit collects just that

  predicate InSource(source: Utf16, span: Span) { span.start <= span.end <= |source| }

  /** Every span of the tree lies in the source. */
  predicate SpansIn(source: Utf16, e: Expr)
    decreases e, 1
  {
    && InSource(source, e.span)
    && match e
       case Literal(_, _) => true
       case Field(_, _) => true
       case Not(operand, _) => SpansIn(source, operand)
       case Binary(_, left, right, _) => SpansIn(source, left) && SpansIn(source, right)
       case Membership(candidate, members, _) =>
         SpansIn(source, candidate) && forall k | 0 <= k < |members| :: InSource(source, members[k].span)
       case Call(_, args, _) => SpansInAll(source, args)
  }

  predicate SpansInAll(source: Utf16, es: seq<Expr>)
    decreases es, 0
  {
    es == [] || (SpansIn(source, es[0]) && SpansInAll(source, es[1..]))
  }

  lemma {:induction false} NestedSpansIn(source: Utf16, e: Expr)
    requires Nested(e) && e.span.end <= |source|
    ensures SpansIn(source, e)
    decreases e, 1
  {
    match e
    case Literal(_, _) =>
    case Field(_, _) =>
    case Not(operand, _) => NestedSpansIn(source, operand);
    case Binary(_, left, right, _) =>
      NestedSpansIn(source, left);
      NestedSpansIn(source, right);
    case Membership(candidate, members, span) =>
      NestedSpansIn(source, candidate);
      MembersInSource(source, members, candidate.span.end, span.end);
    case Call(_, args, span) => NestedAllIn(source, args, span.start, span.end);
  }

  lemma {:induction false} NestedAllIn(source: Utf16, es: seq<Expr>, from: nat, to: nat)
    requires NestedFrom(es, from, to) && to <= |source|
    ensures SpansInAll(source, es) && from <= to
    decreases es, 0
  {
    if es != [] {
      NestedAllIn(source, es[1..], es[0].span.end, to);
      NestedSpansIn(source, es[0]);
    }
  }

  lemma {:induction false} MembersInSource(source: Utf16, members: seq<LiteralNode>, from: nat, to: nat)
    requires MembersFrom(members, from, to) && to <= |source|
    ensures from <= to && forall k | 0 <= k < |members| :: InSource(source, members[k].span)
  {
    if members != [] {
      MembersInSource(source, members[1..], members[0].span.end, to);
    }
  }

  /** `g` is `f` with exactly `problems` reported and `names` referred to. */
  ghost predicate Collects(f: Findings, g: Findings, problems: set<Diagnostic>, names: seq<Utf16>) {
    && g.syntax.None?
    && g.keys == f.keys + problems
    && Smallest(g.diagnostics, g.keys)
    && g.references == ReferAll(f.references, names)
  }

  ghost predicate Ready(f: Findings) { f.syntax.None? && Smallest(f.diagnostics, f.keys) }

  lemma CollectsThen(f: Findings, g: Findings, h: Findings,
                     p: set<Diagnostic>, m: seq<Utf16>, q: set<Diagnostic>, n: seq<Utf16>)
    requires Collects(f, g, p, m) && Collects(g, h, q, n)
    ensures Collects(f, h, p + q, m + n)
  {
    ReferAllConcat(f.references, m, n);
  }

  lemma ReportCollects(source: Utf16, f: Findings, bad: bool, code: Code, span: Span)
    requires Ready(f) && InSource(source, span)
    ensures Collects(f, ReportIf(bad, source, f, code, span), OneIf(bad, code, span), [])
  {
    var key := Diagnostic(code, span);
    if bad && key !in f.keys {
      PushPopKeepsSmallest(f.diagnostics, f.keys, key);
    }
  }

  /** One more report after a visit. */
  lemma ReportAfter(source: Utf16, f: Findings, g: Findings, problems: set<Diagnostic>, names: seq<Utf16>,
                    bad: bool, code: Code, span: Span)
    requires Collects(f, g, problems, names) && InSource(source, span)
    ensures Collects(f, ReportIf(bad, source, g, code, span), problems + OneIf(bad, code, span), names)
  {
    ReportCollects(source, g, bad, code, span);
    CollectsThen(f, g, ReportIf(bad, source, g, code, span), problems, names, OneIf(bad, code, span), []);
    assert names + [] == names;
  }

  /** One report before the rest. */
  lemma ReportBefore(source: Utf16, f: Findings, bad: bool, code: Code, span: Span, h: Findings, rest: set<Diagnostic>)
    requires Ready(f) && InSource(source, span) && Collects(ReportIf(bad, source, f, code, span), h, rest, [])
    ensures Collects(f, h, OneIf(bad, code, span) + rest, [])
  {
    ReportCollects(source, f, bad, code, span);
    CollectsThen(f, ReportIf(bad, source, f, code, span), h, OneIf(bad, code, span), [], rest, []);
  }

  /** The outcome of a visit that starts ready. */
  ghost predicate Meets(source: Utf16, f: Findings, r: (Findings, Option<TypeInfo>),
                        bare: Option<Diagnostic>, problems: set<Diagnostic>, names: seq<Utf16>,
                        t: Option<TypeInfo>) {
    if bare.Some? then r.0.syntax == bare else Collects(f, r.0, problems, names) && r.1 == t
  }

  lemma {:induction false} VisitMeets(source: Utf16, fields: Fields, e: Expr, f: Findings)
    requires Ready(f) && SpansIn(source, e)
    ensures Meets(source, f, Visit(source, fields, e, f), BareBuiltin(source, fields, e),
                  Problems(fields, e), Mentions(fields, e), Infers(fields, e))
    decreases e, 1
  {
    match e
    case Literal(_, _) =>
    case Field(_, _) => FieldMeets(source, fields, e, f);
    case Not(_, _) => NotMeets(source, fields, e, f);
    case Binary(_, _, _, _) => BinaryMeets(source, fields, e, f);
    case Membership(_, _, _) => MembershipMeets(source, fields, e, f);
    case Call(_, _, _) => CallMeets(source, fields, e, f);
  }

  lemma FieldMeets(source: Utf16, fields: Fields, e: Expr, f: Findings)
    requires Ready(f) && SpansIn(source, e) && e.Field?
    ensures Meets(source, f, Visit(source, fields, e, f), BareBuiltin(source, fields, e),
                  Problems(fields, e), Mentions(fields, e), Infers(fields, e))
  {
    ReportCollects(source, f, e.name !in fields, UnknownField, e.span);
    assert e.name in fields ==> ReferAll(f.references, [e.name]) == Refer(f.references, e.name);
  }

  lemma {:induction false} NotMeets(source: Utf16, fields: Fields, e: Expr, f: Findings)
    requires Ready(f) && SpansIn(source, e) && e.Not?
    ensures Meets(source, f, Visit(source, fields, e, f), BareBuiltin(source, fields, e),
                  Problems(fields, e), Mentions(fields, e), Infers(fields, e))
    decreases e, 0
  {
    VisitMeets(source, fields, e.operand, f);
    var (g, t) := Visit(source, fields, e.operand, f);
    var bad := t.Some? && !t.value.kind.BooleanType?;
    assert Visit(source, fields, e, f).0 == ReportIf(bad, source, g, TypeMismatch, e.span);
    if g.syntax.None? {
      ReportAfter(source, f, g, Problems(fields, e.operand), Mentions(fields, e.operand), bad, TypeMismatch, e.span);
    } else {
      ReportKeepsSyntax(source, g, TypeMismatch, e.span);
    }
  }

  lemma {:induction false} BinaryMeets(source: Utf16, fields: Fields, e: Expr, f: Findings)
    requires Ready(f) && SpansIn(source, e) && e.Binary?
    ensures Meets(source, f, Visit(source, fields, e, f), BareBuiltin(source, fields, e),
                  Problems(fields, e), Mentions(fields, e), Infers(fields, e))
    decreases e, 0
  {
    var Binary(op, left, right, span) := e;
    VisitMeets(source, fields, left, f);
    var (g, l) := Visit(source, fields, left, f);
    if g.syntax.None? {
      VisitMeets(source, fields, right, g);
      var (h, r) := Visit(source, fields, right, g);
      if h.syntax.None? {
        var p, q := Problems(fields, left), Problems(fields, right);
        var m, n := Mentions(fields, left), Mentions(fields, right);
        CollectsThen(f, g, h, p, m, q, n);
        var bad := l.Some? && r.Some? && !OperandsSuit(op, l.value, r.value);
        ReportAfter(source, f, h, p + q, m + n, bad, TypeMismatch, span);
        assert Visit(source, fields, e, f) == (ReportIf(bad, source, h, TypeMismatch, span), Infers(fields, e));
      } else {
        ReportKeepsSyntax(source, h, TypeMismatch, span);
        assert Visit(source, fields, e, f).0.syntax == h.syntax;
      }
    } else {
      assert Visit(source, fields, right, g) == (g, None);
      assert Visit(source, fields, e, f).0.syntax == g.syntax;
    }
  }

  lemma {:induction false} MembershipMeets(source: Utf16, fields: Fields, e: Expr, f: Findings)
    requires Ready(f) && SpansIn(source, e) && e.Membership?
    ensures Meets(source, f, Visit(source, fields, e, f), BareBuiltin(source, fields, e),
                  Problems(fields, e), Mentions(fields, e), Infers(fields, e))
    decreases e, 0
  {
    VisitMeets(source, fields, e.candidate, f);
    var (g, t) := Visit(source, fields, e.candidate, f);
    if g.syntax.None? && t.Some? {
      MembersCollect(source, t.value, e.members, g);
      var m := Mentions(fields, e.candidate);
      CollectsThen(f, g, ReportMembers(source, t.value, e.members, g),
                   Problems(fields, e.candidate), m, MemberProblems(t.value, e.members), []);
      assert m + [] == m;
    } else if t.Some? {
      MembersKeepSyntax(source, t.value, e.members, g);
    }
  }

  lemma {:induction false} MembersCollect(source: Utf16, t: TypeInfo, members: seq<LiteralNode>, f: Findings)
    requires Ready(f) && forall k | 0 <= k < |members| :: InSource(source, members[k].span)
    ensures Collects(f, ReportMembers(source, t, members, f), MemberProblems(t, members), [])
  {
    if members != [] {
      var head, tail := members[0], members[1..];
      var bad := !EqualityCompatible(t, LiteralType(head.value));
      var g := ReportIf(bad, source, f, TypeMismatch, head.span);
      ReportCollects(source, f, bad, TypeMismatch, head.span);
      MembersCollect(source, t, tail, g);
      ReportBefore(source, f, bad, TypeMismatch, head.span, ReportMembers(source, t, tail, g), MemberProblems(t, tail));
      MemberProblemsSplit(t, members);
    }
  }

  lemma MemberProblemsSplit(t: TypeInfo, members: seq<LiteralNode>)
    requires members != []
    ensures MemberProblems(t, members) ==
      OneIf(!EqualityCompatible(t, LiteralType(members[0].value)), TypeMismatch, members[0].span)
      + MemberProblems(t, members[1..])
  {
    forall d | d in MemberProblems(t, members)
      ensures d in OneIf(!EqualityCompatible(t, LiteralType(members[0].value)), TypeMismatch, members[0].span)
                   + MemberProblems(t, members[1..])
    {
      var k :| 0 <= k < |members| && !EqualityCompatible(t, LiteralType(members[k].value))
               && d == Diagnostic(TypeMismatch, members[k].span);
      assert k > 0 ==> members[1..][k - 1] == members[k];
    }
    forall d | d in MemberProblems(t, members[1..]) ensures d in MemberProblems(t, members) {
      var k :| 0 <= k < |members[1..]| && !EqualityCompatible(t, LiteralType(members[1..][k].value))
               && d == Diagnostic(TypeMismatch, members[1..][k].span);
      assert members[k + 1] == members[1..][k];
    }
  }

  lemma {:induction false} CallMeets(source: Utf16, fields: Fields, e: Expr, f: Findings)
    requires Ready(f) && SpansIn(source, e) && e.Call?
    ensures Meets(source, f, Visit(source, fields, e, f), BareBuiltin(source, fields, e),
                  Problems(fields, e), Mentions(fields, e), Infers(fields, e))
    decreases e, 0
  {
    var Call(builtin, args, span) := e;
    VisitAllMeets(source, fields, args, f);
    var (g, types) := VisitAll(source, fields, args, f);
    var m := MentionsAll(fields, args);
    assert m + [] == m;
    if |args| != |Parameters(builtin)| {
      ReportKeepsSyntax(source, g, InvalidArgumentCount, span);
      if g.syntax.None? {
        ReportAfter(source, f, g, ProblemsAll(fields, args), m, true, InvalidArgumentCount, span);
      }
    } else if g.syntax.None? {
      ArgumentsCollect(source, fields, builtin, args, types, 0, g);
      CollectsThen(f, g, ReportArguments(source, builtin, args, types, 0, g),
                   ProblemsAll(fields, args), m, ArgumentProblems(fields, builtin, args, 0), []);
    } else {
      ArgumentsKeepSyntax(source, builtin, args, types, 0, g);
    }
  }

  lemma {:induction false} MembersKeepSyntax(source: Utf16, t: TypeInfo, members: seq<LiteralNode>, f: Findings)
    ensures ReportMembers(source, t, members, f).syntax == f.syntax
    decreases |members|
  {
    if members != [] {
      var bad := !EqualityCompatible(t, LiteralType(members[0].value));
      MembersKeepSyntax(source, t, members[1..], ReportIf(bad, source, f, TypeMismatch, members[0].span));
    }
  }

  lemma ReportKeepsSyntax(source: Utf16, f: Findings, code: Code, span: Span)
    ensures Report(source, f, code, span).syntax == f.syntax
  {}

  lemma {:induction false} ArgumentsKeepSyntax(source: Utf16, builtin: Builtin, args: seq<Expr>,
                                               types: seq<Option<TypeInfo>>, k: nat, f: Findings)
    requires |args| == |types| == |Parameters(builtin)| && k <= |args|
    ensures ReportArguments(source, builtin, args, types, k, f).syntax == f.syntax
    decreases |args| - k
  {
    if k < |args| {
      var g := ReportIf(ArgumentBad(builtin, k, types[k]), source, f, TypeMismatch, args[k].span);
      ArgumentsKeepSyntax(source, builtin, args, types, k + 1, g);
    }
  }

  lemma ArgumentProblemsSplit(fields: Fields, builtin: Builtin, args: seq<Expr>, k: nat)
    requires |args| == |Parameters(builtin)| && k < |args|
    ensures ArgumentProblems(fields, builtin, args, k) ==
      OneIf(ArgumentBad(builtin, k, Infers(fields, args[k])), TypeMismatch, args[k].span)
      + ArgumentProblems(fields, builtin, args, k + 1)
  {}

  /** The report on one argument before those on the rest. */
  lemma ArgumentReported(source: Utf16, fields: Fields, builtin: Builtin, args: seq<Expr>,
                         types: seq<Option<TypeInfo>>, k: nat, f: Findings, g: Findings)
    requires |args| == |types| == |Parameters(builtin)| && k < |args|
    requires Ready(f) && types[k] == Infers(fields, args[k]) && InSource(source, args[k].span)
    requires g == ReportIf(ArgumentBad(builtin, k, types[k]), source, f, TypeMismatch, args[k].span)
    requires Collects(g, ReportArguments(source, builtin, args, types, k + 1, g),
                      ArgumentProblems(fields, builtin, args, k + 1), [])
    ensures Collects(f, ReportArguments(source, builtin, args, types, k, f),
                     ArgumentProblems(fields, builtin, args, k), [])
  {
    ReportBefore(source, f, ArgumentBad(builtin, k, types[k]), TypeMismatch, args[k].span,
                 ReportArguments(source, builtin, args, types, k + 1, g), ArgumentProblems(fields, builtin, args, k + 1));
    ArgumentProblemsSplit(fields, builtin, args, k);
  }

  lemma {:induction false} ArgumentsCollect(source: Utf16, fields: Fields, builtin: Builtin, args: seq<Expr>,
                                            types: seq<Option<TypeInfo>>, k: nat, f: Findings)
    requires |args| == |types| == |Parameters(builtin)| && k <= |args|
    requires Ready(f) && forall n | 0 <= n < |args| :: types[n] == Infers(fields, args[n]) && InSource(source, args[n].span)
    ensures Collects(f, ReportArguments(source, builtin, args, types, k, f),
                     ArgumentProblems(fields, builtin, args, k), [])
    decreases |args| - k
  {
    if k < |args| {
      var bad := ArgumentBad(builtin, k, types[k]);
      var g := ReportIf(bad, source, f, TypeMismatch, args[k].span);
      ReportCollects(source, f, bad, TypeMismatch, args[k].span);
      ArgumentsCollect(source, fields, builtin, args, types, k + 1, g);
      ArgumentReported(source, fields, builtin, args, types, k, f, g);
    }
  }

  /** The same for a list of arguments. */
  lemma {:induction false} VisitAllMeets(source: Utf16, fields: Fields, es: seq<Expr>, f: Findings)
    requires Ready(f) && SpansInAll(source, es)
    ensures var r, bare := VisitAll(source, fields, es, f), BareBuiltinAll(source, fields, es);
      if bare.Some? then r.0.syntax == bare
      else Collects(f, r.0, ProblemsAll(fields, es), MentionsAll(fields, es))
           && forall n | 0 <= n < |es| :: r.1[n] == Infers(fields, es[n])
    ensures forall n | 0 <= n < |es| :: InSource(source, es[n].span)
    decreases es, 0
  {
    if es != [] {
      var tail := es[1..];
      VisitMeets(source, fields, es[0], f);
      var (g, t) := Visit(source, fields, es[0], f);
      SpansOfAll(source, es);
      if g.syntax.None? {
        VisitAllMeets(source, fields, tail, g);
        var (h, ts) := VisitAll(source, fields, tail, g);
        if h.syntax.None? {
          CollectsThen(f, g, h, Problems(fields, es[0]), Mentions(fields, es[0]),
                       ProblemsAll(fields, tail), MentionsAll(fields, tail));
          forall n | 0 <= n < |es| ensures VisitAll(source, fields, es, f).1[n] == Infers(fields, es[n]) {
            assert n > 0 ==> tail[n - 1] == es[n] && ts[n - 1] == Infers(fields, tail[n - 1]);
          }
        }
      } else {
        VisitAllStuck(source, fields, tail, g);
      }
    }
  }

  lemma {:induction false} SpansOfAll(source: Utf16, es: seq<Expr>)
    requires SpansInAll(source, es)
    ensures forall n | 0 <= n < |es| :: InSource(source, es[n].span)
  {
    if es != [] {
      SpansOfAll(source, es[1..]);
      assert forall n | 0 < n < |es| :: es[n] == es[1..][n - 1];
    }
  }

  lemma {:induction false} VisitAllStuck(source: Utf16, fields: Fields, es: seq<Expr>, f: Findings)
    requires f.syntax.Some?
    ensures VisitAll(source, fields, es, f).0 == f
  {
    if es != [] {
      VisitAllStuck(source, fields, es[1..], f);
    }
  }

  // ------------------------------------------------ problems against the judgement

  /** No problem and no bare built-in means well typed, with the inferred type; and conversely. */
  lemma {:induction false} CleanIsTyped(fields: Fields, e: Expr)
    ensures TypeOf(fields, e) == if Problems(fields, e) == {} then Infers(fields, e) else None
    ensures Infers(fields, e).None? ==> Problems(fields, e) != {}
    decreases e, 1
  {
    match e
    case Literal(_, _) =>
    case Field(name, span) => assert name !in fields ==> Diagnostic(UnknownField, span) in Problems(fields, e);
    case Not(operand, span) =>
      CleanIsTyped(fields, operand);
      assert Diagnostic(TypeMismatch, span) in OneIf(true, TypeMismatch, span);
    case Binary(op, left, right, span) =>
      CleanIsTyped(fields, left);
      CleanIsTyped(fields, right);
      assert Diagnostic(TypeMismatch, span) in OneIf(true, TypeMismatch, span);
    case Membership(candidate, members, _) =>
      CleanIsTyped(fields, candidate);
      if Infers(fields, candidate).Some? {
        CleanMembers(Infers(fields, candidate).value, members);
      }
    case Call(builtin, args, _) => CleanCall(fields, e);
  }

  lemma CleanMembers(t: TypeInfo, members: seq<LiteralNode>)
    ensures MembersSuit(t, members) <==> MemberProblems(t, members) == {}
  {
    if !MembersSuit(t, members) {
      var k :| 0 <= k < |members| && !EqualityCompatible(t, LiteralType(members[k].value));
      assert Diagnostic(TypeMismatch, members[k].span) in MemberProblems(t, members);
    }
    if MemberProblems(t, members) != {} {
      var d :| d in MemberProblems(t, members);
    }
  }

  lemma {:induction false} CleanCall(fields: Fields, e: Expr)
    requires e.Call?
    ensures TypeOf(fields, e) == if Problems(fields, e) == {} then Infers(fields, e) else None
    decreases e, 0
  {
    var Call(builtin, args, span) := e;
    if |args| != |Parameters(builtin)| {
      assert Diagnostic(InvalidArgumentCount, span) in Problems(fields, e);
    } else {
      CleanArguments(fields, builtin, args, 0);
    }
  }

  lemma {:induction false} CleanArguments(fields: Fields, builtin: Builtin, args: seq<Expr>, k: nat)
    requires |args| == |Parameters(builtin)| && k <= |args|
    ensures ArgumentsSuit(fields, builtin, args[k..], k) <==>
      ProblemsAll(fields, args[k..]) == {} && ArgumentProblems(fields, builtin, args, k) == {}
    ensures args[0..] == args
    decreases args, |args| - k
  {
    if k < |args| {
      assert args[k..][1..] == args[k + 1..];
      assert args[k] in args;
      CleanIsTyped(fields, args[k]);
      CleanArguments(fields, builtin, args, k + 1);
      ArgumentProblemsSplit(fields, builtin, args, k);
      assert Diagnostic(TypeMismatch, args[k].span) in OneIf(true, TypeMismatch, args[k].span);
    }
  }

  // --------------------------------------------------------------- main theorems

  /** Everything wrong with an expression, the expected result included. */
  ghost function AllProblems(fields: Fields, e: Expr, expected: Option<Type>): set<Diagnostic> {
    var t := Infers(fields, e);
    Problems(fields, e) + OneIf(t.Some? && MissesExpected(t.value, expected), ExpectedResultTypeMismatch, e.span)
  }

  /** The report on the expected result completes the findings of the visit. */
  lemma ExpectationCollects(source: Utf16, f: Findings, problems: set<Diagnostic>, names: seq<Utf16>, bad: bool, span: Span)
    requires Collects(NOTHING, f, problems, names) && InSource(source, span)
    ensures
      var g := ReportIf(bad, source, f, ExpectedResultTypeMismatch, span);
      && g.keys == problems + OneIf(bad, ExpectedResultTypeMismatch, span) && Smallest(g.diagnostics, g.keys)
      && (g.diagnostics == [] <==> g.keys == {}) && g.references == f.references && g.syntax.None?
  {
    ReportCollects(source, f, bad, ExpectedResultTypeMismatch, span);
    var g := ReportIf(bad, source, f, ExpectedResultTypeMismatch, span);
    assert {} + problems == problems;
    assert g.diagnostics == [] <==> g.keys == {};
  }

  /**
   * The verdict: the leftmost bare built-in alone, or else the twenty smallest of all distinct
   * problems in order, or else acceptance with the type of the judgement.
   */
  lemma AnalysisVerdict(source: Utf16, e: Expr, schema: seq<SchemaEntry>, expected: Option<Type>)
    requires SpansIn(source, e)
    ensures var fields := FieldsOf(schema); var bare := BareBuiltin(source, fields, e);
      match Analysis(source, e, schema, expected)
      case Rejected(ds) =>
        if bare.Some? then ds == [bare.value]
        else ds != [] && Smallest(ds, AllProblems(fields, e, expected))
      case Accepted(t, references) =>
        && bare.None? && AllProblems(fields, e, expected) == {}
        && TypeOf(fields, e) == Some(t) && !MissesExpected(t, expected)
        && references == ReferAll([], Mentions(fields, e))
      case NoVerdict => false
  {
    var fields := FieldsOf(schema);
    VisitMeets(source, fields, e, NOTHING);
    CleanIsTyped(fields, e);
    var (f, t) := Visit(source, fields, e, NOTHING);
    if f.syntax.None? {
      var bad := t.Some? && MissesExpected(t.value, expected);
      ExpectationCollects(source, f, Problems(fields, e), Mentions(fields, e), bad, e.span);
      assert bad ==> Diagnostic(ExpectedResultTypeMismatch, e.span) in AllProblems(fields, e, expected);
    }
  }

  /** The analyzer accepts exactly what the typing judgement types. */
  lemma AcceptsExactlyTyped(source: Utf16, e: Expr, schema: seq<SchemaEntry>, expected: Option<Type>)
    requires SpansIn(source, e)
    ensures var t := TypeOf(FieldsOf(schema), e);
      Analysis(source, e, schema, expected).Accepted? <==>
        BareBuiltin(source, FieldsOf(schema), e).None? && t.Some? && !MissesExpected(t.value, expected)
  {
    AnalysisVerdict(source, e, schema, expected);
    CleanIsTyped(FieldsOf(schema), e);
    var ds := Analysis(source, e, schema, expected);
    if ds.Rejected? && BareBuiltin(source, FieldsOf(schema), e).None? {
      assert ds.diagnostics[0] in AllProblems(FieldsOf(schema), e, expected);
    }
  }

  // ----------------------------------------------------------------- references

  /** Where a name first stands. */
  function FirstAt(names: seq<Utf16>, name: Utf16): (i: nat)
    requires name in names
    ensures i < |names| && names[i] == name
    ensures forall k | 0 <= k < i :: names[k] != name
  {
    if names[0] == name then 0 else 1 + FirstAt(names[1..], name)
  }

  /** The references are the mentioned fields without repetition, in order of first mention. */
  lemma {:induction false} ReferencesAreFirstMentions(names: seq<Utf16>)
    ensures var r := ReferAll([], names);
      && Distinct(r)
      && (forall name :: name in r <==> name in names)
      && forall i, j | 0 <= i < j < |r| :: r[i] in names && r[j] in names && FirstAt(names, r[i]) < FirstAt(names, r[j])
  {
    if names != [] {
      var front, last := names[..|names| - 1], names[|names| - 1];
      ReferencesAreFirstMentions(front);
      assert names == front + [last];
      ReferAllConcat([], front, [last]);
      var r, s := ReferAll([], front), ReferAll([], names);
      assert s == Refer(r, last);
      forall name | name in front ensures FirstAt(names, name) == FirstAt(front, name) {
        FirstAtPrefix(names, front, name);
      }
      forall i, j | 0 <= i < j < |s|
        ensures s[i] in names && s[j] in names && FirstAt(names, s[i]) < FirstAt(names, s[j])
      {
        assert s[i] in r;
        if j < |r| {
          assert s[j] in r;
        } else {
          assert s[j] == last && last !in front;
        }
      }
    }
  }

  lemma FirstAtPrefix(names: seq<Utf16>, front: seq<Utf16>, name: Utf16)
    requires front <= names && name in front
    ensures FirstAt(names, name) == FirstAt(front, name)
  {
    var i, j := FirstAt(names, name), FirstAt(front, name);
    assert names[j] == front[j];
    assert i < |front| ==> front[i] == names[i];
  }
}
