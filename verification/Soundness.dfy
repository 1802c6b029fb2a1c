/** Why the evaluator's internal errors cannot happen, and which failures can, and where. */
module Soundness {
  import opened Text
  import opened Syntax
  import opened Types
  import opened Records
  import opened Evaluator
  import opened Semantics
  import opened TreeLaws
  import AnalyzerLaws

  /** `String(number)` is never longer than the string limit. */
  ghost predicate HostSane(host: Host) { forall x: real :: |host.show(x)| <= MAX_STRING_LENGTH }

  predicate Nullable(fields: Fields, e: Expr) {
    TypeOf(fields, e).Some? && TypeOf(fields, e).value.nullable
  }

  /** The failures that a node itself, not its operands, can be blamed for. */
  ghost predicate OwnFailure(fields: Fields, e: Expr, code: Code) {
    if code.NullNotAllowed? then
      match e
      case Not(operand, _) => Nullable(fields, operand)
      case Binary(op, left, right, _) =>
        !op.Equal? && !op.NotEqual? && (Nullable(fields, left) || Nullable(fields, right))
      case Call(builtin, args, _) =>
        !AcceptsNull(builtin) && exists k | 0 <= k < |args| :: Nullable(fields, args[k])
      case _ => false
    else code.StringValueLimitExceeded? && e.Call? && Lengthens(e.builtin)
  }

  /** The built-ins whose result may be longer than their arguments: case mapping can add units. */
  predicate Lengthens(b: Builtin) { b.Lower? || b.Upper? || b.EqualsIgnoreCase? }

  /** Some node of `e` at `span` can be blamed for `code`. */
  ghost predicate CanFail(fields: Fields, e: Expr, code: Code, span: Span)
    decreases e, 1
  {
    || (span == e.span && OwnFailure(fields, e, code))
    || match e
       case Not(operand, _) => CanFail(fields, operand, code, span)
       case Binary(_, left, right, _) => CanFail(fields, left, code, span) || CanFail(fields, right, code, span)
       case Membership(candidate, _, _) => CanFail(fields, candidate, code, span)
       case Call(_, args, _) => AnyCanFail(fields, args, code, span)
       case _ => false
  }

  ghost predicate AnyCanFail(fields: Fields, es: seq<Expr>, code: Code, span: Span)
    decreases es, 0
  {
    es != [] && (CanFail(fields, es[0], code, span) || AnyCanFail(fields, es[1..], code, span))
  }

  /** Nodes are blamed for nulls and for strings over the limit, and for nothing else. */
  lemma {:induction false} BlamedCodes(fields: Fields, e: Expr, code: Code, span: Span)
    requires CanFail(fields, e, code, span)
    ensures code.NullNotAllowed? || code.StringValueLimitExceeded?
    decreases e, 1
  {
    if !OwnFailure(fields, e, code) || span != e.span {
      match e
      case Not(operand, _) => BlamedCodes(fields, operand, code, span);
      case Binary(_, left, right, _) =>
        BlamedCodes(fields, if CanFail(fields, left, code, span) then left else right, code, span);
      case Membership(candidate, _, _) => BlamedCodes(fields, candidate, code, span);
      case Call(_, args, _) => BlamedInAll(fields, args, code, span);
    }
  }

  lemma {:induction false} BlamedInAll(fields: Fields, es: seq<Expr>, code: Code, span: Span)
    requires AnyCanFail(fields, es, code, span)
    ensures code.NullNotAllowed? || code.StringValueLimitExceeded?
    decreases es, 0
  {
    if CanFail(fields, es[0], code, span) {
      BlamedCodes(fields, es[0], code, span);
    } else {
      BlamedInAll(fields, es[1..], code, span);
    }
  }

  /** What a typed expression may come to: a value of its type or a failure it can be blamed for. */
  ghost predicate Sound(fields: Fields, e: Expr, t: TypeInfo, r: Result<Value>) {
    match r
    case Ok(value) => ValueFits(value, t)
    case Failed(code, span) => CanFail(fields, e, code, span)
    case Broken => false
  }

  lemma {:induction false} TypeSoundness(host: Host, fields: Fields, env: Env, e: Expr)
    requires HostSane(host) && Conforms(fields, env) && Bounded(e) && TypeOf(fields, e).Some?
    ensures Sound(fields, e, TypeOf(fields, e).value, Means(host, env, e))
    decreases e, 1
  {
    match e
    case Literal(_, _) =>
    case Field(_, _) =>
    case Not(operand, _) => TypeSoundness(host, fields, env, operand);
    case Binary(_, _, _, _) => BinarySound(host, fields, env, e);
    case Membership(candidate, _, _) => TypeSoundness(host, fields, env, candidate);
    case Call(builtin, args, span) =>
      ArgumentsSound(host, fields, env, builtin, args, 0);
      var r := MeansAll(host, env, args);
      if r.Ok? {
        BuiltinSound(host, builtin, r.value, span);
      }
  }

  lemma {:induction false} BinarySound(host: Host, fields: Fields, env: Env, e: Expr)
    requires HostSane(host) && Conforms(fields, env) && Bounded(e) && TypeOf(fields, e).Some? && e.Binary?
    ensures Sound(fields, e, TypeOf(fields, e).value, Means(host, env, e))
    decreases e, 0
  {
    TypeSoundness(host, fields, env, e.left);
    TypeSoundness(host, fields, env, e.right);
    if e.op.And? || e.op.Or? {
      LogicalSound(host, fields, env, e);
    } else {
      RelationSound(host, fields, env, e);
    }
  }

  lemma LogicalSound(host: Host, fields: Fields, env: Env, e: Expr)
    requires Bounded(e) && TypeOf(fields, e).Some? && e.Binary? && (e.op.And? || e.op.Or?)
    requires Sound(fields, e.left, TypeOf(fields, e.left).value, Means(host, env, e.left))
    requires Sound(fields, e.right, TypeOf(fields, e.right).value, Means(host, env, e.right))
    ensures Sound(fields, e, TypeOf(fields, e).value, Means(host, env, e))
  {}

  lemma RelationSound(host: Host, fields: Fields, env: Env, e: Expr)
    requires Bounded(e) && TypeOf(fields, e).Some? && e.Binary? && !e.op.And? && !e.op.Or?
    requires Sound(fields, e.left, TypeOf(fields, e.left).value, Means(host, env, e.left))
    requires Sound(fields, e.right, TypeOf(fields, e.right).value, Means(host, env, e.right))
    ensures Sound(fields, e, TypeOf(fields, e).value, Means(host, env, e))
  {}

  /** A value that suits a parameter, or null. */
  predicate SuitsParameter(value: Value, kind: Type) {
    value.Null? || ValueFits(value, TypeInfo(kind, false))
  }

  lemma {:induction false} ArgumentsSound(host: Host, fields: Fields, env: Env, builtin: Builtin, args: seq<Expr>, k: nat)
    requires HostSane(host) && Conforms(fields, env) && BoundedAll(args)
    requires k + |args| <= |Parameters(builtin)| && ArgumentsSuit(fields, builtin, args, k)
    ensures match MeansAll(host, env, args)
      case Ok(values) =>
        |values| == |args| && forall n | 0 <= n < |values| ::
          && SuitsParameter(values[n], Parameters(builtin)[k + n])
          && (values[n].Null? ==> Nullable(fields, args[n]))
      case Failed(code, span) => AnyCanFail(fields, args, code, span)
      case Broken => false
    decreases args, 0
  {
    if args != [] {
      TypeSoundness(host, fields, env, args[0]);
      ArgumentsSound(host, fields, env, builtin, args[1..], k + 1);
      var rest := MeansAll(host, env, args[1..]);
      if MeansAll(host, env, args).Ok? {
        var values := MeansAll(host, env, args).value;
        forall n | 0 <= n < |values|
          ensures SuitsParameter(values[n], Parameters(builtin)[k + n])
          ensures values[n].Null? ==> Nullable(fields, args[n])
        {
          if n > 0 {
            assert values[n] == rest.value[n - 1] && args[n] == args[1..][n - 1];
            assert SuitsParameter(rest.value[n - 1], Parameters(builtin)[k + 1 + (n - 1)]);
          }
        }
      }
    }
  }

  /** Built-ins on suitable arguments: the declared result, or one of the two failures. */
  lemma BuiltinSound(host: Host, b: Builtin, values: seq<Value>, span: Span)
    requires HostSane(host) && |values| == |Parameters(b)|
    requires forall n | 0 <= n < |values| :: SuitsParameter(values[n], Parameters(b)[n])
    ensures match BuiltinWork(host, b, values, span).result
      case Ok(value) => ValueFits(value, ResultType(b))
      case Failed(code, at) =>
        at == span && if code.NullNotAllowed? then !AcceptsNull(b) && exists n | 0 <= n < |values| :: values[n].Null?
                      else code.StringValueLimitExceeded? && Lengthens(b)
      case Broken => false
  {
    assert SuitsParameter(values[0], Parameters(b)[0]);
    if TakesTwoStrings(b) {
      assert SuitsParameter(values[1], Parameters(b)[1]);
      assert values[0].Null? || values[1].Null? || (values[0].Str? && values[1].Str?);
    } else if b.TextFn? && values[0].Number? {
      assert |host.show(values[0].r)| <= MAX_STRING_LENGTH;
    }
  }

  // ------------------------------------------------------------- null precision

  /** No node calls `tryNumber`. */
  predicate NoTryNumber(e: Expr)
    decreases e, 1
  {
    match e
    case Literal(_, _) => true
    case Field(_, _) => true
    case Not(operand, _) => NoTryNumber(operand)
    case Binary(_, left, right, _) => NoTryNumber(left) && NoTryNumber(right)
    case Membership(candidate, _, _) => NoTryNumber(candidate)
    case Call(builtin, args, _) => !builtin.TryNumber? && NoTryNumberAll(args)
  }

  predicate NoTryNumberAll(es: seq<Expr>)
    decreases es, 0
  {
    es == [] || (NoTryNumber(es[0]) && NoTryNumberAll(es[1..]))
  }

  ghost predicate NothingNullable(fields: Fields) {
    forall name | name in fields :: !fields[name].nullable && !fields[name].kind.NullType?
  }

  /** Over a schema without nullable fields only a null literal has a nullable type. */
  lemma OnlyNullIsNullable(fields: Fields, e: Expr)
    requires NothingNullable(fields) && NoTryNumber(e) && Nullable(fields, e)
    ensures TypeOf(fields, e).value.kind.NullType?
  {}

  lemma {:induction false} NoNullFailure(fields: Fields, e: Expr, span: Span)
    requires NothingNullable(fields) && NoTryNumber(e) && TypeOf(fields, e).Some?
    ensures !CanFail(fields, e, NullNotAllowed, span)
    decreases e, 1
  {
    match e
    case Literal(_, _) =>
    case Field(_, _) =>
    case Not(operand, _) =>
      NoNullFailure(fields, operand, span);
      if Nullable(fields, operand) {
        OnlyNullIsNullable(fields, operand);
      }
    case Binary(_, left, right, _) =>
      NoNullFailure(fields, left, span);
      NoNullFailure(fields, right, span);
      if Nullable(fields, left) {
        OnlyNullIsNullable(fields, left);
      }
      if Nullable(fields, right) {
        OnlyNullIsNullable(fields, right);
      }
    case Membership(candidate, _, _) => NoNullFailure(fields, candidate, span);
    case Call(builtin, args, _) => NoNullArguments(fields, builtin, args, 0, span);
  }

  lemma {:induction false} NoNullArguments(fields: Fields, builtin: Builtin, args: seq<Expr>, k: nat, span: Span)
    requires NothingNullable(fields) && NoTryNumberAll(args)
    requires k + |args| <= |Parameters(builtin)| && ArgumentsSuit(fields, builtin, args, k)
    ensures !AnyCanFail(fields, args, NullNotAllowed, span)
    ensures !AcceptsNull(builtin) ==> forall n | 0 <= n < |args| :: !Nullable(fields, args[n])
    decreases args, 0
  {
    if args != [] {
      NoNullFailure(fields, args[0], span);
      NoNullArguments(fields, builtin, args[1..], k + 1, span);
      if Nullable(fields, args[0]) {
        OnlyNullIsNullable(fields, args[0]);
      }
      assert forall n | 0 < n < |args| :: args[n] == args[1..][n - 1];
    }
  }

  /** An accepted expression without `tryNumber` never fails on null when no field is nullable. */
  lemma NeverFailsOnNull(host: Host, fields: Fields, env: Env, e: Expr)
    requires HostSane(host) && Conforms(fields, env) && Bounded(e) && TypeOf(fields, e).Some?
    requires NothingNullable(fields) && NoTryNumber(e)
    ensures var r := Eval(host, env, e, 0).0; r.Failed? ==> !r.code.NullNotAllowed?
  {
    TypeSoundness(host, fields, env, e);
    EvalSpends(host, env, e, 0);
    var m := Means(host, env, e);
    if m.Failed? {
      NoNullFailure(fields, e, m.span);
    }
  }

  // ------------------------------------------------------------ non-interference

  /** Both records have the names, with the same values. */
  ghost predicate AgreeOn(names: seq<Utf16>, env: Env, other: Env) {
    forall name | name in names :: name in env && name in other && env[name] == other[name]
  }

  /** The same result and the same work on both records. */
  ghost predicate SameRun(host: Host, env: Env, other: Env, e: Expr) {
    Means(host, env, e) == Means(host, other, e) && Charges(host, env, e) == Charges(host, other, e)
  }

  lemma {:induction false} SameOnMentions(host: Host, fields: Fields, env: Env, other: Env, e: Expr)
    requires TypeOf(fields, e).Some? && AgreeOn(AnalyzerLaws.Mentions(fields, e), env, other)
    ensures SameRun(host, env, other, e)
    decreases e, 1
  {
    match e
    case Literal(_, _) =>
    case Field(name, _) => assert name in [name];
    case Not(operand, _) => SameOnMentions(host, fields, env, other, operand);
    case Binary(_, left, right, _) =>
      SameOnMentions(host, fields, env, other, left);
      SameOnMentions(host, fields, env, other, right);
    case Membership(candidate, _, _) => SameOnMentions(host, fields, env, other, candidate);
    case Call(builtin, args, _) => SameOnAll(host, fields, env, other, builtin, args, 0);
  }

  lemma {:induction false} SameOnAll(host: Host, fields: Fields, env: Env, other: Env,
                                     builtin: Builtin, args: seq<Expr>, k: nat)
    requires k + |args| <= |Parameters(builtin)| && ArgumentsSuit(fields, builtin, args, k)
    requires AgreeOn(AnalyzerLaws.MentionsAll(fields, args), env, other)
    ensures MeansAll(host, env, args) == MeansAll(host, other, args)
    ensures ChargesAll(host, env, args) == ChargesAll(host, other, args)
    decreases args, 0
  {
    if args != [] {
      SameOnMentions(host, fields, env, other, args[0]);
      SameOnAll(host, fields, env, other, builtin, args[1..], k + 1);
    }
  }

  /** Records that agree on the referenced fields give identical outcomes, failures included. */
  lemma NonInterference(host: Host, fields: Fields, env: Env, other: Env, e: Expr)
    requires TypeOf(fields, e).Some?
    requires AgreeOn(AnalyzerLaws.ReferAll([], AnalyzerLaws.Mentions(fields, e)), env, other)
    ensures Eval(host, env, e, 0) == Eval(host, other, e, 0)
  {
    AnalyzerLaws.ReferencesAreFirstMentions(AnalyzerLaws.Mentions(fields, e));
    SameOnMentions(host, fields, env, other, e);
    EvalSpends(host, env, e, 0);
    EvalSpends(host, other, e, 0);
  }

  // ------------------------------------------------------------- size and budget

  predicate CallFree(e: Expr)
    decreases e
  {
    match e
    case Literal(_, _) => true
    case Field(_, _) => true
    case Not(operand, _) => CallFree(operand)
    case Binary(_, left, right, _) => CallFree(left) && CallFree(right)
    case Membership(candidate, _, _) => CallFree(candidate)
    case Call(_, _, _) => false
  }

  lemma {:induction false} TotalConcat(a: seq<Charge>, b: seq<Charge>)
    ensures Total(a + b) == Total(a) + Total(b)
  {
    if a == [] {
      assert a + b == b;
    } else {
      assert (a + b)[1..] == a[1..] + b;
      TotalConcat(a[1..], b);
    }
  }

  /** Without calls, evaluation visits each node at most once and does no other work. */
  lemma {:induction false} WorkWithinSize(host: Host, env: Env, e: Expr)
    requires CallFree(e)
    ensures Total(Charges(host, env, e)) <= Nodes(e)
    decreases e
  {
    TotalConcat([Charge(1, e.span)], NodeCharges(host, env, e));
    match e
    case Literal(_, _) =>
    case Field(_, _) =>
    case Not(operand, _) => WorkWithinSize(host, env, operand);
    case Binary(_, left, right, _) =>
      WorkWithinSize(host, env, left);
      WorkWithinSize(host, env, right);
      TotalConcat(Charges(host, env, left), Charges(host, env, right));
    case Membership(candidate, members, _) =>
      WorkWithinSize(host, env, candidate);
      var r := Means(host, env, candidate);
      var charges := if r.Ok? then MemberCharges(r.value, members) else [];
      TotalConcat(Charges(host, env, candidate), charges);
      if r.Ok? {
        MembersWithinSize(r.value, members);
      }
  }

  lemma {:induction false} MembersWithinSize(value: Value, members: seq<LiteralNode>)
    ensures Total(MemberCharges(value, members)) <= |members|
    decreases |members|
  {
    if members != [] {
      var rest := if value == members[0].value then [] else MemberCharges(value, members[1..]);
      TotalConcat([Charge(1, members[0].span)], rest);
      MembersWithinSize(value, members[1..]);
    }
  }
}
