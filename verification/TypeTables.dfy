/** The typing tables by the values they let through. */
module TypeTables {
  import opened Basics
  import opened Text
  import opened Syntax
  import opened Types
  import opened Records
  import opened Evaluator
  import opened Analyzer

  /** A value of the type other than null. */
  predicate Inhabits(value: Value, kind: Type) { !value.Null? && ValueFits(value, TypeInfo(kind, false)) }

  /** One value of each type that can have any. */
  lemma Samples(kind: Type)
    ensures Inhabits(Str([]), kind) <==> kind.StringType? || kind.ScalarType?
    ensures Inhabits(Number(0.0), kind) <==> kind.NumberType? || kind.ScalarType?
    ensures Inhabits(Boolean(true), kind) <==> kind.BooleanType?
  {}

  /** An argument suits its parameter exactly when every value it can have, null aside, is one of the parameter's. */
  lemma ArgumentTable(actual: TypeInfo, parameter: Type, acceptsNull: bool)
    ensures
      ArgumentCompatible(actual, parameter, acceptsNull)
      <==> if actual.kind.NullType? then acceptsNull
           else forall value :: Inhabits(value, actual.kind) ==> Inhabits(value, parameter)
  {
    Samples(actual.kind);
    Samples(parameter);
  }

  ghost predicate OnlyBooleans(t: TypeInfo) {
    !t.kind.NullType? && forall value :: Inhabits(value, t.kind) ==> value.Boolean?
  }

  ghost predicate OnlyNumbers(t: TypeInfo) {
    !t.kind.NullType? && forall value :: Inhabits(value, t.kind) ==> value.Number?
  }

  /** AND and OR want operands that are Boolean where they are not null, and the orderings numbers. */
  lemma OperandTable(op: BinaryOp, left: TypeInfo, right: TypeInfo)
    ensures op.And? || op.Or? ==> (OperandsSuit(op, left, right) <==> OnlyBooleans(left) && OnlyBooleans(right))
    ensures op.Less? || op.LessEqual? || op.Greater? || op.GreaterEqual? ==>
      (OperandsSuit(op, left, right) <==> OnlyNumbers(left) && OnlyNumbers(right))
    ensures op.Equal? || op.NotEqual? ==>
      (OperandsSuit(op, left, right)
       <==> || (forall value :: Inhabits(value, left.kind) <==> Inhabits(value, right.kind))
            || (left.kind.NullType? && right.nullable) || (right.kind.NullType? && left.nullable))
  {
    Samples(left.kind);
    Samples(right.kind);
  }

  /** A literal has the type of exactly its own kind of value. */
  lemma LiteralTable(literal: Value, value: Value)
    requires literal.Str? ==> |literal.s| <= 4096
    ensures ValueFits(literal, LiteralType(literal))
    ensures Inhabits(value, LiteralType(literal).kind) ==>
      (literal.Str? && value.Str?) || (literal.Number? && value.Number?) || (literal.Boolean? && value.Boolean?)
    ensures LiteralType(literal).nullable <==> literal.Null?
  {}

  /** The expected type is met exactly by types with the same values: no wider, no narrower and no nullable ones. */
  lemma ExpectedTable(t: TypeInfo, expected: Type)
    requires t.kind.NullType? ==> t.nullable
    ensures
      !MissesExpected(t, Some(expected))
      <==> forall value :: ValueFits(value, t) <==> ValueFits(value, TypeInfo(expected, expected.NullType?))
    ensures !MissesExpected(t, None)
  {
    Samples(t.kind);
    Samples(expected);
    assert ValueFits(Null, t) <==> t.nullable;
    if forall value :: ValueFits(value, t) <==> ValueFits(value, TypeInfo(expected, expected.NullType?)) {
      var u := TypeInfo(expected, expected.NullType?);
      assert ValueFits(Null, t) <==> ValueFits(Null, u);
      assert ValueFits(Str([]), t) <==> ValueFits(Str([]), u);
      assert ValueFits(Number(0.0), t) <==> ValueFits(Number(0.0), u);
      assert ValueFits(Boolean(true), t) <==> ValueFits(Boolean(true), u);
    }
  }

  // ---------------------------------------------------------------- the built-ins

  ghost predicate AllInhabit(values: seq<Value>, kinds: seq<Type>)
    requires |values| == |kinds|
  {
    forall k | 0 <= k < |values| :: Inhabits(values[k], kinds[k])
  }

  /** The parameters are exactly what a built-in takes without an internal error. `isEmpty` would take anything. */
  lemma ParameterTable(host: Host, b: Builtin, values: seq<Value>, span: Span)
    requires |values| == |Parameters(b)|
    requires forall k | 0 <= k < |values| :: !values[k].Null? && (values[k].Str? ==> |values[k].s| <= 4096)
    ensures !b.IsEmpty? ==>
      (AllInhabit(values, Parameters(b)) <==> !BuiltinWork(host, b, values, span).result.Broken?)
    ensures b.IsEmpty? ==>
      (AllInhabit(values, Parameters(b)) <==> values[0].Str?) && BuiltinWork(host, b, values, span).result.Ok?
  {
    assert |values| <= 2;
  }

  /** A built-in with one parameter is done with one text; one with two parameters misses the second. */
  lemma ArityTable(host: Host, b: Builtin, s: Utf16, span: Span)
    ensures |Parameters(b)| == 1 || |Parameters(b)| == 2
    ensures |Parameters(b)| == 1 <==> BuiltinWork(host, b, [Str(s)], span).result != Failed(NullNotAllowed, span)
  {}

  /** Null is accepted exactly where the built-in has an answer for it. */
  lemma NullTable(host: Host, b: Builtin, rest: seq<Value>, span: Span)
    ensures AcceptsNull(b) <==> BuiltinWork(host, b, [Null] + rest, span).result.Ok?
  {}

  /** The result type is that of every result but null, and null is a result exactly where the type says so. */
  lemma ResultTable(host: Host, b: Builtin, values: seq<Value>, span: Span)
    requires |values| == |Parameters(b)| && BuiltinWork(host, b, values, span).result.Ok?
    ensures
      var value := BuiltinWork(host, b, values, span).result.value;
      if value.Null? then ResultType(b).nullable && b.TryNumber?
      else match ResultType(b).kind
           case StringType => value.Str?
           case NumberType => value.Number?
           case BooleanType => value.Boolean?
           case _ => false
    ensures ResultType(b).nullable ==> BuiltinWork(host, b, [Str([])], span).result == Ok(Null)
  {
    assert |values| <= 2;
  }
}
