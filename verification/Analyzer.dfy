/** The static checker: one visit that collects references and bounded, sorted diagnostics. */
module Analyzer {
  import opened Basics
  import opened Text
  import opened Syntax
  import opened Types

  datatype AnalysisResult =
    | Accepted(resultType: TypeInfo, references: seq<Utf16>)
    | Rejected(diagnostics: seq<Diagnostic>)
    | NoVerdict  // the internal error of a visit that found neither a type nor a diagnostic

  /** What the visit has collected so far. */
  datatype Findings = Findings(
    references: seq<Utf16>,
    diagnostics: seq<Diagnostic>,
    keys: set<Diagnostic>,
    syntax: Option<Diagnostic>
  )

  /** Position of a code in the alphabetical order of the code strings. */
  function CodeRank(code: Code): nat {
    match code
    case EvaluationStepLimitExceeded => 0
    case ExpectedResultTypeMismatch => 1
    case FieldNameTooLong => 2
    case InvalidArgumentCount => 3
    case InvalidCharacter => 4
    case InvalidNumber => 5
    case InvalidString => 6
    case NestingLimitExceeded => 7
    case NullNotAllowed => 8
    case SourceTooLong => 9
    case StringLiteralTooLong => 10
    case StringValueLimitExceeded => 11
    case TokenLimitExceeded => 12
    case TypeMismatch => 13
    case UnexpectedToken => 14
    case UnknownField => 15
  }

  predicate Before(a: Diagnostic, b: Diagnostic) {
    if a.span.start != b.span.start then a.span.start < b.span.start
    else if a.span.end != b.span.end then a.span.end < b.span.end
    else CodeRank(a.code) < CodeRank(b.code)
  }

  /** A sorted list after one more diagnostic is pushed and the list is sorted again. */
  function PushSorted(ds: seq<Diagnostic>, d: Diagnostic): (r: seq<Diagnostic>)
    ensures |r| == |ds| + 1
  {
    if ds == [] || !Before(d, ds[|ds| - 1]) then ds + [d]
    else PushSorted(ds[..|ds| - 1], d) + [ds[|ds| - 1]]
  }

  function Report(source: Utf16, f: Findings, code: Code, span: Span): Findings {
    var key := Diagnostic(code, span);
    if key in f.keys then f
    else
      var pushed := PushSorted(f.diagnostics, SourceDiagnostic(source, code, span.start, span.end));
      f.(keys := f.keys + {key},
         diagnostics := if |pushed| > MAX_SEMANTIC_DIAGNOSTICS then pushed[..|pushed| - 1] else pushed)
  }

  function ReportIf(bad: bool, source: Utf16, f: Findings, code: Code, span: Span): Findings {
    if bad then Report(source, f, code, span) else f
  }

  /** A built-in name written as a field, without brackets. */
  predicate IsBareBuiltin(source: Utf16, name: Utf16, span: Span) {
    GetBuiltin(name).Some? && !(span.start < |source| && source[span.start] == OPEN_BRACKET)
  }

  function Refer(references: seq<Utf16>, name: Utf16): seq<Utf16> {
    if name in references then references else references + [name]
  }

  function Visit(source: Utf16, fields: Fields, e: Expr, f: Findings): (Findings, Option<TypeInfo>)
    decreases e, 2
  {
    if f.syntax.Some? then (f, None) else VisitNode(source, fields, e, f)
  }

  function VisitNode(source: Utf16, fields: Fields, e: Expr, f: Findings): (Findings, Option<TypeInfo>)
    decreases e, 1
  {
    match e
    case Literal(value, _) => (f, Some(LiteralType(value)))
    case Field(name, span) =>
      if name in fields then (f.(references := Refer(f.references, name)), Some(fields[name]))
      else if IsBareBuiltin(source, name, span) then
        (f.(syntax := Some(SourceDiagnostic(source, UnexpectedToken, span.start, span.end))), None)
      else (Report(source, f, UnknownField, span), None)
    case Not(operand, span) =>
      var (g, t) := Visit(source, fields, operand, f);
      if t.None? then (g, None)
      else (ReportIf(!t.value.kind.BooleanType?, source, g, TypeMismatch, span), Some(BOOLEAN))
    case Binary(op, left, right, span) =>
      var (g, l) := Visit(source, fields, left, f);
      var (h, r) := Visit(source, fields, right, g);
      if l.None? || r.None? then (h, None)
      else (ReportIf(!OperandsSuit(op, l.value, r.value), source, h, TypeMismatch, span), Some(BOOLEAN))
    case Membership(candidate, members, _) =>
      var (g, t) := Visit(source, fields, candidate, f);
      if t.None? then (g, None) else (ReportMembers(source, t.value, members, g), Some(BOOLEAN))
    case Call(builtin, args, span) =>
      var (g, types) := VisitAll(source, fields, args, f);
      if |args| != |Parameters(builtin)| then
        (Report(source, g, InvalidArgumentCount, span), Some(ResultType(builtin)))
      else (ReportArguments(source, builtin, args, types, 0, g), Some(ResultType(builtin)))
  }

  function VisitAll(source: Utf16, fields: Fields, es: seq<Expr>, f: Findings): (r: (Findings, seq<Option<TypeInfo>>))
    ensures |r.1| == |es|
    decreases es, 0
  {
    if es == [] then (f, [])
    else
      var (g, t) := Visit(source, fields, es[0], f);
      var (h, ts) := VisitAll(source, fields, es[1..], g);
      (h, [t] + ts)
  }

  function ReportMembers(source: Utf16, t: TypeInfo, members: seq<LiteralNode>, f: Findings): Findings {
    if members == [] then f
    else
      var bad := !EqualityCompatible(t, LiteralType(members[0].value));
      ReportMembers(source, t, members[1..], ReportIf(bad, source, f, TypeMismatch, members[0].span))
  }

  predicate ArgumentBad(builtin: Builtin, k: nat, t: Option<TypeInfo>)
    requires k < |Parameters(builtin)|
  {
    t.Some? && !ArgumentCompatible(t.value, Parameters(builtin)[k], AcceptsNull(builtin))
  }

  function ReportArguments(source: Utf16, builtin: Builtin, args: seq<Expr>, types: seq<Option<TypeInfo>>,
                           k: nat, f: Findings): Findings
    requires |args| == |types| == |Parameters(builtin)| && k <= |args|
    decreases |args| - k
  {
    if k == |args| then f
    else
      var g := ReportIf(ArgumentBad(builtin, k, types[k]), source, f, TypeMismatch, args[k].span);
      ReportArguments(source, builtin, args, types, k + 1, g)
  }

  const NOTHING: Findings := Findings([], [], {}, None)

  /** Whether the inferred type misses the expected one; only a null literal may be nullable. */
  predicate MissesExpected(t: TypeInfo, expected: Option<Type>) {
    expected.Some? && (t.kind != expected.value || (t.nullable && !t.kind.NullType?))
  }

  /** The verdict on what a finished visit has collected. */
  function Verdict(source: Utf16, e: Expr, expected: Option<Type>, f: Findings, t: Option<TypeInfo>): AnalysisResult {
    if f.syntax.Some? then Rejected([f.syntax.value])
    else
      var g := ReportIf(t.Some? && MissesExpected(t.value, expected), source, f, ExpectedResultTypeMismatch, e.span);
      if g.diagnostics != [] then Rejected(g.diagnostics)
      else if t.None? then NoVerdict
      else Accepted(t.value, f.references)
  }

  function Analysis(source: Utf16, e: Expr, schema: seq<SchemaEntry>, expected: Option<Type>): AnalysisResult {
    var (f, t) := Visit(source, FieldsOf(schema), e, NOTHING);
    Verdict(source, e, expected, f, t)
  }

  // ---------------------------------------------------------------------- code

  class Checker {
    const source: Utf16
    const fields: Fields
    var references: seq<Utf16>
    var seen: set<Utf16>
    var diagnostics: seq<Diagnostic>
    var keys: set<Diagnostic>
    var syntax: Option<Diagnostic>

    ghost predicate Valid()
      reads this
    {
      seen == set name | name in references
    }

    function Collected(): Findings
      reads this
    {
      Findings(references, diagnostics, keys, syntax)
    }

    constructor (source: Utf16, fields: Fields)
      ensures Valid() && Collected() == NOTHING && this.source == source && this.fields == fields
    {
      this.source, this.fields := source, fields;
      references, seen, diagnostics, keys, syntax := [], {}, [], {}, None;
    }

    method AddDiagnostic(code: Code, span: Span)
      requires Valid()
      modifies this`diagnostics, this`keys
      ensures Valid() && Collected() == Report(source, old(Collected()), code, span)
    {
      var key := Diagnostic(code, span);
      if key in keys {
        return;
      }
      keys := keys + {key};
      diagnostics := PushSorted(diagnostics, SourceDiagnostic(source, code, span.start, span.end));
      if |diagnostics| > MAX_SEMANTIC_DIAGNOSTICS {
        diagnostics := diagnostics[..|diagnostics| - 1];
      }
    }

    method VisitExpr(e: Expr) returns (t: Option<TypeInfo>)
      requires Valid()
      modifies this
      ensures Valid() && (Collected(), t) == Visit(source, fields, e, old(Collected()))
      decreases e, 1
    {
      if syntax.Some? {
        return None;
      }
      match e
      case Literal(value, _) =>
        t := Some(LiteralType(value));
      case Field(name, span) =>
        t := VisitField(name, span);
      case Not(operand, span) =>
        var inner := VisitExpr(operand);
        if inner.Some? && !inner.value.kind.BooleanType? {
          AddDiagnostic(TypeMismatch, span);
        }
        t := if inner.Some? then Some(BOOLEAN) else None;
      case Binary(op, left, right, span) =>
        var l := VisitExpr(left);
        var r := VisitExpr(right);
        if l.None? || r.None? {
          return None;
        }
        if !OperandsSuit(op, l.value, r.value) {
          AddDiagnostic(TypeMismatch, span);
        }
        t := Some(BOOLEAN);
      case Membership(candidate, members, _) =>
        var value := VisitExpr(candidate);
        if value.Some? {
          CheckMembers(value.value, members);
        }
        t := if value.Some? then Some(BOOLEAN) else None;
      case Call(builtin, args, span) =>
        var types := VisitArguments(args);
        if |args| != |Parameters(builtin)| {
          AddDiagnostic(InvalidArgumentCount, span);
        } else {
          CheckArguments(builtin, args, types);
        }
        t := Some(ResultType(builtin));
    }

    method VisitField(name: Utf16, span: Span) returns (t: Option<TypeInfo>)
      requires Valid() && syntax.None?
      modifies this
      ensures Valid() && (Collected(), t) == VisitNode(source, fields, Field(name, span), old(Collected()))
    {
      if name !in fields {
        if IsBareBuiltin(source, name, span) {
          syntax := Some(SourceDiagnostic(source, UnexpectedToken, span.start, span.end));
        } else {
          AddDiagnostic(UnknownField, span);
        }
        return None;
      }
      if name !in seen {
        seen := seen + {name};
        references := references + [name];
      }
      t := Some(fields[name]);
    }

    method CheckMembers(t: TypeInfo, members: seq<LiteralNode>)
      requires Valid()
      modifies this`diagnostics, this`keys
      ensures Valid() && Collected() == ReportMembers(source, t, members, old(Collected()))
    {
      for index := 0 to |members|
        invariant Valid()
        invariant ReportMembers(source, t, members[index..], Collected())
               == ReportMembers(source, t, members, old(Collected()))
      {
        assert members[index..][1..] == members[index + 1..];
        if !EqualityCompatible(t, LiteralType(members[index].value)) {
          AddDiagnostic(TypeMismatch, members[index].span);
        }
      }
    }

    method VisitArguments(args: seq<Expr>) returns (types: seq<Option<TypeInfo>>)
      requires Valid()
      modifies this
      ensures Valid() && (Collected(), types) == VisitAll(source, fields, args, old(Collected()))
      decreases args, 0
    {
      types := [];
      ghost var all := VisitAll(source, fields, args, Collected());
      assert args[0..] == args;
      for index := 0 to |args|
        invariant Valid() && |types| == index
        invariant VisitAll(source, fields, args[index..], Collected()).0 == all.0
        invariant types + VisitAll(source, fields, args[index..], Collected()).1 == all.1
      {
        assert args[index..][1..] == args[index + 1..];
        assert args[index] in args;
        ghost var rest := VisitAll(source, fields, args[index..], Collected()).1;
        var t := VisitExpr(args[index]);
        assert types + rest == types + [t] + rest[1..];
        types := types + [t];
      }
      assert types + [] == types;
    }

    method CheckArguments(builtin: Builtin, args: seq<Expr>, types: seq<Option<TypeInfo>>)
      requires Valid() && |args| == |types| == |Parameters(builtin)|
      modifies this`diagnostics, this`keys
      ensures Valid() && Collected() == ReportArguments(source, builtin, args, types, 0, old(Collected()))
    {
      for index := 0 to |args|
        invariant Valid()
        invariant ReportArguments(source, builtin, args, types, index, Collected())
               == ReportArguments(source, builtin, args, types, 0, old(Collected()))
      {
        if ArgumentBad(builtin, index, types[index]) {
          AddDiagnostic(TypeMismatch, args[index].span);
        }
      }
    }
  }

  /** Checks one expression against a schema and an optional expected result. */
  method Analyze(source: Utf16, e: Expr, schema: seq<SchemaEntry>, expected: Option<Type>)
    returns (r: AnalysisResult)
    ensures r == Analysis(source, e, schema, expected)
  {
    var checker := new Checker(source, FieldsOf(schema));
    var t := checker.VisitExpr(e);
    if checker.syntax.Some? {
      return Rejected([checker.syntax.value]);
    }
    if t.Some? && MissesExpected(t.value, expected) {
      checker.AddDiagnostic(ExpectedResultTypeMismatch, e.span);
    }
    if checker.diagnostics != [] {
      return Rejected(checker.diagnostics);
    }
    if t.None? {
      return NoVerdict;
    }
    r := Accepted(t.value, checker.references);
  }
}
