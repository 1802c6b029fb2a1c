/** The metered tree-walking evaluator. */
module Evaluator {
  import opened Basics
  import opened Text
  import opened Syntax
  import opened Lexer

  /** A value, a failure of the authored expression, or an internal error of the evaluator. */
  datatype Result<+T> = Ok(value: T) | Failed(code: Code, span: Span) | Broken {
    predicate IsFailure() { !Ok? }

    function PropagateFailure<U>(): (r: Result<U>)
      requires !Ok?
    {
      if Broken? then Broken else Failed(code, span)
    }

    function Extract(): T
      requires Ok?
    {
      value
    }
  }

  // ---------------------------------------------------------------- built-ins

  /** The effect of one built-in: at most one charge, and then the result. */
  datatype Work = Free(result: Result<Value>) | Costs(amount: nat, result: Result<Value>)

  function ArgumentOrNull(args: seq<Value>, k: nat): Value { if k < |args| then args[k] else Null }

  function RequiredString(value: Value, span: Span): Result<Utf16> {
    match value
    case Null => Failed(NullNotAllowed, span)
    case Str(s) => Ok(s)
    case _ => Broken
  }

  function RequiredScalar(value: Value, span: Span): Result<Value> {
    match value
    case Null => Failed(NullNotAllowed, span)
    case Boolean(_) => Broken
    case _ => Ok(value)
  }

  function CheckedDerived(s: Utf16, span: Span): Result<Utf16> {
    if |s| > MAX_STRING_LENGTH then Failed(StringValueLimitExceeded, span) else Ok(s)
  }

  function ParseFiniteDecimal(host: Host, s: Utf16): Value {
    if DecimalEnd(s, 0) == 0 || DecimalEnd(s, 0) != |s| then Null
    else match host.number(s)
      case Some(x) => Number(x)
      case None => Null
  }

  function TryNumberWork(host: Host, args: seq<Value>): Work {
    if args == [] then Free(Broken)
    else match args[0]
      case Null => Free(Ok(Null))
      case Number(_) => Free(Ok(args[0]))
      case Str(s) => Costs(|s|, Ok(ParseFiniteDecimal(host, s)))
      case Boolean(_) => Free(Broken)
  }

  function TextWork(host: Host, args: seq<Value>, span: Span): Work {
    match RequiredScalar(ArgumentOrNull(args, 0), span)
    case Ok(value) =>
      var text := if value.Number? then host.show(value.r) else if value.Str? then value.s else [];
      Costs(|text|, match CheckedDerived(text, span)
                    case Ok(checked) => Ok(Str(checked))
                    case Failed(code, at) => Failed(code, at)
                    case Broken => Broken)
    case Failed(code, at) => Free(Failed(code, at))
    case Broken => Free(Broken)
  }

  function IsBlankWork(args: seq<Value>, span: Span): Work {
    if args == [] then Free(Broken)
    else if args[0].Null? then Free(Ok(Boolean(true)))
    else match RequiredString(args[0], span)
      case Ok(s) => Costs(|s|, Ok(Boolean(|Trim(s)| == 0)))
      case Failed(code, at) => Free(Failed(code, at))
      case Broken => Free(Broken)
  }

  function IgnoringCase(host: Host, left: Utf16, right: Utf16, span: Span): Result<Value> {
    var l :- CheckedDerived(host.lower(left), span);
    var r :- CheckedDerived(host.lower(right), span);
    Ok(Boolean(l == r))
  }

  function TwoStringsWork(host: Host, b: Builtin, args: seq<Value>, span: Span): Work {
    match RequiredString(ArgumentOrNull(args, 0), span)
    case Failed(code, at) => Free(Failed(code, at))
    case Broken => Free(Broken)
    case Ok(s) =>
      match RequiredString(ArgumentOrNull(args, 1), span)
      case Failed(code, at) => Free(Failed(code, at))
      case Broken => Free(Broken)
      case Ok(t) =>
        if b.EqualsIgnoreCase? then Costs(|s| + |t| + Max(|s|, |t|), IgnoringCase(host, s, t, span))
        else if b.Contains? then Costs(|s| + |t|, Ok(Boolean(Includes(s, t))))
        else if b.StartsWithFn? then Costs(|s| + |t|, Ok(Boolean(StartsWith(s, t))))
        else Costs(|s| + |t|, Ok(Boolean(EndsWith(s, t))))
  }

  function Derived(s: Utf16, span: Span): Result<Value> {
    var checked :- CheckedDerived(s, span);
    Ok(Str(checked))
  }

  function OneStringWork(host: Host, b: Builtin, args: seq<Value>, span: Span): Work {
    match RequiredString(ArgumentOrNull(args, 0), span)
    case Failed(code, at) => Free(Failed(code, at))
    case Broken => Free(Broken)
    case Ok(s) =>
      Costs(|s|, if b.TrimFn? then Derived(Trim(s), span)
                 else if b.Lower? then Derived(host.lower(s), span)
                 else if b.Upper? then Derived(host.upper(s), span)
                 else Ok(Number(CodePoints(s) as real)))
  }

  predicate TakesTwoStrings(b: Builtin) { b.Contains? || b.StartsWithFn? || b.EndsWithFn? || b.EqualsIgnoreCase? }

  /** One call after its arguments have been visited, the failures being placed at `span`. */
  function BuiltinWork(host: Host, b: Builtin, args: seq<Value>, span: Span): Work {
    if b.TryNumber? then TryNumberWork(host, args)
    else if b.TextFn? then TextWork(host, args, span)
    else if b.IsEmpty? then Free(Ok(Boolean(args != [] && (args[0] == Null || args[0] == Str([])))))
    else if b.IsBlank? then IsBlankWork(args, span)
    else if TakesTwoStrings(b) then TwoStringsWork(host, b, args, span)
    else OneStringWork(host, b, args, span)
  }

  // -------------------------------------------------------------- operators

  function RequireBoolean(value: Value, span: Span): Result<bool> {
    match value
    case Null => Failed(NullNotAllowed, span)
    case Boolean(b) => Ok(b)
    case _ => Broken
  }

  /** An ordering comparison of two visited operands: nulls are reported before other types. */
  function Compare(op: BinaryOp, left: Value, right: Value, span: Span): Result<Value> {
    if left.Null? || right.Null? then Failed(NullNotAllowed, span)
    else if !left.Number? || !right.Number? then Broken
    else if op.Less? then Ok(Boolean(left.r < right.r))
    else if op.LessEqual? then Ok(Boolean(left.r <= right.r))
    else if op.Greater? then Ok(Boolean(left.r > right.r))
    else Ok(Boolean(left.r >= right.r))
  }

  function Relate(op: BinaryOp, left: Value, right: Value, span: Span): Result<Value> {
    if op.Equal? then Ok(Boolean(left == right))
    else if op.NotEqual? then Ok(Boolean(left != right))
    else Compare(op, left, right, span)
  }

  predicate IsLogical(op: BinaryOp) { op.And? || op.Or? }

  /** Whether the left operand alone decides: false for AND, true for OR. */
  predicate Decides(op: BinaryOp, left: bool) { left == op.Or? }

  // ------------------------------------------------------ metered evaluation

  type Env = map<Utf16, Value>

  /** Spends `amount` steps and goes on with `result`, unless that crosses the limit. */
  function Charged<T>(steps: nat, amount: nat, span: Span, result: Result<T>): (Result<T>, nat) {
    if steps + amount > MAX_EVALUATION_STEPS then (Failed(EvaluationStepLimitExceeded, span), steps)
    else (result, steps + amount)
  }

  function Perform(work: Work, span: Span, steps: nat): (Result<Value>, nat) {
    match work
    case Free(result) => (result, steps)
    case Costs(amount, result) => Charged(steps, amount, span, result)
  }

  /** The outcome of visiting `e` with `steps` already spent, and the steps spent after it. */
  function Eval(host: Host, env: Env, e: Expr, steps: nat): (Result<Value>, nat)
    decreases e, 2
  {
    if steps + 1 > MAX_EVALUATION_STEPS then (Failed(EvaluationStepLimitExceeded, e.span), steps)
    else EvalNode(host, env, e, steps + 1)
  }

  function EvalNode(host: Host, env: Env, e: Expr, steps: nat): (Result<Value>, nat)
    decreases e, 1
  {
    match e
    case Literal(value, _) => (Ok(value), steps)
    case Field(name, _) => (if name in env then Ok(env[name]) else Broken, steps)
    case Not(operand, span) =>
      var (r, s) := Eval(host, env, operand, steps);
      if !r.Ok? then (r, s)
      else (match RequireBoolean(r.value, span)
            case Ok(b) => Ok(Boolean(!b))
            case Failed(code, at) => Failed(code, at)
            case Broken => Broken, s)
    case Binary(op, left, right, span) =>
      var (l, s) := Eval(host, env, left, steps);
      if !l.Ok? then (l, s)
      else if IsLogical(op) then
        match RequireBoolean(l.value, span)
        case Failed(code, at) => (Failed(code, at), s)
        case Broken => (Broken, s)
        case Ok(b) =>
          if Decides(op, b) then (Ok(Boolean(b)), s)
          else
            var (r, u) := Eval(host, env, right, s);
            if !r.Ok? then (r, u)
            else (match RequireBoolean(r.value, span)
                  case Ok(c) => Ok(Boolean(c))
                  case Failed(code, at) => Failed(code, at)
                  case Broken => Broken, u)
      else
        var (r, u) := Eval(host, env, right, s);
        if !r.Ok? then (r, u) else (Relate(op, l.value, r.value, span), u)
    case Membership(candidate, members, _) =>
      var (r, s) := Eval(host, env, candidate, steps);
      if !r.Ok? then (r, s) else EvalMembers(r.value, members, s)
    case Call(builtin, args, span) =>
      var (r, s) := EvalAll(host, env, args, steps);
      match r
      case Ok(values) => Perform(BuiltinWork(host, builtin, values, span), span, s)
      case Failed(code, at) => (Failed(code, at), s)
      case Broken => (Broken, s)
  }

  function EvalAll(host: Host, env: Env, es: seq<Expr>, steps: nat): (Result<seq<Value>>, nat)
    decreases es, 0
  {
    if es == [] then (Ok([]), steps)
    else
      var (r, s) := Eval(host, env, es[0], steps);
      match r
      case Failed(code, at) => (Failed(code, at), s)
      case Broken => (Broken, s)
      case Ok(value) =>
        var (rest, u) := EvalAll(host, env, es[1..], s);
        match rest
        case Failed(code, at) => (Failed(code, at), u)
        case Broken => (Broken, u)
        case Ok(values) => (Ok([value] + values), u)
  }

  function EvalMembers(candidate: Value, members: seq<LiteralNode>, steps: nat): (Result<Value>, nat)
    decreases |members|
  {
    if members == [] then (Ok(Boolean(false)), steps)
    else if steps + 1 > MAX_EVALUATION_STEPS then
      (Failed(EvaluationStepLimitExceeded, members[0].span), steps)
    else if candidate == members[0].value then (Ok(Boolean(true)), steps + 1)
    else EvalMembers(candidate, members[1..], steps + 1)
  }

  // ---------------------------------------------------------------------- code

  class Interpreter {
    const host: Host
    const env: Env
    var steps: nat

    constructor (host: Host, env: Env)
      ensures this.host == host && this.env == env && steps == 0
    {
      this.host, this.env, steps := host, env, 0;
    }

    method Charge(amount: nat, span: Span) returns (r: Result<()>)
      modifies this
      ensures (r, steps) == Charged(old(steps), amount, span, Ok(()))
    {
      if steps + amount > MAX_EVALUATION_STEPS {
        return Failed(EvaluationStepLimitExceeded, span);
      }
      steps := steps + amount;
      r := Ok(());
    }

    method Visit(e: Expr) returns (r: Result<Value>)
      modifies this
      ensures (r, steps) == Eval(host, env, e, old(steps))
      decreases e, 1
    {
      var charged := Charge(1, e.span);
      if !charged.Ok? {
        return charged.PropagateFailure();
      }
      match e
      case Literal(value, _) =>
        r := Ok(value);
      case Field(name, _) =>
        r := if name in env then Ok(env[name]) else Broken;
      case Not(operand, span) =>
        r := Visit(operand);
        if r.Ok? {
          match RequireBoolean(r.value, span)
          case Ok(b) => r := Ok(Boolean(!b));
          case Failed(code, at) => r := Failed(code, at);
          case Broken => r := Broken;
        }
      case Binary(op, left, right, span) =>
        r := VisitBinary(op, left, right, span);
      case Membership(candidate, members, _) =>
        r := Visit(candidate);
        if r.Ok? {
          r := VisitMembers(r.value, members);
        }
      case Call(builtin, args, span) =>
        var values := VisitArguments(args);
        if !values.Ok? {
          return values.PropagateFailure();
        }
        r := CallBuiltin(builtin, values.value, span);
    }

    method VisitBinary(op: BinaryOp, left: Expr, right: Expr, span: Span) returns (r: Result<Value>)
      modifies this
      ensures (r, steps) == EvalNode(host, env, Binary(op, left, right, span), old(steps))
      decreases Binary(op, left, right, span), 0
    {
      var l := Visit(left);
      if !l.Ok? {
        return l;
      }
      if IsLogical(op) {
        var b := RequireBoolean(l.value, span);
        if !b.Ok? {
          return b.PropagateFailure();
        }
        if Decides(op, b.value) {
          return Ok(Boolean(b.value));
        }
        r := Visit(right);
        if r.Ok? {
          match RequireBoolean(r.value, span)
          case Ok(c) => r := Ok(Boolean(c));
          case Failed(code, at) => r := Failed(code, at);
          case Broken => r := Broken;
        }
        return;
      }
      r := Visit(right);
      if r.Ok? {
        r := Relate(op, l.value, r.value, span);
      }
    }

    method VisitMembers(candidate: Value, members: seq<LiteralNode>) returns (r: Result<Value>)
      modifies this
      ensures (r, steps) == EvalMembers(candidate, members, old(steps))
    {
      assert members[0..] == members;
      for index := 0 to |members|
        invariant EvalMembers(candidate, members[index..], steps) == EvalMembers(candidate, members, old(steps))
      {
        assert members[index..][1..] == members[index + 1..];
        var charged := Charge(1, members[index].span);
        if !charged.Ok? {
          return charged.PropagateFailure();
        }
        if candidate == members[index].value {
          return Ok(Boolean(true));
        }
      }
      r := Ok(Boolean(false));
    }

    method VisitArguments(args: seq<Expr>) returns (r: Result<seq<Value>>)
      modifies this
      ensures (r, steps) == EvalAll(host, env, args, old(steps))
      decreases args, 0
    {
      if args == [] {
        return Ok([]);
      }
      var first := Visit(args[0]);
      if !first.Ok? {
        return first.PropagateFailure();
      }
      var rest := VisitArguments(args[1..]);
      if !rest.Ok? {
        return rest;
      }
      r := Ok([first.value] + rest.value);
    }

    /** Runs one built-in: the null and type checks, the charge, then the derived result. */
    method CallBuiltin(b: Builtin, args: seq<Value>, span: Span) returns (r: Result<Value>)
      modifies this
      ensures (r, steps) == Perform(BuiltinWork(host, b, args, span), span, old(steps))
    {
      if b.IsEmpty? {
        return Ok(Boolean(args != [] && (args[0] == Null || args[0] == Str([]))));
      }
      if b.TryNumber? || b.IsBlank? {
        if args == [] {
          return Broken;
        }
        if args[0].Null? {
          return Ok(if b.IsBlank? then Boolean(true) else Null);
        }
        if b.TryNumber? && args[0].Number? {
          return Ok(args[0]);
        }
        if !args[0].Str? {
          return Broken;
        }
        var s := args[0].s;
        var charged := Charge(|s|, span);
        if !charged.Ok? {
          return charged.PropagateFailure();
        }
        return Ok(if b.IsBlank? then Boolean(|Trim(s)| == 0) else ParseFiniteDecimal(host, s));
      }
      if b.TextFn? {
        var scalar := RequiredScalar(ArgumentOrNull(args, 0), span);
        if !scalar.Ok? {
          return scalar;
        }
        var text := if scalar.value.Number? then host.show(scalar.value.r) else scalar.value.s;
        var charged := Charge(|text|, span);
        if !charged.Ok? {
          return charged.PropagateFailure();
        }
        return Derived(text, span);
      }
      r := CallOnStrings(b, args, span);
    }

    method CallOnStrings(b: Builtin, args: seq<Value>, span: Span) returns (r: Result<Value>)
      requires !b.IsEmpty? && !b.TryNumber? && !b.IsBlank? && !b.TextFn?
      modifies this
      ensures (r, steps) == Perform(BuiltinWork(host, b, args, span), span, old(steps))
    {
      var first := RequiredString(ArgumentOrNull(args, 0), span);
      if !first.Ok? {
        return first.PropagateFailure();
      }
      var s := first.value;
      if TakesTwoStrings(b) {
        var second := RequiredString(ArgumentOrNull(args, 1), span);
        if !second.Ok? {
          return second.PropagateFailure();
        }
        var t := second.value;
        var charged := Charge(if b.EqualsIgnoreCase? then |s| + |t| + Max(|s|, |t|) else |s| + |t|, span);
        if !charged.Ok? {
          return charged.PropagateFailure();
        }
        return if b.EqualsIgnoreCase? then IgnoringCase(host, s, t, span)
          else if b.Contains? then Ok(Boolean(Includes(s, t)))
          else if b.StartsWithFn? then Ok(Boolean(StartsWith(s, t)))
          else Ok(Boolean(EndsWith(s, t)));
      }
      var charged := Charge(|s|, span);
      if !charged.Ok? {
        return charged.PropagateFailure();
      }
      if b.Length? {
        var count := CountCodePoints(s);
        return Ok(Number(count as real));
      }
      r := if b.TrimFn? then Derived(Trim(s), span)
           else if b.Lower? then Derived(host.lower(s), span)
           else Derived(host.upper(s), span);
    }

    /** Counts code points by stepping over the text. */
    method CountCodePoints(s: Utf16) returns (count: nat)
      ensures count == CodePoints(s)
    {
      count := 0;
      var rest := s;
      while rest != []
        invariant count + CodePoints(rest) == CodePoints(s)
        decreases |rest|
      {
        rest := if |rest| >= 2 && IsHighSurrogate(rest[0]) && IsLowSurrogate(rest[1]) then rest[2..] else rest[1..];
        count := count + 1;
      }
    }
  }

  /** Evaluates one expression, starting with nothing spent. */
  method Evaluate(host: Host, env: Env, e: Expr) returns (r: Result<Value>)
    ensures r == Eval(host, env, e, 0).0
  {
    var interpreter := new Interpreter(host, env);
    r := interpreter.Visit(e);
  }
}
