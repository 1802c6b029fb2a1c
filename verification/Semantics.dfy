/** A plain semantics without metering, the work it does, and how metering refines it. */
module Semantics {
  import opened Basics
  import opened Syntax
  import opened Evaluator

  /** The result of a visited node that needs a Boolean and passes it on. */
  function AsBoolean(r: Result<Value>, span: Span): Result<bool> {
    var value :- r;
    RequireBoolean(value, span)
  }

  function BooleanResult(r: Result<bool>, negate: bool): Result<Value> {
    var b :- r;
    Ok(Boolean(b != negate))
  }

  /** What an expression means on a record, with no limit on work. */
  function Means(host: Host, env: Env, e: Expr): Result<Value>
    decreases e, 1
  {
    match e
    case Literal(value, _) => Ok(value)
    case Field(name, _) => if name in env then Ok(env[name]) else Broken
    case Not(operand, span) => BooleanResult(AsBoolean(Means(host, env, operand), span), true)
    case Binary(op, left, right, span) =>
      if IsLogical(op) then
        var b :- AsBoolean(Means(host, env, left), span);
        if Decides(op, b) then Ok(Boolean(b))
        else BooleanResult(AsBoolean(Means(host, env, right), span), false)
      else
        var l :- Means(host, env, left);
        var r :- Means(host, env, right);
        Relate(op, l, r, span)
    case Membership(candidate, members, _) =>
      var value :- Means(host, env, candidate);
      Ok(Boolean(Listed(value, members)))
    case Call(builtin, args, span) =>
      var values :- MeansAll(host, env, args);
      BuiltinWork(host, builtin, values, span).result
  }

  predicate Listed(value: Value, members: seq<LiteralNode>) {
    exists k | 0 <= k < |members| :: members[k].value == value
  }

  function MeansAll(host: Host, env: Env, es: seq<Expr>): Result<seq<Value>>
    decreases es, 0
  {
    if es == [] then Ok([])
    else
      var value :- Means(host, env, es[0]);
      var values :- MeansAll(host, env, es[1..]);
      Ok([value] + values)
  }

  // ---------------------------------------------------------------------- work

  datatype Charge = Charge(amount: nat, span: Span)

  /** The charges an unlimited evaluation makes, in order. */
  function Charges(host: Host, env: Env, e: Expr): seq<Charge>
    decreases e, 2
  {
    [Charge(1, e.span)] + NodeCharges(host, env, e)
  }

  function NodeCharges(host: Host, env: Env, e: Expr): seq<Charge>
    decreases e, 1
  {
    match e
    case Literal(_, _) => []
    case Field(_, _) => []
    case Not(operand, _) => Charges(host, env, operand)
    case Binary(op, left, right, span) =>
      if GoesRight(host, env, op, left, span) then Charges(host, env, left) + Charges(host, env, right)
      else Charges(host, env, left)
    case Membership(candidate, members, _) =>
      var r := Means(host, env, candidate);
      Charges(host, env, candidate) + (if r.Ok? then MemberCharges(r.value, members) else [])
    case Call(builtin, args, span) =>
      ChargesAll(host, env, args) + CallCharges(host, env, builtin, args, span)
  }

  /** Whether the left operand leaves the right one to be visited. */
  predicate GoesRight(host: Host, env: Env, op: BinaryOp, left: Expr, span: Span) {
    var l := Means(host, env, left);
    l.Ok? && (IsLogical(op) ==> AsBoolean(l, span).Ok? && !Decides(op, AsBoolean(l, span).value))
  }

  function MemberCharges(candidate: Value, members: seq<LiteralNode>): seq<Charge>
    decreases |members|
  {
    if members == [] then []
    else [Charge(1, members[0].span)]
         + if candidate == members[0].value then [] else MemberCharges(candidate, members[1..])
  }

  function CallCharges(host: Host, env: Env, builtin: Builtin, args: seq<Expr>, span: Span): seq<Charge> {
    match MeansAll(host, env, args)
    case Ok(values) => WorkCharges(BuiltinWork(host, builtin, values, span), span)
    case _ => []
  }

  function WorkCharges(work: Work, span: Span): seq<Charge> {
    if work.Costs? then [Charge(work.amount, span)] else []
  }

  function ChargesAll(host: Host, env: Env, es: seq<Expr>): seq<Charge>
    decreases es, 0
  {
    if es == [] then []
    else if Means(host, env, es[0]).Ok? then Charges(host, env, es[0]) + ChargesAll(host, env, es[1..])
    else Charges(host, env, es[0])
  }

  function Total(charges: seq<Charge>): nat {
    if charges == [] then 0 else charges[0].amount + Total(charges[1..])
  }

  /** The charge that crosses the limit, when they are made one by one. */
  function Stop(charges: seq<Charge>, steps: nat): Option<Span>
    decreases |charges|
  {
    if charges == [] then None
    else if steps + charges[0].amount > MAX_EVALUATION_STEPS then Some(charges[0].span)
    else Stop(charges[1..], steps + charges[0].amount)
  }

  /** The steps spent when all charges are made, or just before the one that crosses the limit. */
  function Spent(charges: seq<Charge>, steps: nat): nat
    decreases |charges|
  {
    if charges == [] || steps + charges[0].amount > MAX_EVALUATION_STEPS then steps
    else Spent(charges[1..], steps + charges[0].amount)
  }

  /** A result that is reached only if the charges before it stay within the limit. */
  function Spend<T>(charges: seq<Charge>, r: Result<T>, steps: nat): (Result<T>, nat) {
    (match Stop(charges, steps)
     case Some(span) => Failed(EvaluationStepLimitExceeded, span)
     case None => r, Spent(charges, steps))
  }

  // ---------------------------------------------------------- laws of spending

  lemma {:induction false} SpentWithin(charges: seq<Charge>, steps: nat)
    requires steps <= MAX_EVALUATION_STEPS
    ensures Spent(charges, steps) <= MAX_EVALUATION_STEPS
    ensures Stop(charges, steps).None? <==> steps + Total(charges) <= MAX_EVALUATION_STEPS
    ensures Stop(charges, steps).None? ==> Spent(charges, steps) == steps + Total(charges)
    decreases |charges|
  {
    if charges != [] && steps + charges[0].amount <= MAX_EVALUATION_STEPS {
      SpentWithin(charges[1..], steps + charges[0].amount);
    }
  }

  /** Beyond the limit, the charge reported is the first one whose sum crosses it. */
  lemma {:induction false} StopIsFirstCrossing(charges: seq<Charge>, steps: nat) returns (k: nat)
    requires steps <= MAX_EVALUATION_STEPS < steps + Total(charges)
    ensures k < |charges| && Stop(charges, steps) == Some(charges[k].span)
    ensures steps + Total(charges[..k]) <= MAX_EVALUATION_STEPS < steps + Total(charges[..k]) + charges[k].amount
    ensures Spent(charges, steps) == steps + Total(charges[..k])
    decreases |charges|
  {
    if steps + charges[0].amount > MAX_EVALUATION_STEPS {
      k := 0;
    } else {
      var n := StopIsFirstCrossing(charges[1..], steps + charges[0].amount);
      k := n + 1;
      assert charges[..k][1..] == charges[1..][..n];
    }
  }

  lemma SpendOne(charge: Charge, steps: nat)
    ensures var over := steps + charge.amount > MAX_EVALUATION_STEPS;
      && Stop([charge], steps) == (if over then Some(charge.span) else None)
      && Spent([charge], steps) == if over then steps else steps + charge.amount
  {
    var rest := [charge][1..];
    assert rest == [];
    assert Stop(rest, steps + charge.amount) == None && Spent(rest, steps + charge.amount) == steps + charge.amount;
  }

  lemma {:induction false} SpendConcat(a: seq<Charge>, b: seq<Charge>, steps: nat)
    ensures Stop(a + b, steps) == if Stop(a, steps).Some? then Stop(a, steps) else Stop(b, Spent(a, steps))
    ensures Spent(a + b, steps) == if Stop(a, steps).Some? then Spent(a, steps) else Spent(b, Spent(a, steps))
    decreases |a|
  {
    if a == [] {
      assert a + b == b;
    } else {
      assert (a + b)[1..] == a[1..] + b;
      if steps + a[0].amount <= MAX_EVALUATION_STEPS {
        SpendConcat(a[1..], b, steps + a[0].amount);
      }
    }
  }

  // ------------------------------------------------------- metering refines it

  /** Metered evaluation is the plain semantics, cut off at the charge that crosses the limit. */
  lemma {:induction false} EvalSpends(host: Host, env: Env, e: Expr, steps: nat)
    ensures Eval(host, env, e, steps) == Spend(Charges(host, env, e), Means(host, env, e), steps)
    decreases e, 2
  {
    SpendConcat([Charge(1, e.span)], NodeCharges(host, env, e), steps);
    SpendOne(Charge(1, e.span), steps);
    if steps + 1 <= MAX_EVALUATION_STEPS {
      NodeSpends(host, env, e, steps + 1);
    }
  }

  lemma {:induction false} NodeSpends(host: Host, env: Env, e: Expr, steps: nat)
    ensures EvalNode(host, env, e, steps) == Spend(NodeCharges(host, env, e), Means(host, env, e), steps)
    decreases e, 1
  {
    match e
    case Literal(_, _) =>
    case Field(_, _) =>
    case Not(operand, _) => EvalSpends(host, env, operand, steps);
    case Binary(op, _, _, _) =>
      if IsLogical(op) {
        LogicalSpends(host, env, e, steps);
      } else {
        RelationSpends(host, env, e, steps);
      }
    case Membership(candidate, members, _) =>
      EvalSpends(host, env, candidate, steps);
      var (r, s) := Eval(host, env, candidate, steps);
      if Means(host, env, candidate).Ok? {
        var value := Means(host, env, candidate).value;
        SpendConcat(Charges(host, env, candidate), MemberCharges(value, members), steps);
        MembersSpend(value, members, s);
      } else {
        assert Charges(host, env, candidate) + [] == Charges(host, env, candidate);
      }
    case Call(_, _, _) => CallSpends(host, env, e, steps);
  }

  lemma {:induction false} LogicalSpends(host: Host, env: Env, e: Expr, steps: nat)
    requires e.Binary? && IsLogical(e.op)
    ensures EvalNode(host, env, e, steps) == Spend(NodeCharges(host, env, e), Means(host, env, e), steps)
    decreases e, 0
  {
    EvalSpends(host, env, e.left, steps);
    if GoesRight(host, env, e.op, e.left, e.span) {
      SpendConcat(Charges(host, env, e.left), Charges(host, env, e.right), steps);
      EvalSpends(host, env, e.right, Eval(host, env, e.left, steps).1);
    }
  }

  lemma {:induction false} RelationSpends(host: Host, env: Env, e: Expr, steps: nat)
    requires e.Binary? && !IsLogical(e.op)
    ensures EvalNode(host, env, e, steps) == Spend(NodeCharges(host, env, e), Means(host, env, e), steps)
    decreases e, 0
  {
    EvalSpends(host, env, e.left, steps);
    if GoesRight(host, env, e.op, e.left, e.span) {
      SpendConcat(Charges(host, env, e.left), Charges(host, env, e.right), steps);
      EvalSpends(host, env, e.right, Eval(host, env, e.left, steps).1);
    }
  }

  lemma ListedSplit(value: Value, members: seq<LiteralNode>)
    requires members != []
    ensures Listed(value, members) <==> members[0].value == value || Listed(value, members[1..])
  {
    if Listed(value, members) && members[0].value != value {
      var k :| 0 <= k < |members| && members[k].value == value;
      assert members[1..][k - 1].value == value;
    }
  }

  lemma {:induction false} MembersSpend(candidate: Value, members: seq<LiteralNode>, steps: nat)
    ensures EvalMembers(candidate, members, steps) ==
      Spend(MemberCharges(candidate, members), Ok(Boolean(Listed(candidate, members))), steps)
    decreases |members|
  {
    if members != [] {
      ListedSplit(candidate, members);
      var charges, one := MemberCharges(candidate, members), [Charge(1, members[0].span)];
      SpendOne(one[0], steps);
      if candidate == members[0].value {
        assert charges == one;
      } else {
        SpendConcat(one, MemberCharges(candidate, members[1..]), steps);
        MembersSpend(candidate, members[1..], steps + 1);
      }
    }
  }

  lemma PerformSpends(work: Work, span: Span, steps: nat)
    ensures Perform(work, span, steps) == Spend(WorkCharges(work, span), work.result, steps)
  {
    if work.Costs? {
      SpendOne(Charge(work.amount, span), steps);
    }
  }

  lemma {:induction false} CallSpends(host: Host, env: Env, e: Expr, steps: nat)
    requires e.Call?
    ensures EvalNode(host, env, e, steps) == Spend(NodeCharges(host, env, e), Means(host, env, e), steps)
    decreases e, 0
  {
    var Call(builtin, args, span) := e;
    AllSpend(host, env, args, steps);
    var charges := CallCharges(host, env, builtin, args, span);
    SpendConcat(ChargesAll(host, env, args), charges, steps);
    if MeansAll(host, env, args).Ok? {
      var work := BuiltinWork(host, builtin, MeansAll(host, env, args).value, span);
      PerformSpends(work, span, EvalAll(host, env, args, steps).1);
    }
  }

  lemma {:induction false} AllSpend(host: Host, env: Env, es: seq<Expr>, steps: nat)
    ensures EvalAll(host, env, es, steps) == Spend(ChargesAll(host, env, es), MeansAll(host, env, es), steps)
    decreases es, 0
  {
    if es != [] {
      EvalSpends(host, env, es[0], steps);
      if Means(host, env, es[0]).Ok? {
        SpendConcat(Charges(host, env, es[0]), ChargesAll(host, env, es[1..]), steps);
        AllSpend(host, env, es[1..], Eval(host, env, es[0], steps).1);
      }
    }
  }

  /** The whole evaluation: the plain result within the limit, the first crossing charge beyond it. */
  lemma BudgetRefinement(host: Host, env: Env, e: Expr)
    ensures var charges, r := Charges(host, env, e), Eval(host, env, e, 0);
      && r.1 <= MAX_EVALUATION_STEPS
      && (Total(charges) <= MAX_EVALUATION_STEPS ==> r == (Means(host, env, e), Total(charges)))
      && (Total(charges) > MAX_EVALUATION_STEPS ==>
            exists k | 0 <= k < |charges| ::
              && Total(charges[..k]) <= MAX_EVALUATION_STEPS < Total(charges[..k]) + charges[k].amount
              && r == (Failed(EvaluationStepLimitExceeded, charges[k].span), Total(charges[..k])))
  {
    var charges := Charges(host, env, e);
    EvalSpends(host, env, e, 0);
    SpentWithin(charges, 0);
    if Total(charges) > MAX_EVALUATION_STEPS {
      var k := StopIsFirstCrossing(charges, 0);
    }
  }
}
