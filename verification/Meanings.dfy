/** What operators and built-ins come to, in terms of the values of their operands alone. */
module Meanings {
  import opened Basics
  import opened Text
  import opened Syntax
  import opened Decimals
  import opened Evaluator
  import opened Semantics

  // ---------------------------------------------------------------- operators

  /** A literal is its value, and a field that of the record. */
  lemma LeafMeans(host: Host, env: Env, e: Expr)
    ensures e.Literal? ==> Means(host, env, e) == Ok(e.value)
    ensures e.Field? && e.name in env ==> Means(host, env, e) == Ok(env[e.name])
  {}

  /** Operands are visited from left to right, and the first failure is the result. */
  lemma FirstFailureWins(host: Host, env: Env, op: BinaryOp, left: Expr, right: Expr, span: Span)
    ensures
      var l, r, e := Means(host, env, left), Means(host, env, right), Means(host, env, Binary(op, left, right, span));
      && (l.Failed? ==> e == l)
      && (l.Ok? && r.Failed? && !op.And? && !op.Or? ==> e == r)
  {}

  /** The orderings are those of the numbers. Null on either side is reported before anything else. */
  lemma OrderingMeans(host: Host, env: Env, op: BinaryOp, left: Expr, right: Expr, span: Span)
    requires op.Less? || op.LessEqual? || op.Greater? || op.GreaterEqual?
    requires Means(host, env, left).Ok? && Means(host, env, right).Ok?
    ensures
      var x, y, e := Means(host, env, left).value, Means(host, env, right).value, Means(host, env, Binary(op, left, right, span));
      match (x, y)
      case (Number(a), Number(b)) =>
        e == Ok(Boolean(match op
                        case Less => a < b
                        case LessEqual => a < b || a == b
                        case Greater => b < a
                        case _ => b < a || a == b))
      case _ => e == if x.Null? || y.Null? then Failed(NullNotAllowed, span) else Broken
  {}

  /** Equality is that of the values, null and text included, and inequality is its negation. */
  lemma EqualityMeans(host: Host, env: Env, left: Expr, right: Expr, span: Span)
    requires Means(host, env, left).Ok? && Means(host, env, right).Ok?
    ensures
      var same := Means(host, env, left).value == Means(host, env, right).value;
      && Means(host, env, Binary(Equal, left, right, span)) == Ok(Boolean(same))
      && Means(host, env, Binary(NotEqual, left, right, span)) == Ok(Boolean(!same))
  {}

  /** A candidate is in a list exactly when it equals one of its members. */
  lemma MembershipMeans(host: Host, env: Env, candidate: Expr, members: seq<LiteralNode>, span: Span)
    requires Means(host, env, candidate).Ok?
    ensures
      var x, e := Means(host, env, candidate).value, Means(host, env, Membership(candidate, members, span));
      && (e == Ok(Boolean(true)) <==> exists k :: 0 <= k < |members| && members[k].value == x)
      && (e == Ok(Boolean(false)) <==> forall k | 0 <= k < |members| :: members[k].value != x)
  {
    if forall k | 0 <= k < |members| :: members[k].value != Means(host, env, candidate).value {
      assert !Listed(Means(host, env, candidate).value, members);
    }
  }

  lemma NotMeans(host: Host, env: Env, operand: Expr, span: Span)
    requires Means(host, env, operand).Ok?
    ensures
      var e := Means(host, env, Expr.Not(operand, span));
      match Means(host, env, operand).value
      case Boolean(b) => e == Ok(Boolean(if b then false else true))
      case Null => e == Failed(NullNotAllowed, span)
      case _ => e == Broken
  {}

  /** AND: false on the left decides, and the right side is then not looked at; otherwise the right side decides. */
  lemma AndMeans(host: Host, env: Env, left: Expr, right: Expr, span: Span)
    requires Means(host, env, left).Ok?
    ensures
      var e, r := Means(host, env, Binary(And, left, right, span)), Means(host, env, right);
      match Means(host, env, left).value
      case Boolean(b) =>
        if !b then e == Ok(Boolean(false))
        else if !r.Ok? then e == r
        else if r.value.Boolean? then e == Ok(Boolean(r.value.b))
        else e == if r.value.Null? then Failed(NullNotAllowed, span) else Broken
      case Null => e == Failed(NullNotAllowed, span)
      case _ => e == Broken
  {}

  /** OR: true on the left decides. */
  lemma OrMeans(host: Host, env: Env, left: Expr, right: Expr, span: Span)
    requires Means(host, env, left).Ok?
    ensures
      var e, r := Means(host, env, Binary(Or, left, right, span)), Means(host, env, right);
      match Means(host, env, left).value
      case Boolean(b) =>
        if b then e == Ok(Boolean(true))
        else if !r.Ok? then e == r
        else if r.value.Boolean? then e == Ok(Boolean(r.value.b))
        else e == if r.value.Null? then Failed(NullNotAllowed, span) else Broken
      case Null => e == Failed(NullNotAllowed, span)
      case _ => e == Broken
  {}

  // ---------------------------------------------------------------- built-ins

  /** Arguments come to their values in order, or to the first of their failures. */
  lemma {:induction false} ArgumentsMean(host: Host, env: Env, args: seq<Expr>, k: nat)
    requires k <= |args| && forall n | 0 <= n < k :: Means(host, env, args[n]).Ok?
    ensures
      var r := MeansAll(host, env, args);
      if k == |args| then r.Ok? && |r.value| == k && forall n | 0 <= n < k :: Means(host, env, args[n]) == Ok(r.value[n])
      else match Means(host, env, args[k])
           case Failed(code, at) => r == Failed(code, at)
           case Broken => r == Broken
           case Ok(_) => true
    decreases |args|
  {
    if k > 0 {
      forall n | 0 <= n < k - 1 ensures Means(host, env, args[1..][n]).Ok? {
        assert args[1..][n] == args[n + 1];
      }
      ArgumentsMean(host, env, args[1..], k - 1);
      if k == |args| {
        var r, rest := MeansAll(host, env, args), MeansAll(host, env, args[1..]);
        forall n | 0 <= n < k ensures Means(host, env, args[n]) == Ok(r.value[n]) {
          if n > 0 { assert args[1..][n - 1] == args[n] && rest.value[n - 1] == r.value[n]; }
        }
      }
    }
  }

  /** Null arguments fail, except for `isEmpty`, `isBlank` and `tryNumber`, which have an answer for them. */
  lemma NullArguments(host: Host, env: Env, b: Builtin, args: seq<Expr>, values: seq<Value>, span: Span)
    requires MeansAll(host, env, args) == Ok(values) && values != [] && values[0].Null?
    ensures
      Means(host, env, Call(b, args, span))
      == match b
         case IsEmpty => Ok(Boolean(true))
         case IsBlank => Ok(Boolean(true))
         case TryNumber => Ok(Null)
         case _ => Failed(NullNotAllowed, span)
  {}

  lemma NullSecond(host: Host, env: Env, b: Builtin, args: seq<Expr>, s: Utf16, span: Span)
    requires b.Contains? || b.StartsWithFn? || b.EndsWithFn? || b.EqualsIgnoreCase?
    requires MeansAll(host, env, args) == Ok([Str(s), Null])
    ensures Means(host, env, Call(b, args, span)) == Failed(NullNotAllowed, span)
  {}

  ghost predicate Splits(s: Utf16, before: Utf16, t: Utf16, after: Utf16) { s == before + t + after }

  /** `contains`: the text splits around the search text. */
  lemma ContainsMeans(host: Host, env: Env, args: seq<Expr>, s: Utf16, t: Utf16, span: Span)
    requires MeansAll(host, env, args) == Ok([Str(s), Str(t)])
    ensures Means(host, env, Call(Contains, args, span)) == Ok(Boolean(exists before, after :: Splits(s, before, t, after)))
  {
    IncludesIsSplit(s, t);
  }

  lemma IncludesIsSplit(s: Utf16, t: Utf16)
    ensures Includes(s, t) <==> exists before, after :: Splits(s, before, t, after)
  {
    if Includes(s, t) {
      var i :| 0 <= i <= |s| && t <= s[i..];
      assert s[i..] == t + s[i + |t|..];
      assert Splits(s, s[..i], t, s[i + |t|..]);
    }
    if exists before, after :: Splits(s, before, t, after) {
      var before, after :| Splits(s, before, t, after);
      assert s[|before|..] == t + after;
    }
  }

  /** `startsWith`: some rest completes the prefix. `endsWith`: some front does. */
  lemma AffixMeans(host: Host, env: Env, args: seq<Expr>, s: Utf16, t: Utf16, span: Span)
    requires MeansAll(host, env, args) == Ok([Str(s), Str(t)])
    ensures Means(host, env, Call(StartsWithFn, args, span)) == Ok(Boolean(exists rest :: Splits(s, [], t, rest)))
    ensures Means(host, env, Call(EndsWithFn, args, span)) == Ok(Boolean(exists front :: Splits(s, front, t, [])))
  {
    PrefixIsSplit(s, t);
    SuffixIsSplit(s, t);
  }

  lemma PrefixIsSplit(s: Utf16, t: Utf16)
    ensures StartsWith(s, t) <==> exists rest :: Splits(s, [], t, rest)
  {
    if StartsWith(s, t) {
      assert Splits(s, [], t, s[|t|..]);
    }
    if exists rest :: Splits(s, [], t, rest) {
      var rest :| Splits(s, [], t, rest);
      assert [] + t + rest == t + rest;
    }
  }

  lemma SuffixIsSplit(s: Utf16, t: Utf16)
    ensures EndsWith(s, t) <==> exists front :: Splits(s, front, t, [])
  {
    if EndsWith(s, t) {
      assert Splits(s, s[..|s| - |t|], t, []);
    }
    if exists front :: Splits(s, front, t, []) {
      var front :| Splits(s, front, t, []);
      assert s[|s| - |t|..] == t;
    }
  }

  /** Text within the limit, or the failure of a derived text beyond it. */
  function Limited(s: Utf16, span: Span): Result<Value> {
    if |s| <= 4096 then Ok(Str(s)) else Failed(StringValueLimitExceeded, span)
  }

  /** `equalsIgnoreCase` compares what the runtime's lowercasing makes of both texts. */
  lemma EqualsIgnoreCaseMeans(host: Host, env: Env, args: seq<Expr>, s: Utf16, t: Utf16, span: Span)
    requires MeansAll(host, env, args) == Ok([Str(s), Str(t)])
    ensures
      Means(host, env, Call(EqualsIgnoreCase, args, span))
      == if |host.lower(s)| <= 4096 && |host.lower(t)| <= 4096 then Ok(Boolean(host.lower(s) == host.lower(t)))
         else Failed(StringValueLimitExceeded, span)
  {}

  lemma CaseMeans(host: Host, env: Env, args: seq<Expr>, s: Utf16, span: Span)
    requires MeansAll(host, env, args) == Ok([Str(s)])
    ensures Means(host, env, Call(Lower, args, span)) == Limited(host.lower(s), span)
    ensures Means(host, env, Call(Upper, args, span)) == Limited(host.upper(s), span)
  {}

  /** `t` is `s` without the whitespace at both ends. */
  ghost predicate IsTrimmed(s: Utf16, t: Utf16, i: nat) {
    && i + |t| <= |s| && t == s[i..i + |t|]
    && (forall k | 0 <= k < i :: IsSpace(s[k])) && (forall k | i + |t| <= k < |s| :: IsSpace(s[k]))
    && (t != [] ==> !IsSpace(t[0]) && !IsSpace(t[|t| - 1]))
  }

  lemma TrimmedLeft(s: Utf16, t: Utf16, i: nat)
    requires s != [] && IsSpace(s[0]) && IsTrimmed(s[1..], t, i)
    ensures IsTrimmed(s, t, i + 1)
  {
    var rest := s[1..];
    assert rest[i..i + |t|] == s[i + 1..i + 1 + |t|];
    forall k | 0 <= k < |rest| ensures rest[k] == s[k + 1] {}
    forall k | 0 < k < i + 1 ensures IsSpace(s[k]) { assert IsSpace(rest[k - 1]); }
    forall k | i + 1 + |t| <= k < |s| ensures IsSpace(s[k]) { assert IsSpace(rest[k - 1]); }
  }

  lemma TrimmedRight(s: Utf16, t: Utf16, i: nat)
    requires s != [] && IsSpace(s[|s| - 1]) && IsTrimmed(s[..|s| - 1], t, i)
    ensures IsTrimmed(s, t, i)
  {
    var front := s[..|s| - 1];
    assert front[i..i + |t|] == s[i..i + |t|];
    forall k | i + |t| <= k < |s| ensures IsSpace(s[k]) {
      if k < |front| { assert IsSpace(front[k]); }
    }
    forall k | 0 <= k < i ensures IsSpace(s[k]) { assert IsSpace(front[k]); }
  }

  lemma {:induction false} TrimTrims(s: Utf16) returns (i: nat)
    ensures IsTrimmed(s, Trim(s), i)
    decreases |s|
  {
    if s == [] {
      i := 0;
    } else if IsSpace(s[0]) {
      var k := TrimTrims(s[1..]);
      TrimmedLeft(s, Trim(s[1..]), k);
      i := k + 1;
    } else if IsSpace(s[|s| - 1]) {
      i := TrimTrims(s[..|s| - 1]);
      TrimmedRight(s, Trim(s[..|s| - 1]), i);
    } else {
      i := 0;
    }
  }

  lemma TrimIsUnique(s: Utf16, t: Utf16, i: nat, u: Utf16, j: nat)
    requires IsTrimmed(s, t, i) && IsTrimmed(s, u, j)
    ensures t == u
  {
    if t != [] {
      assert s[i] == t[0] && s[i + |t| - 1] == t[|t| - 1];
    }
    if u != [] {
      assert s[j] == u[0] && s[j + |u| - 1] == u[|u| - 1];
    }
  }

  /** `trim` gives the text without the whitespace at its ends. */
  lemma TrimMeans(host: Host, env: Env, args: seq<Expr>, s: Utf16, span: Span, t: Utf16, i: nat)
    requires MeansAll(host, env, args) == Ok([Str(s)]) && IsTrimmed(s, t, i)
    ensures Means(host, env, Call(TrimFn, args, span)) == Limited(t, span)
  {
    var j := TrimTrims(s);
    TrimIsUnique(s, t, i, Trim(s), j);
  }

  /** The units that begin a surrogate pair. */
  ghost function PairsIn(s: Utf16): set<nat> { set k: nat | k < |s| && StartsPair(s, k) }

  predicate StartsPair(s: Utf16, k: nat) {
    k + 1 < |s| && 0xD800 <= s[k] <= 0xDBFF && 0xDC00 <= s[k + 1] <= 0xDFFF
  }

  lemma {:induction false} CodePointsCountPairs(s: Utf16)
    ensures CodePoints(s) == |s| - |PairsIn(s)|
    decreases |s|
  {
    if s == [] {
      assert PairsIn(s) == {};
    } else {
      var width := if |s| >= 2 && IsHighSurrogate(s[0]) && IsLowSurrogate(s[1]) then 2 else 1;
      var rest := s[width..];
      CodePointsCountPairs(rest);
      Shifted(PairsIn(rest), width);
      PairsSplit(s, width);
    }
  }

  function Plus(k: nat, width: nat): nat { k + width }

  ghost function Shift(ks: set<nat>, width: nat): set<nat> { set k | k in ks :: Plus(k, width) }

  lemma {:induction false} Shifted(ks: set<nat>, width: nat)
    ensures |Shift(ks, width)| == |ks|
  {
    if ks != {} {
      var k :| k in ks;
      Shifted(ks - {k}, width);
      assert Shift(ks, width) == Shift(ks - {k}, width) + {Plus(k, width)};
    }
  }

  lemma PairsSplit(s: Utf16, width: nat)
    requires s != [] && width == if |s| >= 2 && IsHighSurrogate(s[0]) && IsLowSurrogate(s[1]) then 2 else 1
    ensures PairsIn(s) == (if width == 2 then {0} else {}) + Shift(PairsIn(s[width..]), width)
    ensures 0 !in Shift(PairsIn(s[width..]), width)
  {
    var rest := s[width..];
    forall k | k in PairsIn(s) && k >= width ensures k in Shift(PairsIn(rest), width) {
      assert rest[k - width] == s[k] && rest[k - width + 1] == s[k + 1];
      assert k - width in PairsIn(rest) && k == Plus(k - width, width);
    }
    forall k | k in PairsIn(rest) ensures k + width in PairsIn(s) {
      assert rest[k] == s[k + width] && rest[k + 1] == s[k + width + 1];
    }
  }

  /** `length` counts the units, surrogate pairs once. */
  lemma LengthMeans(host: Host, env: Env, args: seq<Expr>, s: Utf16, span: Span)
    requires MeansAll(host, env, args) == Ok([Str(s)])
    ensures Means(host, env, Call(Length, args, span)) == Ok(Number((|s| - |PairsIn(s)|) as real))
  {
    CodePointsCountPairs(s);
  }

  predicate AllSpace(s: Utf16) { forall k | 0 <= k < |s| :: IsSpace(s[k]) }

  /** `isEmpty` holds of null and of the empty text, `isBlank` of null and of whitespace. */
  lemma EmptyMeans(host: Host, env: Env, args: seq<Expr>, value: Value, span: Span)
    requires MeansAll(host, env, args) == Ok([value])
    ensures Means(host, env, Call(IsEmpty, args, span)) == Ok(Boolean(value.Null? || (value.Str? && |value.s| == 0)))
    ensures
      Means(host, env, Call(IsBlank, args, span))
      == match value
         case Null => Ok(Boolean(true))
         case Str(_) => Ok(Boolean(AllSpace(value.s)))
         case _ => Broken
  {}

  /** The runtime's number of a text that is a decimal in full, if it is finite. */
  ghost function NumberOf(host: Host, s: Utf16): Value {
    if DecimalAt(s, 0, |s|) && host.number(s).Some? then Number(host.number(s).value) else Null
  }

  /** `tryNumber` gives the runtime's number of a text that is a decimal in full, and null for any other text. */
  lemma TryNumberMeans(host: Host, env: Env, args: seq<Expr>, value: Value, span: Span)
    requires MeansAll(host, env, args) == Ok([value])
    ensures
      Means(host, env, Call(TryNumber, args, span))
      == match value
         case Null => Ok(Null)
         case Number(x) => Ok(Number(x))
         case Str(_) => Ok(NumberOf(host, value.s))
         case Boolean(_) => Broken
  {
    if value.Str? { CompleteDecimal(value.s); }
  }

  lemma TextMeans(host: Host, env: Env, args: seq<Expr>, value: Value, span: Span)
    requires MeansAll(host, env, args) == Ok([value])
    ensures
      Means(host, env, Call(TextFn, args, span))
      == match value
         case Null => Failed(NullNotAllowed, span)
         case Number(_) => Limited(host.show(value.r), span)
         case Str(_) => Limited(value.s, span)
         case Boolean(_) => Broken
  {}

  /** What a call on two texts costs beyond its arguments: their units, and the longer of both once more for lowercasing. */
  lemma TwoTextsCost(host: Host, env: Env, b: Builtin, args: seq<Expr>, s: Utf16, t: Utf16, span: Span)
    requires MeansAll(host, env, args) == Ok([Str(s), Str(t)])
    ensures b.Contains? || b.StartsWithFn? || b.EndsWithFn? ==>
      CallCharges(host, env, b, args, span) == [Charge(|s| + |t|, span)]
    ensures b.EqualsIgnoreCase? ==>
      CallCharges(host, env, b, args, span) == [Charge(|s| + |t| + (if |s| < |t| then |t| else |s|), span)]
  {}

  /** What a call on one value costs: the units of a text, or those of the text it writes for a number. */
  lemma OneValueCosts(host: Host, env: Env, b: Builtin, args: seq<Expr>, value: Value, span: Span)
    requires MeansAll(host, env, args) == Ok([value])
    requires b.IsEmpty? || b.IsBlank? || b.TrimFn? || b.Lower? || b.Upper? || b.Length? || b.TryNumber? || b.TextFn?
    ensures
      CallCharges(host, env, b, args, span)
      == if b.IsEmpty? then []
         else if value.Str? then [Charge(|value.s|, span)]
         else if b.TextFn? && value.Number? then [Charge(|host.show(value.r)|, span)]
         else []
  {}
}
