/** The public operations: compile a source against a schema, then evaluate records. */
module Pipeline {
  import opened Basics
  import opened Text
  import opened Syntax
  import opened Lexer
  import opened LexerLaws
  import opened Parser
  import opened Types
  import opened Records
  import opened Analyzer
  import opened AnalyzerLaws
  import opened TreeLaws
  import opened Evaluator
  import opened Semantics
  import opened Soundness

  datatype Payload = Payload(source: Utf16, expression: Expr, resultType: TypeInfo, references: seq<Utf16>,
                             schema: seq<SchemaEntry>)

  datatype Compilation = Compiled(payload: Payload) | NotCompiled(diagnostics: seq<Diagnostic>) | CompileBroken

  lemma LexedIsEnded(host: Host, source: Utf16, tokens: seq<Token>)
    requires Lexed(host, source) == Tokens(tokens)
    ensures Ended(tokens)
  {
    TokenSpans(host, source, tokens);
  }

  function CompilationOf(host: Host, source: Utf16, schema: seq<SchemaEntry>, expected: Option<Type>): Compilation {
    match Lexed(host, source)
    case LexError(d) => NotCompiled([d])
    case Tokens(tokens) =>
      LexedIsEnded(host, source, tokens);
      match TreeOf(source, tokens)
      case ParseError(d) => NotCompiled([d])
      case Tree(e) =>
        match Analysis(source, e, schema, expected)
        case Rejected(ds) => NotCompiled(ds)
        case Accepted(t, references) => Compiled(Payload(source, e, t, references, schema))
        case NoVerdict => CompileBroken
  }

  method CompileExpression(host: Host, source: Utf16, schema: seq<SchemaEntry>, expected: Option<Type>)
    returns (r: Compilation)
    ensures r == CompilationOf(host, source, schema, expected)
  {
    var lexical := Lex(host, source);
    if lexical.LexError? {
      return NotCompiled([lexical.diagnostic]);
    }
    LexedIsEnded(host, source, lexical.tokens);
    var parsed := Parse(source, lexical.tokens);
    if parsed.ParseError? {
      return NotCompiled([parsed.diagnostic]);
    }
    var analysis := Analyze(source, parsed.expression, schema, expected);
    match analysis
    case Rejected(ds) => r := NotCompiled(ds);
    case Accepted(t, references) => r := Compiled(Payload(source, parsed.expression, t, references, schema));
    case NoVerdict => r := CompileBroken;
  }

  datatype Evaluation = Evaluated(result: Result<Value>) | RecordRejected(diagnostic: RecordDiagnostic)

  /** Checks the record, loads its values by name and evaluates. */
  method EvaluatePayload(host: Host, payload: Payload, record: map<Utf16, Slot>) returns (r: Evaluation)
    ensures match r
      case Evaluated(result) =>
        exists values | Accepts(payload.schema, record, values) ::
          result == Eval(host, ByName(payload.schema, values), payload.expression, 0).0
      case RecordRejected(d) =>
        exists k | 0 <= k < |payload.schema| ::
          && CheckField(payload.schema[k], SlotOf(record, payload.schema[k].name)) == BadField(d)
          && forall j | 0 <= j < k :: CheckField(payload.schema[j], SlotOf(record, payload.schema[j].name)).Good?
  {
    var snapshot := SnapshotRecord(record, payload.schema);
    if snapshot.BadRecord? {
      return RecordRejected(snapshot.diagnostic);
    }
    assert Accepts(payload.schema, record, snapshot.values);
    var env: Env := map[];
    var schema, values := payload.schema, snapshot.values;
    for index := 0 to |schema|
      invariant env == ByName(schema[..index], values[..index])
    {
      assert schema[..index + 1][..index] == schema[..index] && values[..index + 1][..index] == values[..index];
      env := env[schema[index].name := values[index]];
    }
    assert schema[..|schema|] == schema && values[..|values|] == values;
    var result := Evaluate(host, env, payload.expression);
    r := Evaluated(result);
  }

  /** The record passes its checks with these values. */
  ghost predicate Accepts(schema: seq<SchemaEntry>, record: map<Utf16, Slot>, values: seq<Value>) {
    && |values| == |schema|
    && forall k | 0 <= k < |schema| :: CheckField(schema[k], SlotOf(record, schema[k].name)) == Good(values[k])
  }

  /** A parsed source always gets a verdict, and acceptance comes with its type and its references. */
  lemma ParsedGetsVerdict(host: Host, source: Utf16, tokens: seq<Token>, e: Expr, schema: seq<SchemaEntry>, expected: Option<Type>)
    requires Lexed(host, source) == Tokens(tokens) && Ended(tokens) && TreeOf(source, tokens) == Parser.Tree(e)
    ensures Bounded(e) && Nodes(e) <= MAX_TOKEN_COUNT
    ensures
      match Analysis(source, e, schema, expected)
      case Accepted(t, references) =>
        TypeOf(FieldsOf(schema), e) == Some(t) && references == ReferAll([], Mentions(FieldsOf(schema), e))
      case Rejected(_) => true
      case NoVerdict => false
  {
    TokenSpans(host, source, tokens);
    ParsedTrees(source, tokens, e);
    LexingIsTiling(host, source, tokens);
    EndsWithEof(source, 0, tokens, 0);
    NestedSpansIn(source, e);
    AnalysisVerdict(source, e, schema, expected);
  }

  /** What compilation guarantees of the payload. */
  lemma CompiledPayload(host: Host, source: Utf16, schema: seq<SchemaEntry>, expected: Option<Type>)
    ensures !CompilationOf(host, source, schema, expected).CompileBroken?
    ensures CompilationOf(host, source, schema, expected).Compiled? ==>
      var p := CompilationOf(host, source, schema, expected).payload;
      && p.schema == schema && TypeOf(FieldsOf(schema), p.expression) == Some(p.resultType)
      && p.references == ReferAll([], Mentions(FieldsOf(schema), p.expression))
      && Bounded(p.expression) && Nodes(p.expression) <= MAX_TOKEN_COUNT
  {
    match Lexed(host, source)
    case LexError(_) =>
    case Tokens(tokens) =>
      LexedIsEnded(host, source, tokens);
      match TreeOf(source, tokens)
      case ParseError(_) =>
      case Tree(e) => ParsedGetsVerdict(host, source, tokens, e, schema, expected);
  }

  /**
   * A compiled expression on an accepted record: never an internal error; a value of the inferred
   * type, or a null, string-limit or step-limit failure, and the last only where a built-in is called.
   */
  lemma EndToEnd(host: Host, source: Utf16, schema: seq<SchemaEntry>, expected: Option<Type>,
                 record: map<Utf16, Slot>, values: seq<Value>)
    requires HostSane(host) && CompilationOf(host, source, schema, expected).Compiled?
    requires Accepts(schema, record, values)
    ensures var p := CompilationOf(host, source, schema, expected).payload;
      var (r, steps) := Eval(host, ByName(schema, values), p.expression, 0);
      && steps <= MAX_EVALUATION_STEPS
      && match r
         case Ok(value) => ValueFits(value, p.resultType)
         case Failed(code, span) =>
           if code.EvaluationStepLimitExceeded? then !CallFree(p.expression)
           else CanFail(FieldsOf(schema), p.expression, code, span)
         case Broken => false
  {
    CompiledPayload(host, source, schema, expected);
    var e := CompilationOf(host, source, schema, expected).payload.expression;
    var env := ByName(schema, values);
    AcceptedConforms(record, schema, values);
    TypeSoundness(host, FieldsOf(schema), env, e);
    EvalSpends(host, env, e, 0);
    SpentWithin(Charges(host, env, e), 0);
    if Means(host, env, e).Failed? {
      BlamedCodes(FieldsOf(schema), e, Means(host, env, e).code, Means(host, env, e).span);
    }
    if CallFree(e) {
      WorkWithinSize(host, env, e);
    }
  }

  /** Accepted records with the same values in the referenced fields have the same outcome. */
  lemma OnlyReferencesMatter(host: Host, source: Utf16, schema: seq<SchemaEntry>, expected: Option<Type>,
                             record: map<Utf16, Slot>, values: seq<Value>,
                             other: map<Utf16, Slot>, otherValues: seq<Value>)
    requires CompilationOf(host, source, schema, expected).Compiled?
    requires Accepts(schema, record, values) && Accepts(schema, other, otherValues)
    requires var p := CompilationOf(host, source, schema, expected).payload;
      forall k | 0 <= k < |schema| && schema[k].name in p.references :: values[k] == otherValues[k]
    ensures var p := CompilationOf(host, source, schema, expected).payload;
      Eval(host, ByName(schema, values), p.expression, 0) == Eval(host, ByName(schema, otherValues), p.expression, 0)
  {
    CompiledPayload(host, source, schema, expected);
    var p := CompilationOf(host, source, schema, expected).payload;
    var mentions := Mentions(FieldsOf(schema), p.expression);
    ReferencesAreFirstMentions(mentions);
    MentionsAreDeclared(FieldsOf(schema), p.expression);
    AcceptedConforms(record, schema, values);
    AcceptedConforms(other, schema, otherValues);
    forall name | name in p.references
      ensures name in ByName(schema, values) && name in ByName(schema, otherValues)
      ensures ByName(schema, values)[name] == ByName(schema, otherValues)[name]
    {
      assert name in FieldsOf(schema);
      SameByName(schema, values, otherValues, name);
    }
    NonInterference(host, FieldsOf(schema), ByName(schema, values), ByName(schema, otherValues), p.expression);
  }

  lemma {:induction false} MentionsAreDeclared(fields: Fields, e: Expr)
    ensures forall name | name in Mentions(fields, e) :: name in fields
    decreases e, 1
  {
    match e
    case Literal(_, _) =>
    case Field(_, _) =>
    case Not(operand, _) => MentionsAreDeclared(fields, operand);
    case Binary(_, left, right, _) =>
      MentionsAreDeclared(fields, left);
      MentionsAreDeclared(fields, right);
    case Membership(candidate, _, _) => MentionsAreDeclared(fields, candidate);
    case Call(_, args, _) => AllMentionsAreDeclared(fields, args);
  }

  lemma {:induction false} AllMentionsAreDeclared(fields: Fields, es: seq<Expr>)
    ensures forall name | name in MentionsAll(fields, es) :: name in fields
    decreases es, 0
  {
    if es != [] {
      MentionsAreDeclared(fields, es[0]);
      AllMentionsAreDeclared(fields, es[1..]);
    }
  }

  lemma {:induction false} SameByName(schema: seq<SchemaEntry>, a: seq<Value>, b: seq<Value>, name: Utf16)
    requires |a| == |b| == |schema| && name in ByName(schema, a) && name in ByName(schema, b)
    requires forall k | 0 <= k < |schema| && schema[k].name == name :: a[k] == b[k]
    ensures ByName(schema, a)[name] == ByName(schema, b)[name]
    decreases |schema|
  {
    var n := |schema| - 1;
    if schema != [] && schema[n].name != name {
      SameByName(schema[..n], a[..n], b[..n], name);
    }
  }
}
