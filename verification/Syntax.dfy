/** Tokens, syntax trees, diagnostics and fixed limits of the expression language. */
module Syntax {
  import opened Basics
  import opened Text

  const MAX_SOURCE_LENGTH: nat := 16_384
  const MAX_TOKEN_COUNT: nat := 4_096
  const MAX_STRING_LENGTH: nat := 4_096
  const MAX_FIELD_NAME_LENGTH: nat := 256
  const MAX_NESTING_DEPTH: nat := 64
  const MAX_SEMANTIC_DIAGNOSTICS: nat := 20
  const MAX_EVALUATION_STEPS: nat := 10_000

  /** The parts of the JavaScript runtime that the language calls and does not define. */
  datatype Host = Host(
    number: Utf16 -> Option<real>,  // `Number(text)`, None when it is not finite
    show: real -> Utf16,            // `String(number)`
    lower: Utf16 -> Utf16,          // `toLowerCase`
    upper: Utf16 -> Utf16           // `toUpperCase`
  )

  datatype Span = Span(start: nat, end: nat)

  /** A runtime scalar. Literals carry the same values. */
  datatype Value = Null | Boolean(b: bool) | Number(r: real) | Str(s: Utf16)

  datatype Kind =
    | NumberKind | StringKind | FieldKind | IdentifierKind
    | TrueKind | FalseKind | NullKind | AndKind | OrKind | NotKind | InKind
    | LeftParen | RightParen | Comma
    | EqualKind | NotEqualKind | LessKind | LessEqualKind | GreaterKind | GreaterEqualKind
    | Eof

  /** `value` is the decoded payload; tokens without one carry Null. */
  datatype Token = Token(kind: Kind, value: Value, span: Span)

  predicate Ended(tokens: seq<Token>) { tokens != [] && tokens[|tokens| - 1].kind.Eof? }

  /** The end of file is last and nowhere else. */
  predicate Terminated(tokens: seq<Token>) {
    Ended(tokens) && forall k | 0 <= k < |tokens| - 1 :: !tokens[k].kind.Eof?
  }

  datatype Builtin =
    | IsEmpty | IsBlank | Contains | StartsWithFn | EndsWithFn | EqualsIgnoreCase
    | TrimFn | Lower | Upper | Length | TryNumber | TextFn

  datatype BinaryOp = And | Or | Equal | NotEqual | Less | LessEqual | Greater | GreaterEqual

  datatype LiteralNode = LiteralNode(value: Value, span: Span)

  datatype Expr =
    | Literal(value: Value, span: Span)
    | Field(name: Utf16, span: Span)
    | Not(operand: Expr, span: Span)
    | Binary(op: BinaryOp, left: Expr, right: Expr, span: Span)
    | Membership(candidate: Expr, members: seq<LiteralNode>, span: Span)
    | Call(builtin: Builtin, args: seq<Expr>, span: Span)

  datatype Code =
    | SourceTooLong | TokenLimitExceeded | StringLiteralTooLong | FieldNameTooLong
    | NestingLimitExceeded | InvalidCharacter | InvalidString | InvalidNumber | UnexpectedToken
    | UnknownField | TypeMismatch | InvalidArgumentCount | ExpectedResultTypeMismatch
    | StringValueLimitExceeded | NullNotAllowed | EvaluationStepLimitExceeded

  datatype Diagnostic = Diagnostic(code: Code, span: Span)

  /** A diagnostic whose span is clamped into the source, as every source diagnostic is. */
  function SourceDiagnostic(source: Utf16, code: Code, start: nat, end: nat): (d: Diagnostic)
    ensures d.span.start <= d.span.end <= |source|
    ensures start <= end <= |source| ==> d.span == Span(start, end)
  {
    var safeStart := if start < |source| then start else |source|;
    var safeEnd := if end < |source| then end else |source|;
    Diagnostic(code, Span(safeStart, if safeStart < safeEnd then safeEnd else safeStart))
  }

  const IS_EMPTY: Utf16 := [105, 115, 101, 109, 112, 116, 121]
  const IS_BLANK: Utf16 := [105, 115, 98, 108, 97, 110, 107]
  const CONTAINS: Utf16 := [99, 111, 110, 116, 97, 105, 110, 115]
  const STARTS_WITH: Utf16 := [115, 116, 97, 114, 116, 115, 119, 105, 116, 104]
  const ENDS_WITH: Utf16 := [101, 110, 100, 115, 119, 105, 116, 104]
  const EQUALS_IGNORE_CASE: Utf16 := [101, 113, 117, 97, 108, 115, 105, 103, 110, 111, 114, 101, 99, 97, 115, 101]
  const TRIM: Utf16 := [116, 114, 105, 109]
  const LOWER: Utf16 := [108, 111, 119, 101, 114]
  const UPPER: Utf16 := [117, 112, 112, 101, 114]
  const LENGTH: Utf16 := [108, 101, 110, 103, 116, 104]
  const TRY_NUMBER: Utf16 := [116, 114, 121, 110, 117, 109, 98, 101, 114]
  const TEXT: Utf16 := [116, 101, 120, 116]

  /** The canonical lowercase spelling of each built-in. */
  function BuiltinName(b: Builtin): Utf16 {
    match b
    case IsEmpty => IS_EMPTY
    case IsBlank => IS_BLANK
    case Contains => CONTAINS
    case StartsWithFn => STARTS_WITH
    case EndsWithFn => ENDS_WITH
    case EqualsIgnoreCase => EQUALS_IGNORE_CASE
    case TrimFn => TRIM
    case Lower => LOWER
    case Upper => UPPER
    case Length => LENGTH
    case TryNumber => TRY_NUMBER
    case TextFn => TEXT
  }

  /** The table order of the built-ins. */
  function BuiltinAt(k: nat): Builtin
    requires k < 12
  {
    match k
    case 0 => IsEmpty
    case 1 => IsBlank
    case 2 => Contains
    case 3 => StartsWithFn
    case 4 => EndsWithFn
    case 5 => EqualsIgnoreCase
    case 6 => TrimFn
    case 7 => Lower
    case 8 => Upper
    case 9 => Length
    case 10 => TryNumber
    case 11 => TextFn
  }

  function FindBuiltin(name: Utf16, k: nat): Option<Builtin>
    requires k <= 12
    decreases 12 - k, |name|
  {
    if k == 12 then None
    else if BuiltinName(BuiltinAt(k)) == name then Some(BuiltinAt(k))
    else FindBuiltin(name, k + 1)
  }

  /** Case-insensitive lookup of an authored identifier in the closed built-in table. */
  function GetBuiltin(name: Utf16): Option<Builtin> { FindBuiltin(AsciiLower(name), 0) }

  lemma BuiltinNamesDiffer(b: Builtin, c: Builtin)
    requires BuiltinName(b) == BuiltinName(c)
    ensures b == c
  {
    var m, n := BuiltinName(b), BuiltinName(c);
    assert m[0] == n[0] && m[2] == n[2];
  }
}
