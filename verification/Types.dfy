/** Field types, the signatures of the built-ins, and the typing judgement. */
module Types {
  import opened Basics
  import opened Text
  import opened Syntax

  datatype Type = StringType | NumberType | BooleanType | ScalarType | NullType

  datatype TypeInfo = TypeInfo(kind: Type, nullable: bool)

  /** A field declaration. Only inferred types are ever NullType. */
  datatype SchemaEntry = SchemaEntry(name: Utf16, kind: Type, nullable: bool)

  type Fields = map<Utf16, TypeInfo>

  /** The declared fields by name; the last entry of a name counts. */
  function FieldsOf(schema: seq<SchemaEntry>): Fields {
    if schema == [] then map[]
    else
      var last := schema[|schema| - 1];
      FieldsOf(schema[..|schema| - 1])[last.name := TypeInfo(last.kind, last.nullable)]
  }

  function Parameters(b: Builtin): seq<Type> {
    match b
    case Contains => [StringType, StringType]
    case StartsWithFn => [StringType, StringType]
    case EndsWithFn => [StringType, StringType]
    case EqualsIgnoreCase => [StringType, StringType]
    case TryNumber => [ScalarType]
    case TextFn => [ScalarType]
    case _ => [StringType]
  }

  function ResultType(b: Builtin): TypeInfo {
    match b
    case TrimFn => TypeInfo(StringType, false)
    case Lower => TypeInfo(StringType, false)
    case Upper => TypeInfo(StringType, false)
    case TextFn => TypeInfo(StringType, false)
    case Length => TypeInfo(NumberType, false)
    case TryNumber => TypeInfo(NumberType, true)
    case _ => BOOLEAN
  }

  predicate AcceptsNull(b: Builtin) { b.IsEmpty? || b.IsBlank? || b.TryNumber? }

  const BOOLEAN: TypeInfo := TypeInfo(BooleanType, false)

  function LiteralType(value: Value): TypeInfo {
    match value
    case Null => TypeInfo(NullType, true)
    case Str(_) => TypeInfo(StringType, false)
    case Number(_) => TypeInfo(NumberType, false)
    case Boolean(_) => BOOLEAN
  }

  predicate EqualityCompatible(left: TypeInfo, right: TypeInfo) {
    if left.kind == right.kind then true
    else if left.kind.NullType? then right.nullable
    else if right.kind.NullType? then left.nullable
    else false
  }

  predicate ArgumentCompatible(actual: TypeInfo, expected: Type, acceptsNull: bool) {
    if actual.kind.NullType? then acceptsNull
    else if actual.kind == expected then true
    else expected.ScalarType? && (actual.kind.StringType? || actual.kind.NumberType? || actual.kind.ScalarType?)
  }

  /** Whether two operands of known types suit a binary operator. */
  predicate OperandsSuit(op: BinaryOp, left: TypeInfo, right: TypeInfo) {
    match op
    case And => left.kind.BooleanType? && right.kind.BooleanType?
    case Or => left.kind.BooleanType? && right.kind.BooleanType?
    case Equal => EqualityCompatible(left, right)
    case NotEqual => EqualityCompatible(left, right)
    case _ => left.kind.NumberType? && right.kind.NumberType?
  }

  /** The typing judgement: the type of `e` when every operator and call in it suits its operands. */
  function TypeOf(fields: Fields, e: Expr): Option<TypeInfo>
    decreases e, 1
  {
    match e
    case Literal(value, _) => Some(LiteralType(value))
    case Field(name, _) => if name in fields then Some(fields[name]) else None
    case Not(operand, _) =>
      var t := TypeOf(fields, operand);
      if t.Some? && t.value.kind.BooleanType? then Some(BOOLEAN) else None
    case Binary(op, left, right, _) =>
      var l, r := TypeOf(fields, left), TypeOf(fields, right);
      if l.Some? && r.Some? && OperandsSuit(op, l.value, r.value) then Some(BOOLEAN) else None
    case Membership(candidate, members, _) =>
      var t := TypeOf(fields, candidate);
      if t.Some? && MembersSuit(t.value, members) then Some(BOOLEAN) else None
    case Call(builtin, args, _) =>
      if |args| == |Parameters(builtin)| && ArgumentsSuit(fields, builtin, args, 0)
      then Some(ResultType(builtin)) else None
  }

  predicate MembersSuit(t: TypeInfo, members: seq<LiteralNode>) {
    forall k | 0 <= k < |members| :: EqualityCompatible(t, LiteralType(members[k].value))
  }

  /** The arguments `args` are the ones from the `k`-th on, and each suits its parameter. */
  predicate ArgumentsSuit(fields: Fields, builtin: Builtin, args: seq<Expr>, k: nat)
    requires k + |args| <= |Parameters(builtin)|
    decreases args, 0
  {
    if args == [] then true
    else
      var t := TypeOf(fields, args[0]);
      && t.Some? && ArgumentCompatible(t.value, Parameters(builtin)[k], AcceptsNull(builtin))
      && ArgumentsSuit(fields, builtin, args[1..], k + 1)
  }
}
