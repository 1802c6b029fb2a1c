/** Checking a record against the schema before an evaluation reads it. */
module Records {
  import opened Basics
  import opened Text
  import opened Syntax
  import opened Types

  /** An own property as its descriptor shows it. A property that is not there has no slot. */
  datatype Slot =
    | Accessor
    | NullSlot | UndefinedSlot | StringSlot(s: Utf16) | NumberSlot(r: real) | NonFiniteSlot | BooleanSlot(b: bool)
    | OtherSlot(actual: ActualType)

  /** How a diagnostic names what it found, never what it contained. */
  datatype ActualType =
    | MissingActual | AccessorActual | NullActual | UndefinedActual | StringActual | NumberActual
    | NonFiniteActual | BooleanActual | BigintActual | SymbolActual | FunctionActual | ArrayActual | ObjectActual

  datatype RecordCode = MissingField | RuntimeTypeMismatch | RecordStringLimitExceeded

  datatype Reason = MissingReason | AccessorReason | NullReason | MismatchReason | NonFiniteReason | TooLongReason

  datatype RecordDiagnostic = RecordDiagnostic(code: RecordCode, field: SchemaEntry, reason: Reason, actual: ActualType)

  datatype Snapshot = Values(values: seq<Value>) | BadRecord(diagnostic: RecordDiagnostic)

  datatype FieldCheck = Good(value: Value) | BadField(diagnostic: RecordDiagnostic)

  function ActualOf(slot: Option<Slot>): ActualType {
    match slot
    case None => MissingActual
    case Some(Accessor) => AccessorActual
    case Some(NullSlot) => NullActual
    case Some(UndefinedSlot) => UndefinedActual
    case Some(StringSlot(_)) => StringActual
    case Some(NumberSlot(_)) => NumberActual
    case Some(NonFiniteSlot) => NonFiniteActual
    case Some(BooleanSlot(_)) => BooleanActual
    case Some(OtherSlot(actual)) => actual
  }

  predicate MatchesType(kind: Type, slot: Slot) {
    match kind
    case StringType => slot.StringSlot?
    case NumberType => slot.NumberSlot?
    case BooleanType => slot.BooleanSlot?
    case ScalarType => slot.StringSlot? || slot.NumberSlot?
    case NullType => false
  }

  /** The value a declared field contributes, or the diagnostic of its first failing check. */
  function CheckField(field: SchemaEntry, slot: Option<Slot>): FieldCheck {
    var actual := ActualOf(slot);
    match slot
    case None => BadField(RecordDiagnostic(MissingField, field, MissingReason, actual))
    case Some(Accessor) => BadField(RecordDiagnostic(RuntimeTypeMismatch, field, AccessorReason, actual))
    case Some(NullSlot) =>
      if field.nullable then Good(Null)
      else BadField(RecordDiagnostic(RuntimeTypeMismatch, field, NullReason, actual))
    case Some(present) =>
      if !MatchesType(field.kind, present) then
        var numeric := field.kind.NumberType? || field.kind.ScalarType?;
        BadField(RecordDiagnostic(RuntimeTypeMismatch, field,
                                  if numeric && actual.NonFiniteActual? then NonFiniteReason else MismatchReason, actual))
      else match present
        case StringSlot(s) =>
          if |s| > MAX_STRING_LENGTH
          then BadField(RecordDiagnostic(RecordStringLimitExceeded, field, TooLongReason, actual))
          else Good(Str(s))
        case NumberSlot(r) => Good(Number(r))
        case BooleanSlot(b) => Good(Boolean(b))
        case _ => BadField(RecordDiagnostic(RuntimeTypeMismatch, field, MismatchReason, actual))
  }

  function SlotOf(record: map<Utf16, Slot>, name: Utf16): Option<Slot> {
    if name in record then Some(record[name]) else None
  }

  /** A value of the declared type, null only where the field is nullable. */
  predicate ValueFits(value: Value, t: TypeInfo) {
    match value
    case Null => t.nullable
    case Str(s) => (t.kind.StringType? || t.kind.ScalarType?) && |s| <= MAX_STRING_LENGTH
    case Number(_) => t.kind.NumberType? || t.kind.ScalarType?
    case Boolean(_) => t.kind.BooleanType?
  }

  lemma GoodFieldFits(field: SchemaEntry, slot: Option<Slot>)
    ensures var c := CheckField(field, slot); c.Good? ==> ValueFits(c.value, TypeInfo(field.kind, field.nullable))
  {}

  /** The slot holds exactly this value. */
  predicate SlotHolds(slot: Slot, value: Value) {
    match value
    case Null => slot == NullSlot
    case Str(s) => slot == StringSlot(s)
    case Number(r) => slot == NumberSlot(r)
    case Boolean(b) => slot == BooleanSlot(b)
  }

  /** A field is accepted exactly with the value in its slot, when that is of its type; a text that is not is too long. */
  lemma FieldIsItsSlot(field: SchemaEntry, slot: Option<Slot>, value: Value)
    ensures CheckField(field, slot) == Good(value) <==>
      slot.Some? && SlotHolds(slot.value, value) && ValueFits(value, TypeInfo(field.kind, field.nullable))
    ensures
      var c := CheckField(field, slot);
      c.BadField? ==>
        && c.diagnostic.field == field
        && (c.diagnostic.code.MissingField? <==> slot.None?)
        && (c.diagnostic.code.RecordStringLimitExceeded? <==>
              && slot.Some? && slot.value.StringSlot? && |slot.value.s| > MAX_STRING_LENGTH
              && (field.kind.StringType? || field.kind.ScalarType?))
  {}

  /** Copies the declared fields in schema order; the first bad field decides. */
  method SnapshotRecord(record: map<Utf16, Slot>, schema: seq<SchemaEntry>) returns (r: Snapshot)
    ensures match r
      case Values(values) =>
        |values| == |schema|
        && forall k | 0 <= k < |schema| :: CheckField(schema[k], SlotOf(record, schema[k].name)) == Good(values[k])
      case BadRecord(d) =>
        exists k | 0 <= k < |schema| ::
          && CheckField(schema[k], SlotOf(record, schema[k].name)) == BadField(d)
          && forall j | 0 <= j < k :: CheckField(schema[j], SlotOf(record, schema[j].name)).Good?
  {
    var values: seq<Value> := [];
    for index := 0 to |schema|
      invariant |values| == index
      invariant forall k | 0 <= k < index :: CheckField(schema[k], SlotOf(record, schema[k].name)) == Good(values[k])
    {
      match CheckField(schema[index], SlotOf(record, schema[index].name))
      case BadField(d) => return BadRecord(d);
      case Good(value) => values := values + [value];
    }
    r := Values(values);
  }

  /** Every declared field holds a value of its type. */
  ghost predicate Conforms(fields: Fields, values: map<Utf16, Value>) {
    forall name | name in fields :: name in values && ValueFits(values[name], fields[name])
  }

  /** The values by name, as the evaluator looks them up; the last entry of a name counts. */
  function ByName(schema: seq<SchemaEntry>, values: seq<Value>): map<Utf16, Value>
    requires |values| == |schema|
  {
    if schema == [] then map[]
    else
      var n := |schema| - 1;
      ByName(schema[..n], values[..n])[schema[n].name := values[n]]
  }

  /** Accepted records conform to their schema. */
  lemma {:induction false} AcceptedConforms(record: map<Utf16, Slot>, schema: seq<SchemaEntry>, values: seq<Value>)
    requires |values| == |schema|
    requires forall k | 0 <= k < |schema| :: CheckField(schema[k], SlotOf(record, schema[k].name)) == Good(values[k])
    ensures Conforms(FieldsOf(schema), ByName(schema, values))
    ensures ByName(schema, values).Keys == FieldsOf(schema).Keys
  {
    if schema != [] {
      var n := |schema| - 1;
      AcceptedConforms(record, schema[..n], values[..n]);
      GoodFieldFits(schema[n], SlotOf(record, schema[n].name));
    }
  }
}
