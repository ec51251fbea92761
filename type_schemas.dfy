/**
 * The `StandardJsonSchema` implementations of the built-in types, gathered
 * behind one description of a type so that properties about every type's
 * schema can be proved by induction over nested options.
 */
module TypeSchemas {
  import opened Wrappers
  import opened JsonValues
  import opened Types
  import opened ValidatorsCore
  import opened NumberValidators
  import opened StringValidators
  import opened OptionValidators

  /** A built-in type with a schema. */
  datatype ValueType =
    | BoolType
    | UnitType
    | IntegerType(kind: IntKind)
    | StringType
    | NonEmptyStringType
    | MinLengthStringType(min: nat)
    | MaxLengthStringType(max: nat)
    | OptionType(inner: ValueType)

  /** `json_schema_input` (which `json_schema_output` repeats) of type `t` for `target`. */
  function SchemaOf(t: ValueType, target: Target): Json
  {
    match t
    case BoolType => BoolSchema(target)
    case UnitType => NullSchema(target)
    case IntegerType(_) => IntegerSchema(target)
    case StringType => StringSchema(target)
    case NonEmptyStringType => NonEmptySchema(target)
    case MinLengthStringType(n) => MinLengthSchema(n, target)
    case MaxLengthStringType(n) => MaxLengthSchema(n, target)
    case OptionType(inner) => OptionSchema(SchemaOf(inner, OpenApi30), target)
  }

  /** Every OpenAPI 3.0 schema is an object without a `$schema` key, however deeply options nest. */
  lemma {:induction false} OpenApiSchemasHaveNoUri(t: ValueType)
    ensures SchemaOf(t, OpenApi30).Obj?
    ensures Get(SchemaOf(t, OpenApi30).fields, "$schema") == None
  {
    match t
    case OptionType(inner) =>
      OpenApiSchemasHaveNoUri(inner);
    case _ =>
  }

  /** Under a JSON Schema draft, every type's schema carries the draft's URI at its root. */
  lemma DraftSchemasCarryUri(t: ValueType, target: Target)
    requires target != OpenApi30
    ensures CarriesUri(SchemaOf(t, target), target)
  {
  }
}
