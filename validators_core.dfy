/**
 * The boolean and null validators, and the helper that stamps a schema with
 * the `$schema` URI of its dialect.
 */
module ValidatorsCore {
  import opened Wrappers
  import opened JsonValues
  import opened Types

  /** `schema` is an object whose `type` keyword is `name`. */
  predicate DeclaresType(schema: Json, name: string)
  {
    schema.Obj? && Get(schema.fields, "type") == Some(Str(name))
  }

  /** `schema` is an object carrying the `$schema` URI of `target`, and none when the dialect has no URI. */
  predicate CarriesUri(schema: Json, target: Target)
  {
    schema.Obj? &&
    Get(schema.fields, "$schema") == (if SchemaUri(target) == "" then None else Some(Str(SchemaUri(target))))
  }

  /**
   * `add_schema_uri`: on an object, sets `$schema` to the dialect's URI when
   * the dialect has one; every other key, and every non-object value, is left
   * as it was.
   */
  function AddSchemaUri(schema: Json, target: Target): (r: Json)
    ensures !schema.Obj? ==> r == schema
    ensures schema.Obj? ==> r.Obj?
    ensures schema.Obj? ==>
      Get(r.fields, "$schema") == (if SchemaUri(target) == "" then Get(schema.fields, "$schema") else Some(Str(SchemaUri(target))))
    ensures schema.Obj? ==> forall k :: k != "$schema" ==> Get(r.fields, k) == Get(schema.fields, k)
  {
    match schema
    case Obj(fields) =>
      var uri := SchemaUri(target);
      if uri != "" then Obj(Insert(fields, "$schema", Str(uri))) else schema
    case _ => schema
  }

  /** Validation of `bool`: succeeds exactly on JSON booleans, with that boolean. */
  function ValidateBool(v: Json): (r: ValidationResult<bool>)
    ensures r.Success? <==> v.Bool?
    ensures r.Success? ==> r.value == v.b
    ensures r.Failure? ==> IssuesOf(r) == [Issue("Expected boolean", None)]
  {
    match v
    case Bool(b) => Success(b)
    case _ => FailureOf("Expected boolean")
  }

  /** The input schema of `bool`. */
  function BoolSchema(target: Target): (r: Json)
    ensures DeclaresType(r, "boolean") && CarriesUri(r, target)
  {
    AddSchemaUri(Obj([("type", Str("boolean"))]), target)
  }

  /** Validation of `()`: succeeds exactly on JSON null. */
  function ValidateUnit(v: Json): (r: ValidationResult<()>)
    ensures r.Success? <==> v.Null?
    ensures r.Failure? ==> IssuesOf(r) == [Issue("Expected null", None)]
  {
    match v
    case Null => Success(())
    case _ => FailureOf("Expected null")
  }

  /** The input schema of `()`. */
  function NullSchema(target: Target): (r: Json)
    ensures DeclaresType(r, "null") && CarriesUri(r, target)
  {
    AddSchemaUri(Obj([("type", Str("null"))]), target)
  }
}
