/** Helpers for assembling JSON Schemas of structs field by field. */
module SchemaBuilders {
  import opened Wrappers
  import opened JsonValues
  import opened Types
  import opened ValidatorsCore
  import opened TypeSchemas

  /** `property_schema`: the schema of a field's type, built without a `$schema` key. */
  function PropertySchema(t: ValueType): (r: Json)
    ensures r.Obj? && Get(r.fields, "$schema") == None
  {
    OpenApiSchemasHaveNoUri(t);
    SchemaOf(t, OpenApi30)
  }

  /** A JSON array of the given strings. */
  function StringArray(names: seq<string>): (r: seq<Json>)
    ensures |r| == |names|
    ensures forall i :: 0 <= i < |names| ==> r[i] == Str(names[i])
  {
    seq(|names|, i requires 0 <= i < |names| => Str(names[i]))
  }

  /**
   * `create_object_schema`: an object schema with the given properties; the
   * `required` list appears exactly when it is non-empty, and `$schema`
   * exactly when the dialect has a URI.
   */
  function CreateObjectSchema(target: Target, properties: seq<(string, Json)>, required: seq<string>): (r: Json)
    ensures DeclaresType(r, "object") && CarriesUri(r, target)
    ensures Get(r.fields, "properties") == Some(Obj(properties))
    ensures Get(r.fields, "required") == if |required| == 0 then None else Some(Arr(StringArray(required)))
  {
    var base := [("type", Str("object")), ("properties", Obj(properties))];
    assert LookupFrom(base, "properties", 1) == Some(1);
    var withRequired := if |required| > 0 then Insert(base, "required", Arr(StringArray(required))) else base;
    var uri := SchemaUri(target);
    Obj(if uri != "" then Insert(withRequired, "$schema", Str(uri)) else withRequired)
  }

  /**
   * `string_schema_with_constraints`: a string schema with `minLength` and
   * `maxLength` exactly when they are given, and never a `$schema`.
   */
  function StringSchemaWithConstraints(minLength: Option<nat>, maxLength: Option<nat>): (r: Json)
    ensures DeclaresType(r, "string")
    ensures Get(r.fields, "minLength") == if minLength.Some? then Some(Int(minLength.value)) else None
    ensures Get(r.fields, "maxLength") == if maxLength.Some? then Some(Int(maxLength.value)) else None
    ensures Get(r.fields, "$schema") == None
  {
    var base := [("type", Str("string"))];
    var withMin := if minLength.Some? then Insert(base, "minLength", Int(minLength.value)) else base;
    Obj(if maxLength.Some? then Insert(withMin, "maxLength", Int(maxLength.value)) else withMin)
  }
}
