/**
 * `Option<T>`: null is accepted as `None`, anything else is validated as a
 * `T`. Its schema marks the inner schema nullable (OpenAPI 3.0) or offers it
 * next to a null schema (`anyOf`, the JSON Schema drafts).
 */
module OptionValidators {
  import opened Wrappers
  import opened JsonValues
  import opened Types
  import opened ValidatorsCore

  /**
   * Validation of `Option<T>`, where `inner` validates a `T`: null gives
   * `None`; any other value gives `Some` of what `inner` produces, or exactly
   * the issues `inner` reports.
   */
  function ValidateOption<T>(inner: Json -> ValidationResult<T>, v: Json): (r: ValidationResult<Option<T>>)
    ensures v.Null? ==> r == Success(None)
    ensures !v.Null? ==> OkValue(r) == (if inner(v).Success? then Some(Some(inner(v).value)) else None)
    ensures !v.Null? ==> IssuesOf(r) == IssuesOf(inner(v))
  {
    if v.Null? then Success(None) else Map(inner(v), (x: T) => Some(x))
  }

  /**
   * A nested option never validates to `Some(None)`: the outer option claims
   * null before the inner one sees it.
   */
  lemma NestedOptionNeverSomeNone<T>(inner: Json -> ValidationResult<T>, v: Json)
    ensures OkValue(ValidateOption((w: Json) => ValidateOption(inner, w), v)) != Some(Some(None))
  {
  }

  /** The null schema offered next to the inner one under the JSON Schema drafts. */
  function NullAlternative(): Json
  {
    Obj([("type", Str("null"))])
  }

  /**
   * The input schema of `Option<T>`, given `inner`, the OpenAPI 3.0 schema of
   * `T`. For OpenAPI 3.0 it is `inner` with `nullable: true` (a non-object
   * `inner` is returned as it is); for the drafts it is an `anyOf` of `inner`
   * and the null schema, carrying the draft's URI.
   */
  function OptionSchema(inner: Json, target: Target): (r: Json)
    ensures target == OpenApi30 && !inner.Obj? ==> r == inner
    ensures target == OpenApi30 && inner.Obj? ==> r.Obj? && Get(r.fields, "nullable") == Some(Bool(true))
    ensures target == OpenApi30 && inner.Obj? ==>
      forall k :: k != "nullable" ==> Get(r.fields, k) == Get(inner.fields, k)
    ensures target != OpenApi30 ==> CarriesUri(r, target)
    ensures target != OpenApi30 ==> Get(r.fields, "anyOf") == Some(Arr([inner, NullAlternative()]))
  {
    match target
    case OpenApi30 =>
      (match inner
       case Obj(fields) => Obj(Insert(fields, "nullable", Bool(true)))
       case _ => inner)
    case _ =>
      var fields := [("anyOf", Arr([inner, NullAlternative()]))];
      assert Get(fields, "anyOf") == Some(Arr([inner, NullAlternative()]));
      AddSchemaUri(Obj(fields), target)
  }
}
