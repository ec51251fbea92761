/**
 * Validation of the fixed-width integer types. Signed types read the value
 * through `as_i64`, unsigned ones through `as_u64`; a value that the view
 * accepts but that does not fit the type is "out of range", anything else is
 * not an integer of the right sign.
 */
module NumberValidators {
  import opened Wrappers
  import opened JsonValues
  import opened Types
  import opened ValidatorsCore

  datatype IntKind = I8 | I16 | I32 | I64 | U8 | U16 | U32 | U64

  predicate Signed(k: IntKind)
  {
    k in {I8, I16, I32, I64}
  }

  function MinOf(k: IntKind): int
  {
    match k
    case I8 => -0x80
    case I16 => -0x8000
    case I32 => -0x8000_0000
    case I64 => I64_MIN
    case _ => 0
  }

  function MaxOf(k: IntKind): int
  {
    match k
    case I8 => 0x7F
    case I16 => 0x7FFF
    case I32 => 0x7FFF_FFFF
    case I64 => I64_MAX
    case U8 => 0xFF
    case U16 => 0xFFFF
    case U32 => 0xFFFF_FFFF
    case U64 => U64_MAX
  }

  /** The reading of a JSON value the validator of `k` starts from: `as_i64` or `as_u64`. */
  function View(k: IntKind, v: Json): Option<int>
  {
    if Signed(k) then AsI64(v) else AsU64(v)
  }

  /** The message for a value the view does not accept. */
  function NotIntegerMessage(k: IntKind): string
  {
    if Signed(k) then "Expected integer" else "Expected non-negative integer"
  }

  /** The message for a value the view accepts but the type cannot hold (only the narrow types have one). */
  function RangeMessage(k: IntKind): string
  {
    match k
    case I8 => "Integer out of range for i8 (-128 to 127)"
    case I16 => "Integer out of range for i16 (-32768 to 32767)"
    case I32 => "Integer out of range for i32 (-2147483648 to 2147483647)"
    case U8 => "Integer out of range for u8 (0 to 255)"
    case U16 => "Integer out of range for u16 (0 to 65535)"
    case U32 => "Integer out of range for u32 (0 to 4294967295)"
    case _ => ""
  }

  /**
   * Validation of the integer type `k`: it accepts exactly the integer-tagged
   * numbers between the type's bounds and returns that number; a rejected
   * value gets one issue without a path, "out of range" when the `as_i64` /
   * `as_u64` view accepted it and the type's "expected" message otherwise.
   */
  function ValidateInt(k: IntKind, v: Json): (r: ValidationResult<int>)
    ensures r.Success? <==> v.Int? && MinOf(k) <= v.i <= MaxOf(k)
    ensures r.Success? ==> r.value == v.i
    ensures r.Failure? ==>
      IssuesOf(r) == [Issue(if View(k, v).Some? then RangeMessage(k) else NotIntegerMessage(k), None)]
  {
    match k
    case I64 =>
      (match AsI64(v)
       case Some(n) => Success(n)
       case None => FailureOf("Expected integer"))
    case U64 =>
      (match AsU64(v)
       case Some(n) => Success(n)
       case None => FailureOf("Expected non-negative integer"))
    case _ =>
      (match View(k, v)
       case Some(n) => if MinOf(k) <= n <= MaxOf(k) then Success(n) else FailureOf(RangeMessage(k))
       case None => FailureOf(NotIntegerMessage(k)))
  }

  /** The input schema shared by every integer type. */
  function IntegerSchema(target: Target): (r: Json)
    ensures DeclaresType(r, "integer") && CarriesUri(r, target)
  {
    AddSchemaUri(Obj([("type", Str("integer"))]), target)
  }
}
