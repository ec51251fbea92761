/**
 * Validation of strings and of the length-constrained string wrappers. The
 * wrappers measure a string in UTF-8 bytes (`str::len`), although their
 * messages speak of characters.
 */
module StringValidators {
  import opened Wrappers
  import opened JsonValues
  import opened Types
  import opened ValidatorsCore

  /** Validation of `String`: succeeds exactly on JSON strings, with that string. */
  function ValidateString(v: Json): (r: ValidationResult<string>)
    ensures r.Success? <==> v.Str?
    ensures r.Success? ==> r.value == v.s
    ensures r.Failure? ==> IssuesOf(r) == [Issue("Expected string", None)]
  {
    match v
    case Str(s) => Success(s)
    case _ => FailureOf("Expected string")
  }

  /** Validation of `NonEmptyString`: succeeds exactly on non-empty JSON strings. */
  function ValidateNonEmpty(v: Json): (r: ValidationResult<string>)
    ensures r.Success? <==> v.Str? && |v.s| > 0
    ensures r.Success? ==> r.value == v.s
    ensures r.Failure? ==>
      IssuesOf(r) == [Issue(if v.Str? then "String must not be empty" else "Expected string", None)]
  {
    match v
    case Str(s) => if |s| > 0 then Success(s) else FailureOf("String must not be empty")
    case _ => FailureOf("Expected string")
  }

  /** Validation of `MinLengthString<n>`: succeeds exactly on strings of at least `n` UTF-8 bytes. */
  function ValidateMinLength(n: nat, v: Json): (r: ValidationResult<string>)
    ensures r.Success? <==> v.Str? && Utf8Len(v.s) >= n
    ensures r.Success? ==> r.value == v.s
    ensures r.Failure? && v.Str? ==>
      IssuesOf(r) == [Issue("String must be at least " + NatToString(n) + " characters, got " + NatToString(Utf8Len(v.s)), None)]
    ensures r.Failure? && !v.Str? ==> IssuesOf(r) == [Issue("Expected string", None)]
  {
    match v
    case Str(s) =>
      if Utf8Len(s) >= n then Success(s)
      else FailureOf("String must be at least " + NatToString(n) + " characters, got " + NatToString(Utf8Len(s)))
    case _ => FailureOf("Expected string")
  }

  /** Validation of `MaxLengthString<n>`: succeeds exactly on strings of at most `n` UTF-8 bytes. */
  function ValidateMaxLength(n: nat, v: Json): (r: ValidationResult<string>)
    ensures r.Success? <==> v.Str? && Utf8Len(v.s) <= n
    ensures r.Success? ==> r.value == v.s
    ensures r.Failure? && v.Str? ==>
      IssuesOf(r) == [Issue("String must be at most " + NatToString(n) + " characters, got " + NatToString(Utf8Len(v.s)), None)]
    ensures r.Failure? && !v.Str? ==> IssuesOf(r) == [Issue("Expected string", None)]
  {
    match v
    case Str(s) =>
      if Utf8Len(s) <= n then Success(s)
      else FailureOf("String must be at most " + NatToString(n) + " characters, got " + NatToString(Utf8Len(s)))
    case _ => FailureOf("Expected string")
  }

  /**
   * The length wrappers agree with a character count exactly on ASCII text:
   * for such a string, at least `n` bytes means at least `n` characters.
   */
  lemma LengthWrappersCountCharsOnAscii(n: nat, s: string)
    requires IsAscii(s)
    ensures ValidateMinLength(n, Str(s)).Success? <==> |s| >= n
    ensures ValidateMaxLength(n, Str(s)).Success? <==> |s| <= n
  {
  }

  /** A one-character string whose character takes two bytes passes `MinLengthString<2>`. */
  lemma MinLengthCountsBytes()
    ensures ValidateMinLength(2, Str("\U{e9}")).Success?
    ensures |"\U{e9}"| == 1
  {
    assert Utf8Len("\U{e9}") == Utf8Width('\U{e9}') + Utf8LenFrom("\U{e9}", 1);
  }

  /** The input schema of `String`. */
  function StringSchema(target: Target): (r: Json)
    ensures DeclaresType(r, "string") && CarriesUri(r, target)
  {
    AddSchemaUri(Obj([("type", Str("string"))]), target)
  }

  /** The input schema of `NonEmptyString`: a string of `minLength` 1. */
  function NonEmptySchema(target: Target): (r: Json)
    ensures DeclaresType(r, "string") && CarriesUri(r, target)
    ensures Get(r.fields, "minLength") == Some(Int(1))
  {
    AddSchemaUri(Obj([("type", Str("string")), ("minLength", Int(1))]), target)
  }

  /** The input schema of `MinLengthString<n>`. */
  function MinLengthSchema(n: nat, target: Target): (r: Json)
    ensures DeclaresType(r, "string") && CarriesUri(r, target)
    ensures Get(r.fields, "minLength") == Some(Int(n))
  {
    var fields := [("type", Str("string")), ("minLength", Int(n))];
    assert LookupFrom(fields, "minLength", 1) == Some(1);
    AddSchemaUri(Obj(fields), target)
  }

  /** The input schema of `MaxLengthString<n>`. */
  function MaxLengthSchema(n: nat, target: Target): (r: Json)
    ensures DeclaresType(r, "string") && CarriesUri(r, target)
    ensures Get(r.fields, "maxLength") == Some(Int(n))
  {
    var fields := [("type", Str("string")), ("maxLength", Int(n))];
    assert LookupFrom(fields, "maxLength", 1) == Some(1);
    AddSchemaUri(Obj(fields), target)
  }
}
