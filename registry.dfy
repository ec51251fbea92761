/**
 * `SchemaRegistry`: named schemas, each compiled once when it is registered,
 * and validation of values against them by name. Values and schemas are
 * taken as already decoded `Json`.
 */
module Registry {
  import opened Wrappers
  import opened JsonValues
  import opened Types
  import opened Compiler
  import opened Machine
  import opened Semantics
  import opened Engines
  import opened Verdicts
  import opened Modes
  import opened ValidatorsCore

  /** ASCII lowercasing: `A`..`Z` become `a`..`z`, every other character is kept. */
  function LowerAscii(s: string): (r: string)
    ensures |r| == |s|
    ensures forall i :: 0 <= i < |s| ==> r[i] == (if 'A' <= s[i] <= 'Z' then (s[i] as int + 32) as char else s[i])
  {
    seq(|s|, i requires 0 <= i < |s| => if 'A' <= s[i] <= 'Z' then (s[i] as int + 32) as char else s[i])
  }

  /** Lowercasing twice is lowercasing once. */
  lemma LowerAsciiIdempotent(s: string)
    ensures LowerAscii(LowerAscii(s)) == LowerAscii(s)
  {
    var l := LowerAscii(s);
    forall i | 0 <= i < |s| ensures LowerAscii(l)[i] == l[i] {
      assert !('A' <= l[i] <= 'Z');
    }
  }

  /** The names `parse_target` accepts for each dialect, in lower case. */
  function Aliases(t: Target): set<string>
  {
    match t
    case Draft202012 => {"draft-2020-12", "draft2020-12", "2020-12"}
    case Draft07 => {"draft-07", "draft07", "07"}
    case OpenApi30 => {"openapi-3.0", "openapi30", "openapi"}
  }

  /** The message of `TargetParseError`. */
  function UnknownTarget(target: string): string
  {
    "Unknown target '" + target + "'. Supported: draft-2020-12, draft-07, openapi-3.0"
  }

  /**
   * `parse_target`: the dialect whose alias the lowercased name is, or the
   * unknown-target error naming the name as given.
   */
  function ParseTarget(target: string): (r: Result<Target>)
    ensures r.Ok? ==> LowerAscii(target) in Aliases(r.value)
    ensures r.Err? ==> r.error == UnknownTarget(target) && forall t :: LowerAscii(target) !in Aliases(t)
  {
    var name := LowerAscii(target);
    if name in Aliases(Draft202012) then Ok(Draft202012)
    else if name in Aliases(Draft07) then Ok(Draft07)
    else if name in Aliases(OpenApi30) then Ok(OpenApi30)
    else Err(UnknownTarget(target))
  }

  /** The aliases of different dialects do not overlap, so every alias, in any case, parses to its own dialect. */
  lemma ParseTargetAlias(target: string, t: Target)
    requires LowerAscii(target) in Aliases(t)
    ensures ParseTarget(target) == Ok(t)
  {
  }

  /** Names that differ only in the case of ASCII letters parse to the same dialect. */
  lemma ParseTargetIgnoresCase(target: string)
    ensures ParseTarget(target).Ok? ==> ParseTarget(LowerAscii(target)) == ParseTarget(target)
  {
    LowerAsciiIdempotent(target);
  }

  /** `RegisteredSchema`: the schema as given and its compiled operations. */
  datatype Registered = Registered(schema: Json, compiled: seq<Op>)

  /** The error every by-name operation returns for a name that is not registered. */
  function NotFound(name: string): string
  {
    "Schema '" + name + "' not found in registry"
  }

  /**
   * Run on the compiled operations of `s` for as many iterations as the
   * reference evaluation counts, either engine reaches the end of the
   * operations having recorded the reference faults, which are none exactly
   * when the schema accepts the value.
   */
  lemma CompiledRun(mode: Mode, s: Json, root: Json, ops: seq<Op>, total: nat)
    requires ops == Compile(s) && total == Cost(Lower(s), root) + 1
    ensures Run(mode, root, ops, Start, total).ip >= |ops|
    ensures Run(mode, root, ops, Start, total).issues == EvalNode(mode, Lower(s), root, []).issues
    ensures Run(mode, root, ops, Start, total).issues == [] <==> Accepts(mode, Lower(s), root)
  {
    RunCompiled(mode, s, root);
    NodePasses(mode, Lower(s), root, []);
  }

  class SchemaRegistry {
    var schemas: map<string, Registered>

    /** Every registered entry holds the compilation of its own schema. */
    ghost predicate Valid()
      reads this
    {
      forall name :: name in schemas ==> schemas[name].compiled == Compile(schemas[name].schema)
    }

    /** `new`: an empty registry. */
    constructor()
      ensures schemas == map[] && Valid()
    {
      schemas := map[];
    }

    /** `register`: compiles the schema and stores it under the name, replacing any entry already there. */
    method Register(name: string, schema: Json)
      requires Valid()
      modifies this
      ensures Valid()
      ensures schemas == old(schemas)[name := Registered(schema, Compile(schema))]
      ensures HasSchema(name)
    {
      var compiled := CompileSchema(schema);
      schemas := schemas[name := Registered(schema, compiled)];
    }

    /** `unregister`: whether the name was registered; afterwards it is not, and every other entry is kept. */
    method Unregister(name: string) returns (removed: bool)
      requires Valid()
      modifies this
      ensures Valid()
      ensures removed <==> name in old(schemas)
      ensures schemas == old(schemas) - {name}
      ensures !HasSchema(name)
    {
      removed := name in schemas;
      schemas := schemas - {name};
    }

    /** `has_schema`. */
    predicate HasSchema(name: string)
      reads this
    {
      name in schemas
    }

    /** `list_schemas`, as a set: exactly the names `has_schema` answers `true` for. */
    function ListSchemas(): (names: set<string>)
      reads this
      ensures forall name :: name in names <==> HasSchema(name)
    {
      set name | name in schemas
    }

    /**
     * `validate`: the not-found error for an unknown name; otherwise the
     * result of `execute_compiled` on the registered operations. That result
     * is `Success` of the value exactly when the schema accepts it, and
     * otherwise carries one issue per fault the reference evaluation finds.
     */
    method Validate(name: string, value: Json) returns (r: Result<ValidationResult<Json>>)
      requires Valid()
      ensures name !in schemas ==> r == Err(NotFound(name))
      ensures name in schemas ==> r.Ok?
      ensures name in schemas ==>
        r.Ok? && (r.value.Success? <==> Accepts(Full, Lower(schemas[name].schema), value))
      ensures name in schemas ==> r.Ok? && (r.value.Success? ==> r.value.value == value)
      ensures name in schemas ==>
        r.Ok? && IssuesOf(r.value) == Reports(EvalNode(Full, Lower(schemas[name].schema), value, []).issues)
    {
      if name !in schemas {
        return Err(NotFound(name));
      }
      var entry := schemas[name];
      ghost var total := Cost(Lower(entry.schema), value) + 1;
      CompiledRun(Full, entry.schema, value, entry.compiled, total);
      var result := ExecuteCompiled(value, entry.compiled, total);
      r := Ok(result);
    }

    /**
     * `validate_fast`: the not-found error for an unknown name; otherwise the
     * answer of `execute_compiled_bool`, `true` exactly when the schema
     * accepts the value with string lengths counted in bytes. On values whose
     * strings are ASCII it agrees with `validate`.
     */
    method ValidateFast(name: string, value: Json) returns (r: Result<bool>)
      requires Valid()
      ensures name !in schemas ==> r == Err(NotFound(name))
      ensures name in schemas ==> r.Ok? && (r.value <==> Accepts(Fast, Lower(schemas[name].schema), value))
      ensures name in schemas && AsciiText(value) ==>
        (r.value <==> Accepts(Full, Lower(schemas[name].schema), value))
    {
      if name !in schemas {
        return Err(NotFound(name));
      }
      var entry := schemas[name];
      ghost var total := Cost(Lower(entry.schema), value) + 1;
      CompiledRun(Fast, entry.schema, value, entry.compiled, total);
      if AsciiText(value) {
        NodeModesAgree(Lower(entry.schema), value, []);
        NodePasses(Full, Lower(entry.schema), value, []);
      }
      var valid := ExecuteCompiledBool(value, entry.compiled, total);
      r := Ok(valid);
    }

    /**
     * `json_schema`: the not-found error for an unknown name, then the
     * unknown-target error; otherwise the registered schema with the
     * dialect's `$schema` URI set when it has one.
     */
    method JsonSchema(name: string, target: string) returns (r: Result<Json>)
      ensures name !in schemas ==> r == Err(NotFound(name))
      ensures name in schemas && ParseTarget(target).Err? ==> r == Err(UnknownTarget(target))
      ensures name in schemas && ParseTarget(target).Ok? ==>
        r == Ok(AddSchemaUri(schemas[name].schema, ParseTarget(target).value))
    {
      if name !in schemas {
        return Err(NotFound(name));
      }
      var parsed := ParseTarget(target);
      if parsed.Err? {
        return Err(parsed.error);
      }
      r := Ok(AddSchemaUri(schemas[name].schema, parsed.value));
    }
  }
}
