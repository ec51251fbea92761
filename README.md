# valrs: the compiled schema validator, modelled in Dafny

valrs is a Rust validation library. Its WebAssembly crate keeps a
`SchemaRegistry` of named JSON Schemas. A schema is compiled once, when it is
registered, into a flat list of `ValidationOp`s. Values are then validated
against that list by one of two stack machines:

- `execute_compiled` collects every issue, each with its path;
- `execute_compiled_bool` answers `false` at the first failure.

The crate also keeps the older recursive validator `validate_against_schema`.
The core library supplies the result types (`ValidationResult`,
`ValidationIssue`, `PathSegment`, `JsonSchemaTarget`) and validators for the
built-in types: `bool`, `()`, the fixed-width integers, the string wrappers
and `Option<T>`. Each comes with its JSON Schema. The `valrs-json` crate adds
three schema builders.

The model, module by module:

- `JsonValues` holds JSON values as serde_json stores them, with an
  integer/float distinction. Objects are association lists in the map's
  iteration order.
- `Types`, `ValidatorsCore`, `NumberValidators`, `StringValidators`,
  `OptionValidators` and `SchemaBuilders` are pure functions over these
  values. `TypeSchemas` proves facts about the schema of every built-in type,
  by induction over nested options.
- `Compiler` reads a schema's keywords into a tree (`Lower`) and lays that
  tree out as operations (`Encode`). The imperative compiler is a family of
  methods that append to an operation list, mirroring
  `compile_schema_recursive`. `CompileSchema` is proved to produce
  `Encode(Lower(s))` followed by `Done`. `Layout` proves that this list is
  well bracketed and that the skip scans jump over whole sub-schemas.
- `Machine` defines `Step`, one iteration of either engine's loop, and
  `Run`, that many iterations. `Semantics` defines `EvalNode`, a recursive
  evaluation of the schema tree that threads the path stack exactly as the
  engines do. `Correctness` and `Positions` prove that running a compiled
  node is `EvalNode`.
- `Engines` holds `ExecuteCompiled` and `ExecuteCompiledBool` as while-loop
  methods over the contexts, the path stack and the issue list. Each is
  proved against `Run`, for any operation list whose run ends. For a
  compiled schema, `RunCompiled` says that the run ends and what it records.
- `Verdicts` states acceptance without the machine (`Accepts`).
- `Modes` proves that the two engines agree on values whose strings are
  ASCII, and shows one value on which they disagree.
- `Interpreted` models `validate_against_schema` and proves that it accepts
  the same values as the compiled engine on the schemas both read the same
  way. It also exhibits three schemas on which they differ.
- `Registry` holds `parse_target` and the `SchemaRegistry` class.

Some behaviours of the source are kept as written:

- The full engine measures strings in characters; the bool engine measures
  them in UTF-8 bytes.
- A property schema on a value that is not an object runs against the value
  itself.
- The compiler casts each `minLength`, `maxLength`, `minItems` and `maxItems`
  count to `usize`. The crate is built for wasm32, where `usize` has 32 bits,
  so a count of 2^32 or more keeps only its low 32 bits.
- The path stack is popped twice between array elements, once by
  `ExitArray` and once by the next `CheckArrayItems`. So from an array's
  second element on, issues lose the segment that led to the array.
  `EvalItems` and the engines follow this. `PathRepair` defines the evidently
  intended evaluation beside it (see Findings).

## Model

| member | source | states |
|---|---|---|
| JsonValues.Insert | crates/valrs-json/src/lib.rs:98-110 | after inserting, the key looks up the new value and every other key looks up what it did before |
| JsonValues.LookupFirst | crates/valrs-wasm/src/lib.rs:1783 | the lookup finds the first field with the key, and finds none exactly when no field has it |
| JsonValues.Utf8Len | crates/valrs/src/validators/string.rs:73 | a string's byte length is at least its character count, and equal to it exactly when the string is ASCII |
| Types.SchemaUri | crates/valrs/src/types.rs:191-197 | each draft has its `$schema` URI; OpenAPI 3.0 has the empty one |
| Types.FailureOf | crates/valrs/src/types.rs:23-26 | `failure` is a failed result with exactly one issue, which has the given message and no path |
| Types.FailureAt | crates/valrs/src/types.rs:28-31 | `failure_at` is a failed result with exactly one issue, at the given path |
| Types.Map | crates/valrs/src/types.rs:64-69 | `map` transforms a success's value; a failure keeps its issues |
| Types.WithPathPrefix | crates/valrs/src/types.rs:72-90 | each issue keeps its message, and the segment is put in front of its path (a path-less issue gets a path of one segment); a success is unchanged |
| Types.WithPathPrefixNests | crates/valrs/src/types.rs:236-242 | prefixing with `inner` and then `outer` puts `[outer, inner]` in front of every path |
| ValidatorsCore.AddSchemaUri | crates/valrs/src/validators/mod.rs:78-85 | on an object, `$schema` is set exactly when the dialect has a URI and every other key is kept; a non-object is unchanged |
| ValidatorsCore.ValidateBool | crates/valrs/src/validators/mod.rs:24-29 | succeeds exactly on booleans, with that boolean; otherwise fails with "Expected boolean" |
| ValidatorsCore.BoolSchema | crates/valrs/src/validators/mod.rs:33-37 | a `boolean` schema carrying the dialect's URI |
| ValidatorsCore.ValidateUnit | crates/valrs/src/validators/mod.rs:53-58 | succeeds exactly on null; otherwise fails with "Expected null" |
| ValidatorsCore.NullSchema | crates/valrs/src/validators/mod.rs:62-66 | a `null` schema carrying the dialect's URI |
| NumberValidators.ValidateInt | crates/valrs/src/validators/number.rs:15-27 | for each of i8..u64: succeeds exactly on integer-tagged numbers within the type's bounds, returning the number; otherwise fails with the "out of range" message if `as_i64`/`as_u64` accepted the value, and the "expected" message if not |
| NumberValidators.IntegerSchema | crates/valrs/src/validators/number.rs:30-40 | an `integer` schema carrying the dialect's URI |
| StringValidators.ValidateString | crates/valrs/src/validators/string.rs:11-16 | succeeds exactly on strings, returning the string |
| StringValidators.ValidateNonEmpty | crates/valrs/src/validators/string.rs:39-45 | succeeds exactly on non-empty strings; an empty string and a non-string fail with different messages |
| StringValidators.ValidateMinLength | crates/valrs/src/validators/string.rs:71-81 | succeeds exactly on strings of at least `n` UTF-8 bytes; the failure message gives `n` and the byte length |
| StringValidators.ValidateMaxLength | crates/valrs/src/validators/string.rs:107-117 | succeeds exactly on strings of at most `n` UTF-8 bytes |
| StringValidators.LengthWrappersCountCharsOnAscii | crates/valrs/src/validators/string.rs:71-117 | on ASCII text, the byte bounds are character bounds |
| StringValidators.MinLengthCountsBytes | crates/valrs/src/validators/string.rs:73 | a single two-byte character passes `MinLengthString<2>` |
| StringValidators.StringSchema | crates/valrs/src/validators/string.rs:20-24 | a `string` schema carrying the dialect's URI |
| StringValidators.NonEmptySchema | crates/valrs/src/validators/string.rs:49-56 | a `string` schema with `minLength` 1 and the dialect's URI |
| StringValidators.MinLengthSchema | crates/valrs/src/validators/string.rs:85-92 | a `string` schema with `minLength` n and the dialect's URI |
| StringValidators.MaxLengthSchema | crates/valrs/src/validators/string.rs:121-128 | a `string` schema with `maxLength` n and the dialect's URI |
| OptionValidators.ValidateOption | crates/valrs/src/validators/option.rs:11-16 | null gives `None`; any other value gives `Some` of the inner result, or exactly the inner issues |
| OptionValidators.NestedOptionNeverSomeNone | crates/valrs/src/validators/option.rs:87-95 | a nested option never validates to `Some(None)` |
| OptionValidators.OptionSchema | crates/valrs/src/validators/option.rs:20-45 | for OpenAPI 3.0, the inner schema with `nullable: true`; for the drafts, an `anyOf` of the inner schema and `null`, carrying the URI |
| TypeSchemas.OpenApiSchemasHaveNoUri | crates/valrs/src/validators/option.rs:20-30 | every built-in type's OpenAPI 3.0 schema is an object without `$schema`, however deeply options nest |
| TypeSchemas.DraftSchemasCarryUri | crates/valrs/src/validators/mod.rs:78-85 | under a draft, every built-in type's schema carries the draft's URI at its root |
| SchemaBuilders.PropertySchema | crates/valrs-json/src/lib.rs:51-54 | the type's schema without a `$schema` key |
| SchemaBuilders.CreateObjectSchema | crates/valrs-json/src/lib.rs:86-113 | an object schema holding the properties; `required` appears exactly when the list is non-empty, and `$schema` exactly when the dialect has a URI |
| SchemaBuilders.StringSchemaWithConstraints | crates/valrs-json/src/lib.rs:132-148 | a string schema with `minLength` and `maxLength` exactly when they are given |
| Compiler.ParseTypeTag | crates/valrs-wasm/src/lib.rs:90-101 | a tag is returned exactly for the seven type names, and its name is the string parsed |
| Compiler.TagNameRoundTrip | crates/valrs-wasm/src/lib.rs:76-101 | every tag's name parses back to that tag |
| Compiler.TypeCheckMatchesTypeName | crates/valrs-wasm/src/lib.rs:104-114 | a value passes a type check exactly when its type name is the tag's name, or it is an integer checked as `number` |
| Compiler.LowerReadsKeywords | crates/valrs-wasm/src/lib.rs:174-264 | which keyword values produce a check; `properties` counts only as an object, each property in order and required exactly when listed in `required`; `items` counts whatever its value |
| Compiler.CompileInto | crates/valrs-wasm/src/lib.rs:174-264 | appends exactly the encoding of the schema to the list, keeping what was there |
| Compiler.CompileChecks | crates/valrs-wasm/src/lib.rs:180-221 | appends the type, numeric and length checks of the schema, in keyword order |
| Compiler.CompileBounds | crates/valrs-wasm/src/lib.rs:189-209 | appends each bound whose value is a number |
| Compiler.CompileLengths | crates/valrs-wasm/src/lib.rs:211-221 | appends a check for each length whose value is a u64, with the count cast to a 32-bit `usize` |
| Compiler.CompileProperties | crates/valrs-wasm/src/lib.rs:223-242 | appends the object block when `properties` is an object, and nothing otherwise |
| Compiler.CompilePropertyList | crates/valrs-wasm/src/lib.rs:232-238 | appends each property's `CheckProperty` and then its schema, in order |
| Compiler.CompileItemCounts | crates/valrs-wasm/src/lib.rs:244-255 | appends `minItems`/`maxItems` checks when their values are u64, with the count cast to a 32-bit `usize` |
| Compiler.CountsWrap | crates/valrs-wasm/src/lib.rs:211-255 | a count keyword given as a u64 yields exactly one check, whose bound is the count modulo 2^32; any other count yields none |
| Compiler.CompileItems | crates/valrs-wasm/src/lib.rs:257-263 | appends `EnterArray`, `CheckArrayItems`, the item schema and `ExitArray` when `items` is present |
| Compiler.CompileSchema | crates/valrs-wasm/src/lib.rs:166-171 | the result is the schema's encoding followed by `Done` |
| Layout.CompiledWellBracketed | crates/valrs-wasm/src/lib.rs:166-264 | a compiled list is well bracketed (each `EnterArray` followed at once by `CheckArrayItems`), and it ends with its only `Done` |
| Layout.EncodeHasNoDone | crates/valrs-wasm/src/lib.rs:166-171 | only `compile_schema` emits `Done` |
| Layout.ScanEncode | crates/valrs-wasm/src/lib.rs:475-520 | a skip scan passes over a whole compiled sub-schema and comes out at the depth it went in |
| Layout.NestEncode | crates/valrs-wasm/src/lib.rs:223-263 | a compiled node leaves the open brackets as it found them |
| Layout.AtCompiled | crates/valrs-wasm/src/lib.rs:166-171 | a compiled schema holds the root node's operations from index 0, and then `Done` |
| Machine.Pop | crates/valrs-wasm/src/lib.rs:452 | pop removes the last element of a non-empty stack, and leaves an empty one empty |
| Machine.Reports | crates/valrs-wasm/src/lib.rs:470-473 | one issue per fault, in order, each with the fault's message and path (a bound message names its numbers only when they are whole) |
| Machine.Scan | crates/valrs-wasm/src/lib.rs:475-496 | the scan ends within the list only at an `ExitArray`, or, for the property skip, at an `ExitObject` or a `CheckProperty` |
| Machine.ScanStep | crates/valrs-wasm/src/lib.rs:478-494 | an operation stops the scan only if it is an `ExitArray`, or, for the property skip, an `ExitObject` or a `CheckProperty` |
| Machine.SkipTarget | crates/valrs-wasm/src/lib.rs:484-496 | a skip always moves forward, and resumes either at an operation in the list or one past its end |
| Machine.RunStopped | crates/valrs-wasm/src/lib.rs:645-649 | once the instruction pointer has left the list, further iterations change nothing |
| Machine.StepKeepsIssues | crates/valrs-wasm/src/lib.rs:288-649 | one iteration only appends issues |
| Machine.RunKeepsIssues | crates/valrs-wasm/src/lib.rs:288-649 | recorded issues are never taken back |
| Positions.StepAbsentProperty | crates/valrs-wasm/src/lib.rs:468-521 | an absent property records a missing-property issue when it is required, and then skips |
| Positions.StepItemsSkip | crates/valrs-wasm/src/lib.rs:580-595 | `CheckArrayItems` with no element left skips to the block's `ExitArray` |
| Positions.StepExitArrayNext | crates/valrs-wasm/src/lib.rs:623-635 | `ExitArray` before the last element pops the element's segment and rewinds for the next index |
| Positions.StepExitArrayLast | crates/valrs-wasm/src/lib.rs:636-639 | `ExitArray` after the last element pops the context |
| Correctness.RunNode | crates/valrs-wasm/src/lib.rs:288-649 | running a compiled node from its first operation takes `Cost` iterations, ends just after the node with the same contexts, and appends exactly the faults of `EvalNode` |
| Correctness.RunChecks | crates/valrs-wasm/src/lib.rs:322-441 | a run of checks records, in order, each one the value fails |
| Correctness.RunProps | crates/valrs-wasm/src/lib.rs:447-524 | the properties of an object block run in order, each present one on its value, and stop at `ExitObject` |
| Correctness.RunAbsentProp | crates/valrs-wasm/src/lib.rs:468-521 | an absent property's schema is skipped entirely; the issue is recorded only when the property is required |
| Correctness.PropsSkipTarget | crates/valrs-wasm/src/lib.rs:475-520 | the skip lands on the next property's check, or on `ExitObject` after the last one |
| Correctness.ItemsSkipTarget | crates/valrs-wasm/src/lib.rs:580-595 | the skip lands on the block's `ExitArray` |
| Correctness.RunArray | crates/valrs-wasm/src/lib.rs:536-643 | an array block validates each element in turn, or skips straight to the exit |
| Correctness.RunItems | crates/valrs-wasm/src/lib.rs:545-643 | elements from `idx` on are each entered, validated, and rewound from, and then the block is left |
| Correctness.RunNoItems | crates/valrs-wasm/src/lib.rs:580-595 | an empty array, or a non-array, skips the item schema and pops the context |
| Correctness.RunLastItem | crates/valrs-wasm/src/lib.rs:633-639 | after the last element, the context is popped and the run moves past the block |
| Engines.RunCompiled | crates/valrs-wasm/src/lib.rs:288-656 | a compiled schema runs in `Cost + 1` iterations, ends at the end of the list with no contexts open, and records exactly the faults of `EvalNode` |
| Engines.CurrentValue | crates/valrs-wasm/src/lib.rs:295-314 | the loop walks the contexts from the root to the focused value, or to `None` once a context leads nowhere |
| Engines.ArrayLength | crates/valrs-wasm/src/lib.rs:551-561 | the length of the array that the contexts below the innermost lead to, or 0 |
| Engines.SkipProperty | crates/valrs-wasm/src/lib.rs:475-496 | the scan loop stops one before the scan's target |
| Engines.SkipItems | crates/valrs-wasm/src/lib.rs:580-595 | the array scan loop stops one before the matching `ExitArray`, or at the end |
| Engines.ExecuteCompiled | crates/valrs-wasm/src/lib.rs:288-656 | the result is `Success` of the value exactly when the run records no fault, and otherwise has one issue per fault, in order |
| Engines.ExecuteOp | crates/valrs-wasm/src/lib.rs:320-646 | one operation of the full engine changes the registers as `Step` does |
| Engines.PropertyFull | crates/valrs-wasm/src/lib.rs:447-524 | `CheckProperty` in the full engine is `Step` on that operation |
| Engines.ItemsFull | crates/valrs-wasm/src/lib.rs:545-597 | `CheckArrayItems` in the full engine is `Step` on that operation |
| Engines.ExitArrayFull | crates/valrs-wasm/src/lib.rs:599-643 | `ExitArray` in the full engine is `Step` on that operation |
| Engines.ExecuteCompiledBool | crates/valrs-wasm/src/lib.rs:661-901 | `true` exactly when the run, with byte lengths, records no fault |
| Engines.ExecuteOpBool | crates/valrs-wasm/src/lib.rs:686-896 | one operation of the bool engine either fails exactly where `Step` records a fault, or changes the registers as `Step` does |
| Engines.PropertyBool | crates/valrs-wasm/src/lib.rs:770-812 | `CheckProperty` in the bool engine fails exactly on a missing required property, and otherwise is `Step` |
| Engines.ExitArrayBool | crates/valrs-wasm/src/lib.rs:861-893 | `ExitArray` in the bool engine is `Step` without the path |
| Modes.ViolationModesAgree | crates/valrs-wasm/src/lib.rs:389-416 | on ASCII text, every check fails the same way in both engines |
| Modes.NodeModesAgree | crates/valrs-wasm/src/lib.rs:731-748 | on values whose strings are ASCII, a node records the same faults and leaves the same path in both engines |
| Modes.ModesDisagreeOnWideText | crates/valrs-wasm/src/lib.rs:740-748 | a `maxLength` of 1 accepts "é" in the full engine and rejects it in the bool engine |
| Modes.EnginesAgree | crates/valrs-wasm/src/lib.rs:661-901 | on an ASCII root, both engines record the same faults on a compiled schema |
| Verdicts.ChecksApplyToTheirKind | crates/valrs-wasm/src/lib.rs:337-441 | bounds fail only on numbers, lengths only on strings, and item counts only on arrays |
| Verdicts.BoundsAtEquality | crates/valrs-wasm/src/lib.rs:337-388 | on a number equal to the bound, the inclusive bounds pass and the exclusive ones fail |
| Verdicts.ChecksPass | crates/valrs-wasm/src/lib.rs:322-441 | a run of checks records nothing exactly when no check is violated |
| Verdicts.NodePasses | crates/valrs-wasm/src/lib.rs:651-655 | a node records no fault, from any path, exactly when it accepts the value |
| Verdicts.PropsPass | crates/valrs-wasm/src/lib.rs:447-524 | properties record nothing exactly when each one is present and accepted, or absent and optional |
| Verdicts.ItemsPass | crates/valrs-wasm/src/lib.rs:545-643 | elements record nothing exactly when each is accepted by the item schema |
| Interpreted.ValidateAgainstSchema | crates/valrs-wasm/src/lib.rs:1671-1717 | passes, returning the value itself, exactly when there are no findings; otherwise it fails with exactly those findings |
| Interpreted.TypeMismatchIsAlone | crates/valrs-wasm/src/lib.rs:1678-1686 | a type mismatch is the only finding, about the value itself |
| Interpreted.UnionAcceptsAny | crates/valrs-wasm/src/lib.rs:1732-1735 | a list of types accepts a value exactly when one of its entries does |
| Interpreted.MissingIssuesExact | crates/valrs-wasm/src/lib.rs:1767-1778 | each required name that is a string absent from the object is reported at its key, and nothing else is |
| Interpreted.PropIssuesExact | crates/valrs-wasm/src/lib.rs:1781-1798 | the listed properties find nothing exactly when each present one finds nothing |
| Interpreted.ElementIssuesExact | crates/valrs-wasm/src/lib.rs:1816-1831 | the elements find nothing exactly when each element finds nothing |
| Interpreted.TypeChecksAgree | crates/valrs-wasm/src/lib.rs:1720-1731 | the compiled type check holds exactly when `validate_type` accepts a single type name |
| Interpreted.BoundChecksAgree | crates/valrs-wasm/src/lib.rs:1867-1927 | the compiled bound checks hold exactly when `validate_number_schema` finds nothing |
| Interpreted.LengthChecksAgree | crates/valrs-wasm/src/lib.rs:1930-1967 | the compiled length checks hold exactly when `validate_string_schema` finds nothing |
| Interpreted.CountChecksAgree | crates/valrs-wasm/src/lib.rs:1833-1857 | the compiled item-count checks hold exactly when the count checks of `validate_array_schema` find nothing |
| Interpreted.KeywordChecksAgree | crates/valrs-wasm/src/lib.rs:1677-1714 | the compiled checks hold exactly when the type matches and no keyword of the value's kind is violated |
| Interpreted.InterpretedAgrees | crates/valrs-wasm/src/lib.rs:1671-1717 | on schemas both validators read the same way (no list of type names, no count of 2^32 or more, `required` names all listed, `type` `object` beside `properties`), `validate_against_schema` succeeds exactly when the compiled schema accepts |
| Interpreted.ObjectAgrees | crates/valrs-wasm/src/lib.rs:1759-1805 | for an object, required and listed properties are satisfied exactly when the compiled ones are |
| Interpreted.PropsAgree | crates/valrs-wasm/src/lib.rs:1781-1798 | the listed properties find nothing exactly when each present one is accepted by its compiled schema |
| Interpreted.ItemsAgree | crates/valrs-wasm/src/lib.rs:1808-1831 | the elements find nothing exactly when each is accepted by the compiled item schema |
| Interpreted.PropertiesNeedObjects | crates/valrs-wasm/src/lib.rs:1703-1707 | on a schema both validators read alike, a non-object value that passes the type check meets no compiled properties |
| Interpreted.UnionTypeDiffers | crates/valrs-wasm/src/lib.rs:1732-1735 | `["string", "null"]` rejects 1 in the interpreted validator and accepts it in the compiled engine |
| Interpreted.WideCountDiffers | crates/valrs-wasm/src/lib.rs:217-221 | `maxLength` 2^32 compiles to `CheckMaxLength(0)`, so the compiled engine rejects `"a"`, which the interpreted validator accepts because it compares with the full u64 (lib.rs:1950-1958) |
| Interpreted.PropertiesOnNonObjectDiffer | crates/valrs-wasm/src/lib.rs:1703-1707 | `properties` on a non-object is skipped by the interpreted validator and run against the value by the compiled engine |
| PathRepair.TagsSchemaLowers | crates/valrs-wasm/src/lib.rs:174-264 | the compiler reads `{"properties": {"tags": {"items": {"type": "string"}}}}` as an optional property `tags` whose value is an array checked element by element for the string type |
| PathRepair.NestedElementPathLost | crates/valrs-wasm/src/lib.rs:569-572 | the schema `{"properties": {"tags": {"items": {"type": "string"}}}}` compiles to the node evaluated here (`TagsSchemaLowers`); as written, the integer in `{"tags": ["a", 1]}` is reported at `[1]`, which leads nowhere from the value; with the repair it is reported at `["tags", 1]`, which leads to the integer |
| PathRepair.RepairedLocated | crates/valrs-wasm/src/lib.rs:545-643 | with each element's segment popped once, a node gives back the path stack it was given, and every issue's path extends that stack by a path leading to a value inside the validated value |
| PathRepair.RepairKeepsReasons | crates/valrs-wasm/src/lib.rs:545-643 | the repair changes only where issues are reported: the same faults, in the same order |
| Registry.LowerAscii | crates/valrs-wasm/src/lib.rs:1239 | ASCII capitals become lower case and every other character is kept |
| Registry.LowerAsciiIdempotent | crates/valrs-wasm/src/lib.rs:1239 | lowercasing twice is lowercasing once |
| Registry.ParseTarget | crates/valrs-wasm/src/lib.rs:1238-1247 | success exactly on the dialect's aliases, in any case; otherwise the unknown-target message with the name as given |
| Registry.ParseTargetAlias | crates/valrs-wasm/src/lib.rs:1240-1245 | the alias sets do not overlap, so every alias parses to its own dialect |
| Registry.ParseTargetIgnoresCase | crates/valrs-wasm/src/lib.rs:1239 | a name parses like its lowercase form |
| Registry.CompiledRun | crates/valrs-wasm/src/lib.rs:1567-1607 | on a registered schema either engine's run ends, recording the reference faults, which are none exactly when the schema accepts |
| Registry.SchemaRegistry.constructor | crates/valrs-wasm/src/lib.rs:1499-1503 | the registry starts empty |
| Registry.SchemaRegistry.Register | crates/valrs-wasm/src/lib.rs:1516-1527 | stores the schema and its compilation under the name, replacing any earlier entry and keeping the others |
| Registry.SchemaRegistry.Unregister | crates/valrs-wasm/src/lib.rs:1536-1538 | reports whether the name was registered, removes it, and keeps the others |
| Registry.SchemaRegistry.ListSchemas | crates/valrs-wasm/src/lib.rs:1551-1554 | exactly the names `has_schema` answers `true` for |
| Registry.SchemaRegistry.Validate | crates/valrs-wasm/src/lib.rs:1567-1581 | not-found for an unknown name; otherwise `Success` of the value exactly when the schema accepts it, and otherwise one issue per reference fault |
| Registry.SchemaRegistry.ValidateFast | crates/valrs-wasm/src/lib.rs:1595-1607 | not-found for an unknown name; otherwise `true` exactly when the schema accepts with byte lengths, agreeing with `validate` on ASCII values |
| Registry.SchemaRegistry.JsonSchema | crates/valrs-wasm/src/lib.rs:1618-1641 | not-found first, then the unknown-target error, otherwise the schema with the dialect's URI added |

## Left out

- `execute_compiled_fast`, `check_type_tag_js` and `FastExecutionContext` (crates/valrs-wasm/src/lib.rs:907-1208) read JavaScript values through `js_sys` reflection, which is a foreign interface.
- The wasm-bindgen exports (`validate_string`, `i32_json_schema` and the others, crates/valrs-wasm/src/lib.rs:1261-1456) are left out. They only convert between `JsValue` and serde values around the modelled validators.
- The registry takes schemas and values as decoded `Json`. The `serde_wasm_bindgen` conversion errors of `register`, `validate` and `json_schema` are not modelled.
- Floating point is left out. Numbers are exact reals, and `as_f64` of a large integer is taken without rounding. The `f32`/`f64` validators, `fract`, and `isize`/`usize` (crates/valrs/src/validators/number.rs:128-153, 266-341) are not modelled.
- Machine.Message: f64 `Display` formatting is not modelled. The four bound messages (`minimum`, `maximum` and the exclusive bounds) name the value and the bound only when both are whole numbers, printed as integers. Otherwise they leave both out.
- The message texts that `validate_against_schema` formats are not modelled. Its findings carry a `Complaint` with the values the message is built from.
- `Serialize` for `ValidationResult` and the accessors `ok`, `issues`, `is_success` and `is_failure` are not modelled. Those accessors are plain field reads, used as `IssuesOf`.
- `list_schemas` returns a JS array in `HashMap` order; it is modelled as a set.
- A serde_json object is modelled as an association list that stands for the map in its iteration order, with lookups taking the first field. That order is sorted by key unless serde_json's `preserve_order` feature is on, and the build configuration that decides it is not part of this model. Properties are compiled, and their issues reported, in the list's order, whichever order that is.
- JsonValues.Insert: appends a new key at the end, where a sorted map would place it in key order. Every lookup gives the same answer either way; only the key order of the emitted schemas (`AddSchemaUri`, `OptionSchema`, `CreateObjectSchema`) differs.
- Registry.ParseTarget: `to_lowercase` is modelled as ASCII lowercasing. Both select the same target for every name. The accepted names are all ASCII. Two non-ASCII characters lowercase to something containing an ASCII letter. The Kelvin sign becomes `k`, a letter in no accepted name. The dotted capital I (U+0130) becomes `i` followed by the combining dot U+0307, a character in no accepted name. So a name holding either is rejected by both, as is any other name with a non-ASCII character.
- Engines.ExecuteCompiled and Engines.ExecuteCompiledBool: both require that the run leaves the operation list within the ghost bound `total`. `RunCompiled` gives that bound for every compiled schema, and only compiled schemas reach the engines. Arbitrary operation lists, on which the loop might not end, are not modelled.
- Engines.ExecuteCompiledBool: the model keeps the path the full engine would keep, as ghost state, and records the fault at which the source returns `false`.
- Engines.ExecuteCompiled reproduces the double pop of the path stack between array elements (see Findings). The repaired evaluation `PathRepair.RepairedNode` is proved to record the same faults, in the same order, so every verdict proved about the engines holds for it. No repaired engine loop is modelled.
- The derive macros, the examples and the `Valrs`/`StandardJsonSchema` traits are not part of this model. Each built-in type's implementation is a function, gathered in `TypeSchemas.ValueType`.

## Findings

| source | as written | input that shows it | evidently intended | confidence | as-written member | corrected member |
|---|---|---|---|---|---|---|
| crates/valrs-wasm/src/lib.rs:569-572 | `CheckArrayItems` pops the path stack for every element after the first, although the previous element's `ExitArray` (lib.rs:627-629) already popped that element's segment | schema `{"properties": {"tags": {"items": {"type": "string"}}}}` with value `{"tags": ["a", 1]}`: the issue for `1` is reported at `[1]` instead of `["tags", 1]` | each element's segment is popped once, so every issue is reported at the path of the value that failed, as `validate_against_schema` does | high; not executed | PathRepair.NestedElementPathLost | PathRepair.RepairedLocated |

