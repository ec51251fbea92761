/**
 * The schema compiler: a JSON Schema tree is flattened, once, into a list of
 * validation operations that the engines run against values.
 *
 * The compiler is described in two stages. `Lower` reads out of a schema node
 * the keywords the compiler recognises (a `Node`); `Encode` lays a `Node` out
 * as operations. `CompileInto` is the compiler itself, appending to a growing
 * list exactly as the source does, and is proved to produce
 * `Encode(Lower(schema))`.
 */
module Compiler {
  import opened Wrappers
  import opened JsonValues

  /** The seven JSON Schema type names the compiler recognises. */
  datatype TypeTag = StringTag | NumberTag | IntegerTag | BooleanTag | NullTag | ObjectTag | ArrayTag

  /** The JSON Schema name of a type tag. */
  function TagName(t: TypeTag): string
  {
    match t
    case StringTag => "string"
    case NumberTag => "number"
    case IntegerTag => "integer"
    case BooleanTag => "boolean"
    case NullTag => "null"
    case ObjectTag => "object"
    case ArrayTag => "array"
  }

  /** The type tag named `name`, if it is one of the seven type names. */
  function ParseTypeTag(name: string): (r: Option<TypeTag>)
    ensures r.Some? ==> TagName(r.value) == name
    ensures r.None? ==> forall t :: TagName(t) != name
  {
    match name
    case "string" => Some(StringTag)
    case "number" => Some(NumberTag)
    case "integer" => Some(IntegerTag)
    case "boolean" => Some(BooleanTag)
    case "null" => Some(NullTag)
    case "object" => Some(ObjectTag)
    case "array" => Some(ArrayTag)
    case _ => None
  }

  /** Parsing inverts naming: every tag's name parses back to that tag. */
  lemma TagNameRoundTrip(t: TypeTag)
    ensures ParseTypeTag(TagName(t)) == Some(t)
  {
  }

  /** Whether a value has the JSON type a tag names; every number is a "number", only integer-tagged ones are "integer"s. */
  function CheckTypeTag(v: Json, t: TypeTag): bool
  {
    match t
    case StringTag => v.Str?
    case NumberTag => IsNumber(v)
    case IntegerTag => IsInteger(v)
    case BooleanTag => v.Bool?
    case NullTag => v.Null?
    case ObjectTag => v.Obj?
    case ArrayTag => v.Arr?
  }

  /** The type name reported for a value: numbers are "integer" or "number" by how they are stored. */
  function JsonTypeName(v: Json): string
  {
    match v
    case Null => "null"
    case Bool(_) => "boolean"
    case Int(_) => if IsInteger(v) then "integer" else "number"
    case Float(_) => "number"
    case Str(_) => "string"
    case Arr(_) => "array"
    case Obj(_) => "object"
  }

  /**
   * A value passes a type check exactly when its reported type name is the
   * tag's name, or it is an integer checked as a number. Hence a type-check
   * message never names the same type twice.
   */
  lemma TypeCheckMatchesTypeName(v: Json, t: TypeTag)
    ensures CheckTypeTag(v, t) <==> JsonTypeName(v) == TagName(t) || (t == NumberTag && JsonTypeName(v) == "integer")
    ensures !CheckTypeTag(v, t) ==> JsonTypeName(v) != TagName(t)
  {
  }

  /** One operation of a compiled schema. */
  datatype Op =
    | CheckType(tag: TypeTag)
    | EnterObject
    | CheckProperty(key: string, required: bool)
    | ExitObject
    | EnterArray
    | CheckArrayItems
    | ExitArray
    | CheckMinimum(bound: real)
    | CheckMaximum(bound: real)
    | CheckExclusiveMinimum(bound: real)
    | CheckExclusiveMaximum(bound: real)
    | CheckMinLength(count: nat)
    | CheckMaxLength(count: nat)
    | CheckMinItems(count: nat)
    | CheckMaxItems(count: nat)
    | Done

  /** Operations that only inspect the value in focus and move on. */
  predicate IsCheck(op: Op)
  {
    op.CheckType? || op.CheckMinimum? || op.CheckMaximum? || op.CheckExclusiveMinimum? ||
    op.CheckExclusiveMaximum? || op.CheckMinLength? || op.CheckMaxLength? ||
    op.CheckMinItems? || op.CheckMaxItems?
  }

  /** An operation that only inspects the value in focus. */
  type Check = op: Op | IsCheck(op) witness CheckMinItems(0)

  /**
   * One schema node as the compiler reads it: the checks of its type, numeric
   * and string keywords, its properties, the checks of its item counts, and
   * its item schema.
   */
  datatype Node = Node(
    checks: seq<Check>,
    properties: PropertyList,
    itemChecks: seq<Check>,
    items: Option<Node>)

  /** The `properties` keyword of a node: absent, or the properties in the order they are listed. */
  datatype PropertyList = NoProperties | Properties(list: seq<Prop>)

  /** A property of an object schema: its key, whether it is required, and its schema. */
  datatype Prop = Prop(key: string, required: bool, schema: Node)

  /** The node of a schema that constrains nothing (what a non-object schema compiles as). */
  const EmptyNode := Node([], NoProperties, [], None)

  /** The strings listed in a schema's `required` array (non-strings are ignored). */
  function RequiredNames(fields: seq<(string, Json)>): set<string>
  {
    match Get(fields, "required")
    case Some(Arr(xs)) => set j | 0 <= j < |xs| && xs[j].Str? :: xs[j].s
    case _ => {}
  }

  /** A numeric bound keyword: any number, read as a real. */
  function BoundKeyword(fields: seq<(string, Json)>, k: string): Option<real>
  {
    match Get(fields, k)
    case Some(v) => AsF64(v)
    case None => None
  }

  /** A count keyword: an integer-tagged number in the u64 range. */
  function CountKeyword(fields: seq<(string, Json)>, k: string): Option<nat>
  {
    match Get(fields, k)
    case Some(v) => (match AsU64(v) case Some(n) => Some(n as nat) case None => None)
    case None => None
  }

  /** One more than the largest `usize`: the engines are built for wasm32, where `usize` has 32 bits. */
  const USIZE_MODULUS: nat := 0x1_0000_0000

  /** `v as usize` on a u64 count: the high bits are dropped. */
  function AsUsize(c: nat): (r: nat)
    ensures r < USIZE_MODULUS
    ensures c < USIZE_MODULUS ==> r == c
  {
    c % USIZE_MODULUS
  }

  /** The `type` keyword, when it is a string naming one of the seven types. */
  function TypeKeyword(fields: seq<(string, Json)>): Option<TypeTag>
  {
    match Get(fields, "type")
    case Some(Str(name)) => ParseTypeTag(name)
    case _ => None
  }

  /**
   * What the compiler reads out of a schema node: the recognised keywords of
   * an object schema, recursively; a non-object schema reads as the empty node.
   */
  function Lower(s: Json): Node
    decreases s, 1
  {
    match s
    case Obj(fields) =>
      Node(ValueChecks(fields), PropertiesKeyword(s), ItemCountChecks(fields), ItemsKeyword(s))
    case _ => EmptyNode
  }

  /** The `properties` keyword of an object schema, read only when it is an object. */
  function PropertiesKeyword(s: Json): PropertyList
    requires s.Obj?
    decreases s, 0
  {
    match Get(s.fields, "properties")
    case Some(Obj(ps)) =>
      var req := RequiredNames(s.fields);
      Properties(seq(|ps|, i requires 0 <= i < |ps| => Prop(ps[i].0, ps[i].0 in req, Lower(ps[i].1))))
    case _ => NoProperties
  }

  /** The `items` keyword of an object schema, whatever its value. */
  function ItemsKeyword(s: Json): Option<Node>
    requires s.Obj?
    decreases s, 0
  {
    match Get(s.fields, "items")
    case Some(sub) => Some(Lower(sub))
    case None => None
  }

  /**
   * How keywords are read: `properties` counts only when it is an object, and
   * then each of its properties, in order, is required exactly when its key is
   * listed in `required`; `items` counts whatever its value; a non-object
   * schema constrains nothing.
   */
  lemma LowerReadsKeywords(s: Json)
    ensures !s.Obj? ==> Lower(s) == EmptyNode
    ensures s.Obj? ==>
      (Lower(s).properties.Properties? <==> Get(s.fields, "properties").Some? && Get(s.fields, "properties").value.Obj?)
    ensures s.Obj? && Lower(s).properties.Properties? ==>
      var ps := Get(s.fields, "properties").value.fields;
      |Lower(s).properties.list| == |ps| &&
      forall i :: 0 <= i < |ps| ==>
        Lower(s).properties.list[i].key == ps[i].0 &&
        (Lower(s).properties.list[i].required <==> ps[i].0 in RequiredNames(s.fields))
    ensures s.Obj? ==> (Lower(s).items.Some? <==> Get(s.fields, "items").Some?)
    ensures s.Obj? ==> forall t :: (CheckType(t) in Lower(s).checks <==> Get(s.fields, "type") == Some(Str(TagName(t))))
  {
    if s.Obj? {
      forall t ensures CheckType(t) in Lower(s).checks <==> Get(s.fields, "type") == Some(Str(TagName(t))) {
        TagNameRoundTrip(t);
        assert CheckType(t) in Lower(s).checks <==> CheckType(t) in TypeChecks(s.fields);
      }
    }
  }

  /** The check for the `type` keyword, when it names a type. */
  function TypeChecks(fields: seq<(string, Json)>): seq<Check>
  {
    match TypeKeyword(fields)
    case Some(t) => [CheckType(t)]
    case None => []
  }

  /** The checks for the four numeric bounds, in the order the compiler emits them. */
  function BoundChecks(fields: seq<(string, Json)>): seq<Check>
  {
    (match BoundKeyword(fields, "minimum") case Some(b) => [CheckMinimum(b)] case None => []) +
    (match BoundKeyword(fields, "maximum") case Some(b) => [CheckMaximum(b)] case None => []) +
    (match BoundKeyword(fields, "exclusiveMinimum") case Some(b) => [CheckExclusiveMinimum(b)] case None => []) +
    (match BoundKeyword(fields, "exclusiveMaximum") case Some(b) => [CheckExclusiveMaximum(b)] case None => [])
  }

  /** The checks for `minLength` and `maxLength`. */
  function LengthChecks(fields: seq<(string, Json)>): seq<Check>
  {
    (match CountKeyword(fields, "minLength") case Some(c) => [CheckMinLength(AsUsize(c))] case None => []) +
    (match CountKeyword(fields, "maxLength") case Some(c) => [CheckMaxLength(AsUsize(c))] case None => [])
  }

  /** The checks of the type, numeric and string keywords, which come first in a node's layout. */
  function ValueChecks(fields: seq<(string, Json)>): seq<Check>
  {
    TypeChecks(fields) + BoundChecks(fields) + LengthChecks(fields)
  }

  /** The checks for `minItems` and `maxItems`, emitted before the items are entered. */
  function ItemCountChecks(fields: seq<(string, Json)>): seq<Check>
  {
    (match CountKeyword(fields, "minItems") case Some(c) => [CheckMinItems(AsUsize(c))] case None => []) +
    (match CountKeyword(fields, "maxItems") case Some(c) => [CheckMaxItems(AsUsize(c))] case None => [])
  }

  /**
   * Each count keyword given as a u64 becomes exactly one check, bounding by
   * the count's low 32 bits (`v as usize` on wasm32); an absent or non-u64
   * count becomes none.
   */
  lemma CountsWrap(fields: seq<(string, Json)>)
    ensures forall m :: CheckMinLength(m) in LengthChecks(fields) <==>
      CountKeyword(fields, "minLength").Some? && m == CountKeyword(fields, "minLength").value % USIZE_MODULUS
    ensures forall m :: CheckMaxLength(m) in LengthChecks(fields) <==>
      CountKeyword(fields, "maxLength").Some? && m == CountKeyword(fields, "maxLength").value % USIZE_MODULUS
    ensures forall m :: CheckMinItems(m) in ItemCountChecks(fields) <==>
      CountKeyword(fields, "minItems").Some? && m == CountKeyword(fields, "minItems").value % USIZE_MODULUS
    ensures forall m :: CheckMaxItems(m) in ItemCountChecks(fields) <==>
      CountKeyword(fields, "maxItems").Some? && m == CountKeyword(fields, "maxItems").value % USIZE_MODULUS
  {
  }

  /** A node laid out as operations. */
  function Encode(n: Node): seq<Op>
    decreases n, 2
  {
    n.checks + ObjectBlock(n) + n.itemChecks + ArrayBlock(n)
  }

  /** The object block of a node: its properties between `EnterObject` and `ExitObject`. */
  function ObjectBlock(n: Node): seq<Op>
    decreases n, 1
  {
    match n.properties
    case Properties(ps) => [EnterObject] + PropsOps(n, ps, 0) + [ExitObject]
    case NoProperties => []
  }

  /** Properties `i..` of node `n`: for each, its `CheckProperty` and then its schema's operations. */
  function PropsOps(n: Node, ps: seq<Prop>, i: nat): seq<Op>
    requires n.properties == Properties(ps) && i <= |ps|
    decreases n, 0, |ps| - i
  {
    if i == |ps| then []
    else
      [CheckProperty(ps[i].key, ps[i].required)] + Encode(ps[i].schema) + PropsOps(n, ps, i + 1)
  }

  /** The array block of a node: the item schema's operations between `EnterArray, CheckArrayItems` and `ExitArray`. */
  function ArrayBlock(n: Node): seq<Op>
    decreases n, 1
  {
    match n.items
    case Some(item) => [EnterArray, CheckArrayItems] + Encode(item) + [ExitArray]
    case None => []
  }

  /** `compile_schema`: the node's operations followed by a single `Done`. */
  function Compile(s: Json): seq<Op>
  {
    Encode(Lower(s)) + [Done]
  }

  /**
   * `compile_schema_recursive`: appends the operations of `schema` to `ops`,
   * keyword by keyword, recursing into property and item schemas.
   */
  method CompileInto(schema: Json, ops: seq<Op>) returns (out: seq<Op>)
    ensures out == ops + Encode(Lower(schema))
    decreases schema, 2
  {
    out := ops;
    if !schema.Obj? {
      return;
    }
    var fields := schema.fields;
    ghost var n := Lower(schema);
    out := CompileChecks(fields, out);
    out := CompileProperties(schema, out, n);
    out := CompileItemCounts(fields, out);
    out := CompileItems(schema, out, n);
    AppendRegroup4(ops, n.checks, ObjectBlock(n), n.itemChecks, ArrayBlock(n));
  }

  /** The type, numeric and string keywords of an object schema, each compiled to its check when present. */
  method CompileChecks(fields: seq<(string, Json)>, ops: seq<Op>) returns (out: seq<Op>)
    ensures out == ops + ValueChecks(fields)
  {
    out := ops;
    var tag := TypeKeyword(fields);
    if tag.Some? { out := out + [CheckType(tag.value)]; }
    assert out == ops + TypeChecks(fields);
    out := CompileBounds(fields, out);
    out := CompileLengths(fields, out);
    AppendRegroup(ops, TypeChecks(fields), BoundChecks(fields), LengthChecks(fields));
  }

  /** The numeric bounds of an object schema, each compiled to its check when it is a number. */
  method CompileBounds(fields: seq<(string, Json)>, ops: seq<Op>) returns (out: seq<Op>)
    ensures out == ops + BoundChecks(fields)
  {
    out := ops;
    var bound := BoundKeyword(fields, "minimum");
    if bound.Some? { out := out + [CheckMinimum(bound.value)]; }
    bound := BoundKeyword(fields, "maximum");
    if bound.Some? { out := out + [CheckMaximum(bound.value)]; }
    bound := BoundKeyword(fields, "exclusiveMinimum");
    if bound.Some? { out := out + [CheckExclusiveMinimum(bound.value)]; }
    bound := BoundKeyword(fields, "exclusiveMaximum");
    if bound.Some? { out := out + [CheckExclusiveMaximum(bound.value)]; }
  }

  /** The string lengths of an object schema, each compiled to its check, cast to `usize`, when it is a u64. */
  method CompileLengths(fields: seq<(string, Json)>, ops: seq<Op>) returns (out: seq<Op>)
    ensures out == ops + LengthChecks(fields)
  {
    out := ops;
    var count := CountKeyword(fields, "minLength");
    if count.Some? { out := out + [CheckMinLength(AsUsize(count.value))]; }
    count := CountKeyword(fields, "maxLength");
    if count.Some? { out := out + [CheckMaxLength(AsUsize(count.value))]; }
  }

  /** The `properties` keyword: when it is an object, each property's check and schema inside an object block. */
  method CompileProperties(schema: Json, ops: seq<Op>, ghost n: Node) returns (out: seq<Op>)
    requires schema.Obj? && n.properties == PropertiesKeyword(schema)
    ensures out == ops + ObjectBlock(n)
    decreases schema, 1
  {
    out := ops;
    match Get(schema.fields, "properties") {
      case Some(Obj(properties)) =>
        var required := RequiredNames(schema.fields);
        out := CompilePropertyList(schema, properties, required, out + [EnterObject], n);
        out := out + [ExitObject];
      case _ =>
    }
  }

  /** Regrouping appends, so that a list built piece by piece is seen to be its prefix plus the pieces joined. */
  lemma AppendRegroup(a: seq<Op>, b: seq<Op>, c: seq<Op>, d: seq<Op>)
    ensures ((a + b) + c) + d == a + ((b + c) + d)
  {
  }

  /** `AppendRegroup` for four pieces. */
  lemma AppendRegroup4(a: seq<Op>, b: seq<Op>, c: seq<Op>, d: seq<Op>, e: seq<Op>)
    ensures (((a + b) + c) + d) + e == a + (((b + c) + d) + e)
  {
  }

  /** The properties of an object schema, in order: each one's check, then its schema's operations. */
  method CompilePropertyList(schema: Json, properties: seq<(string, Json)>, required: set<string>, ops: seq<Op>, ghost n: Node)
    returns (out: seq<Op>)
    requires schema.Obj? && Get(schema.fields, "properties") == Some(Obj(properties))
    requires n.properties.Properties? && |n.properties.list| == |properties|
    requires forall i :: 0 <= i < |properties| ==>
      n.properties.list[i] == Prop(properties[i].0, properties[i].0 in required, Lower(properties[i].1))
    ensures out == ops + PropsOps(n, n.properties.list, 0)
    decreases schema, 0
  {
    out := ops;
    ghost var ps := n.properties.list;
    var i := 0;
    while i < |properties|
      invariant i <= |properties|
      invariant out + PropsOps(n, ps, i) == ops + PropsOps(n, ps, 0)
    {
      var key := properties[i].0;
      ghost var prev := out;
      out := out + [CheckProperty(key, key in required)];
      out := CompileInto(properties[i].1, out);
      AppendRegroup(prev, [CheckProperty(key, key in required)], Encode(ps[i].schema), PropsOps(n, ps, i + 1));
      i := i + 1;
    }
    assert PropsOps(n, ps, i) == [];
  }

  /** The `minItems` and `maxItems` keywords of an object schema, each compiled to its check, cast to `usize`, when it is a u64. */
  method CompileItemCounts(fields: seq<(string, Json)>, ops: seq<Op>) returns (out: seq<Op>)
    ensures out == ops + ItemCountChecks(fields)
  {
    out := ops;
    var count := CountKeyword(fields, "minItems");
    if count.Some? { out := out + [CheckMinItems(AsUsize(count.value))]; }
    count := CountKeyword(fields, "maxItems");
    if count.Some? { out := out + [CheckMaxItems(AsUsize(count.value))]; }
  }

  /** The `items` keyword, whatever its value: the item schema's operations inside an array block. */
  method CompileItems(schema: Json, ops: seq<Op>, ghost n: Node) returns (out: seq<Op>)
    requires schema.Obj? && n.items == ItemsKeyword(schema)
    ensures out == ops + ArrayBlock(n)
    decreases schema, 1
  {
    out := ops;
    match Get(schema.fields, "items") {
      case Some(itemsSchema) =>
        assert n.items == Some(Lower(itemsSchema));
        out := out + [EnterArray, CheckArrayItems];
        out := CompileInto(itemsSchema, out);
        out := out + [ExitArray];
      case None =>
        assert n.items == None;
    }
  }

  /** `compile_schema`: compiles the schema and terminates the list with `Done`. */
  method CompileSchema(schema: Json) returns (ops: seq<Op>)
    ensures ops == Compile(schema)
  {
    ops := CompileInto(schema, []);
    ops := ops + [Done];
  }
}
