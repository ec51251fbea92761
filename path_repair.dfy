/**
 * The path an issue of `execute_compiled` carries, as written and as
 * evidently intended.
 *
 * Between two elements of an array the full engine pops the element's
 * segment twice: once in `ExitArray` and once more in the next element's
 * `CheckArrayItems`. At the root the second pop falls on an empty stack and
 * does nothing, but inside a property or another array it removes the
 * segment that led to the array, so an issue in any element after the first
 * is reported at a path that does not lead to the value that failed.
 *
 * `RepairedNode` is `EvalNode` without the second pop. Every issue it records
 * sits at a path that leads, from the validated value, to a value inside it;
 * and it records the same faults as the code as written, in the same order,
 * differing only in their paths, so every verdict proved about `EvalNode`
 * holds of it unchanged.
 */
module PathRepair {
  import opened Wrappers
  import opened JsonValues
  import opened Types
  import opened Compiler
  import opened Machine
  import opened Semantics

  /** The value a path segment leads to from `v`: a field of an object, an element of an array. */
  function Child(v: Json, seg: PathSegment): Option<Json>
  {
    match seg
    case Key(k) => if v.Obj? then Get(v.fields, k) else None
    case Index(i) => if v.Arr? && i < |v.items| then Some(v.items[i]) else None
  }

  /** The value a path leads to from `v`, or `None` when it leaves the value. */
  function Locate(v: Json, p: Path): Option<Json>
    decreases |p|
  {
    if |p| == 0 then Some(v)
    else
      match Child(v, p[0])
      case None => None
      case Some(c) => Locate(c, p[1..])
  }

  /** Every fault lies below `base`, and the rest of its path leads to a value inside `v`. */
  predicate Located(v: Json, base: Path, faults: seq<Fault>)
  {
    forall i :: 0 <= i < |faults| ==>
      base <= faults[i].path && Locate(v, faults[i].path[|base|..]).Some?
  }

  /** The reasons of a list of faults, in order, without their paths. */
  function Reasons(faults: seq<Fault>): (r: seq<Reason>)
    ensures |r| == |faults|
    ensures forall i :: 0 <= i < |faults| ==> r[i] == faults[i].reason
  {
    seq(|faults|, i requires 0 <= i < |faults| => faults[i].reason)
  }

  /** `EvalNode` with each element's segment popped once. */
  function RepairedNode(mode: Mode, n: Node, v: Json, path: Path): Outcome
    decreases n, 2
  {
    var obj := RepairedObject(mode, n, v, path);
    var arr := RepairedArray(mode, n, v, obj.path);
    Outcome(EvalChecks(mode, n.checks, v, path) + obj.issues +
            EvalChecks(mode, n.itemChecks, v, obj.path) + arr.issues,
            arr.path)
  }

  function RepairedObject(mode: Mode, n: Node, v: Json, path: Path): Outcome
    decreases n, 1
  {
    match n.properties
    case NoProperties => Outcome([], path)
    case Properties(ps) =>
      var r := RepairedProps(mode, n, ps, 0, v, None, path);
      Outcome(r.issues, if r.key.Some? then Pop(r.path) else r.path)
  }

  function RepairedProps(mode: Mode, n: Node, ps: seq<Prop>, i: nat, v: Json, key: Option<string>, path: Path): PropsOutcome
    requires n.properties == Properties(ps) && i <= |ps|
    decreases n, 0, |ps| - i
  {
    if i == |ps| then PropsOutcome([], path, key)
    else
      var k := ps[i].key;
      var left := if key.Some? then Pop(path) else path;
      if !v.Obj? then
        var sub := RepairedNode(mode, ps[i].schema, v, left);
        var rest := RepairedProps(mode, n, ps, i + 1, v, None, sub.path);
        PropsOutcome(sub.issues + rest.issues, rest.path, rest.key)
      else if HasKey(v.fields, k) then
        var sub := RepairedNode(mode, ps[i].schema, Get(v.fields, k).value, left + [Key(k)]);
        var rest := RepairedProps(mode, n, ps, i + 1, v, Some(k), sub.path);
        PropsOutcome(sub.issues + rest.issues, rest.path, rest.key)
      else
        var missing := if ps[i].required then [Fault(MissingProperty(k), left)] else [];
        var rest := RepairedProps(mode, n, ps, i + 1, v, None, left);
        PropsOutcome(missing + rest.issues, rest.path, rest.key)
  }

  function RepairedArray(mode: Mode, n: Node, v: Json, path: Path): Outcome
    decreases n, 1
  {
    match n.items
    case None => Outcome([], path)
    case Some(item) =>
      if |Elements(v)| == 0 then Outcome([], path)
      else RepairedItems(mode, n, item, Elements(v), 0, path)
  }

  /** Elements `idx..`: each element's segment is pushed onto the path as it was after the previous element's `ExitArray`. */
  function RepairedItems(mode: Mode, n: Node, item: Node, xs: seq<Json>, idx: nat, path: Path): Outcome
    requires n.items == Some(item) && idx < |xs|
    decreases n, 0, |xs| - idx
  {
    var sub := RepairedNode(mode, item, xs[idx], path + [Index(idx)]);
    var left := Pop(sub.path);
    if idx + 1 < |xs| then
      var rest := RepairedItems(mode, n, item, xs, idx + 1, left);
      Outcome(sub.issues + rest.issues, rest.path)
    else Outcome(sub.issues, left)
  }

  /** Faults located below `base + [seg]` in the child `seg` leads to are located below `base` in `v`. */
  lemma LocatedChild(v: Json, base: Path, seg: PathSegment, x: Json, faults: seq<Fault>)
    requires Child(v, seg) == Some(x) && Located(x, base + [seg], faults)
    ensures Located(v, base, faults)
  {
    forall i | 0 <= i < |faults|
      ensures base <= faults[i].path && Locate(v, faults[i].path[|base|..]).Some?
    {
      var p := faults[i].path;
      assert (base + [seg]) <= p;
      assert p[|base|..][1..] == p[|base| + 1..];
      assert p[|base|..][0] == seg;
    }
  }

  /** Faults recorded at `base` itself are located. */
  lemma LocatedChecks(mode: Mode, checks: seq<Op>, i: nat, v: Json, base: Path)
    requires i <= |checks|
    ensures Located(v, base, EvalChecksFrom(mode, checks, i, v, base))
    decreases |checks| - i
  {
    if i < |checks| {
      LocatedChecks(mode, checks, i + 1, v, base);
      var rest := EvalChecksFrom(mode, checks, i + 1, v, base);
      var here := CheckIssues(mode, checks[i], Some(v), base);
      assert forall j :: 0 <= j < |here| ==> here[j].path == base;
      assert EvalChecksFrom(mode, checks, i, v, base) == here + rest;
    }
  }

  /**
   * With the repair, a node gives back the path stack it was given, and
   * every fault it records sits at a path that starts with that stack and
   * then leads to a value inside `v`.
   */
  lemma {:induction false} RepairedLocated(mode: Mode, n: Node, v: Json, path: Path)
    ensures RepairedNode(mode, n, v, path).path == path
    ensures Located(v, path, RepairedNode(mode, n, v, path).issues)
    decreases n, 2
  {
    LocatedChecks(mode, n.checks, 0, v, path);
    RepairedObjectLocated(mode, n, v, path);
    LocatedChecks(mode, n.itemChecks, 0, v, path);
    RepairedArrayLocated(mode, n, v, path);
  }

  lemma {:induction false} RepairedObjectLocated(mode: Mode, n: Node, v: Json, path: Path)
    ensures RepairedObject(mode, n, v, path).path == path
    ensures Located(v, path, RepairedObject(mode, n, v, path).issues)
    decreases n, 1
  {
    if n.properties.Properties? {
      RepairedPropsLocated(mode, n, n.properties.list, 0, v, None, path);
    }
  }

  /** The path stack while the properties run: the object's path, and the current property's key on top of it. */
  function PropsPath(base: Path, key: Option<string>): Path
  {
    if key.Some? then base + [Key(key.value)] else base
  }

  lemma {:induction false} RepairedPropsLocated(mode: Mode, n: Node, ps: seq<Prop>, i: nat, v: Json, key: Option<string>, base: Path)
    requires n.properties == Properties(ps) && i <= |ps|
    requires key.Some? ==> v.Obj?
    ensures var r := RepairedProps(mode, n, ps, i, v, key, PropsPath(base, key));
      r.path == PropsPath(base, r.key) && Located(v, base, r.issues)
    decreases n, 0, |ps| - i
  {
    if i < |ps| {
      var path := PropsPath(base, key);
      var k := ps[i].key;
      var left := if key.Some? then Pop(path) else path;
      assert left == base;
      if !v.Obj? {
        RepairedLocated(mode, ps[i].schema, v, base);
        RepairedPropsLocated(mode, n, ps, i + 1, v, None, base);
      } else if HasKey(v.fields, k) {
        var x := Get(v.fields, k).value;
        RepairedLocated(mode, ps[i].schema, x, base + [Key(k)]);
        LocatedChild(v, base, Key(k), x, RepairedNode(mode, ps[i].schema, x, base + [Key(k)]).issues);
        RepairedPropsLocated(mode, n, ps, i + 1, v, Some(k), base);
      } else {
        RepairedPropsLocated(mode, n, ps, i + 1, v, None, base);
      }
    }
  }

  lemma {:induction false} RepairedArrayLocated(mode: Mode, n: Node, v: Json, path: Path)
    ensures RepairedArray(mode, n, v, path).path == path
    ensures Located(v, path, RepairedArray(mode, n, v, path).issues)
    decreases n, 1
  {
    if n.items.Some? && |Elements(v)| > 0 {
      RepairedItemsLocated(mode, n, n.items.value, v, 0, path);
    }
  }

  lemma {:induction false} RepairedItemsLocated(mode: Mode, n: Node, item: Node, v: Json, idx: nat, base: Path)
    requires n.items == Some(item) && idx < |Elements(v)|
    ensures var r := RepairedItems(mode, n, item, Elements(v), idx, base);
      r.path == base && Located(v, base, r.issues)
    decreases n, 0, |Elements(v)| - idx
  {
    var xs := Elements(v);
    RepairedLocated(mode, item, xs[idx], base + [Index(idx)]);
    LocatedChild(v, base, Index(idx), xs[idx], RepairedNode(mode, item, xs[idx], base + [Index(idx)]).issues);
    assert Pop(base + [Index(idx)]) == base;
    if idx + 1 < |xs| {
      RepairedItemsLocated(mode, n, item, v, idx + 1, base);
    }
  }

  /** The checks' faults do not depend on the path they are recorded at, apart from the path itself. */
  lemma ChecksReasons(mode: Mode, checks: seq<Op>, i: nat, v: Json, p: Path, q: Path)
    requires i <= |checks|
    ensures Reasons(EvalChecksFrom(mode, checks, i, v, p)) == Reasons(EvalChecksFrom(mode, checks, i, v, q))
    decreases |checks| - i
  {
    if i < |checks| {
      ChecksReasons(mode, checks, i + 1, v, p, q);
      var hp := CheckIssues(mode, checks[i], Some(v), p);
      var hq := CheckIssues(mode, checks[i], Some(v), q);
      assert Reasons(hp) == Reasons(hq);
      ReasonsAppend(hp, EvalChecksFrom(mode, checks, i + 1, v, p));
      ReasonsAppend(hq, EvalChecksFrom(mode, checks, i + 1, v, q));
    }
  }

  /** Reasons of appended faults are the appended reasons. */
  lemma ReasonsAppend(a: seq<Fault>, b: seq<Fault>)
    ensures Reasons(a + b) == Reasons(a) + Reasons(b)
  {
  }

  /**
   * The repair changes only where issues are reported: from any starting
   * paths, the code as written and the repaired code record the same
   * faults, in the same order.
   */
  lemma {:induction false} RepairKeepsReasons(mode: Mode, n: Node, v: Json, p: Path, q: Path)
    ensures Reasons(EvalNode(mode, n, v, p).issues) == Reasons(RepairedNode(mode, n, v, q).issues)
    decreases n, 2
  {
    var o1 := EvalObject(mode, n, v, p);
    var o2 := RepairedObject(mode, n, v, q);
    var a1 := EvalArray(mode, n, v, o1.path);
    var a2 := RepairedArray(mode, n, v, o2.path);
    ChecksReasons(mode, n.checks, 0, v, p, q);
    ObjectKeepsReasons(mode, n, v, p, q);
    ChecksReasons(mode, n.itemChecks, 0, v, o1.path, o2.path);
    ArrayKeepsReasons(mode, n, v, o1.path, o2.path);
    var c1 := EvalChecks(mode, n.checks, v, p);
    var c2 := EvalChecks(mode, n.checks, v, q);
    var d1 := EvalChecks(mode, n.itemChecks, v, o1.path);
    var d2 := EvalChecks(mode, n.itemChecks, v, o2.path);
    ReasonsAppend(c1 + o1.issues + d1, a1.issues);
    ReasonsAppend(c1 + o1.issues, d1);
    ReasonsAppend(c1, o1.issues);
    ReasonsAppend(c2 + o2.issues + d2, a2.issues);
    ReasonsAppend(c2 + o2.issues, d2);
    ReasonsAppend(c2, o2.issues);
  }

  lemma {:induction false} ObjectKeepsReasons(mode: Mode, n: Node, v: Json, p: Path, q: Path)
    ensures Reasons(EvalObject(mode, n, v, p).issues) == Reasons(RepairedObject(mode, n, v, q).issues)
    decreases n, 1
  {
    if n.properties.Properties? {
      PropsKeepReasons(mode, n, n.properties.list, 0, v, None, p, q);
    }
  }

  lemma {:induction false} PropsKeepReasons(mode: Mode, n: Node, ps: seq<Prop>, i: nat, v: Json, key: Option<string>, p: Path, q: Path)
    requires n.properties == Properties(ps) && i <= |ps|
    ensures Reasons(EvalProps(mode, n, ps, i, v, key, p).issues) == Reasons(RepairedProps(mode, n, ps, i, v, key, q).issues)
    decreases n, 0, |ps| - i
  {
    if i < |ps| {
      var lp := if key.Some? then Pop(p) else p;
      var lq := if key.Some? then Pop(q) else q;
      if !v.Obj? {
        NonObjectPropKeepsReasons(mode, n, ps, i, v, key, lp, lq);
      } else if HasKey(v.fields, ps[i].key) {
        PresentPropKeepsReasons(mode, n, ps, i, v, key, lp, lq);
      } else {
        AbsentPropKeepsReasons(mode, n, ps, i, v, lp, lq);
      }
    }
  }

  /** Property `i`, absent from the object `v`, from the paths `lp` and `lq` left after the previous property. */
  lemma {:induction false} AbsentPropKeepsReasons(mode: Mode, n: Node, ps: seq<Prop>, i: nat, v: Json, lp: Path, lq: Path)
    requires n.properties == Properties(ps) && i < |ps|
    ensures var m1 := if ps[i].required then [Fault(MissingProperty(ps[i].key), lp)] else [];
      var m2 := if ps[i].required then [Fault(MissingProperty(ps[i].key), lq)] else [];
      Reasons(m1 + EvalProps(mode, n, ps, i + 1, v, None, lp).issues) ==
      Reasons(m2 + RepairedProps(mode, n, ps, i + 1, v, None, lq).issues)
    decreases n, 0, |ps| - i, 0
  {
    PropsKeepReasons(mode, n, ps, i + 1, v, None, lp, lq);
    var m1 := if ps[i].required then [Fault(MissingProperty(ps[i].key), lp)] else [];
    var m2 := if ps[i].required then [Fault(MissingProperty(ps[i].key), lq)] else [];
    ReasonsAppend(m1, EvalProps(mode, n, ps, i + 1, v, None, lp).issues);
    ReasonsAppend(m2, RepairedProps(mode, n, ps, i + 1, v, None, lq).issues);
  }

  /** Property `i` of a value that is not an object, from the paths `lp` and `lq` left after the previous property. */
  lemma {:induction false} NonObjectPropKeepsReasons(mode: Mode, n: Node, ps: seq<Prop>, i: nat, v: Json, key: Option<string>, lp: Path, lq: Path)
    requires n.properties == Properties(ps) && i < |ps| && !v.Obj?
    ensures var r1 := EvalNode(mode, ps[i].schema, v, lp);
      var r2 := RepairedNode(mode, ps[i].schema, v, lq);
      Reasons(r1.issues + EvalProps(mode, n, ps, i + 1, v, None, r1.path).issues) ==
      Reasons(r2.issues + RepairedProps(mode, n, ps, i + 1, v, None, r2.path).issues)
    decreases n, 0, |ps| - i, 0
  {
    var s1 := EvalNode(mode, ps[i].schema, v, lp);
    var s2 := RepairedNode(mode, ps[i].schema, v, lq);
    RepairKeepsReasons(mode, ps[i].schema, v, lp, lq);
    PropsKeepReasons(mode, n, ps, i + 1, v, None, s1.path, s2.path);
    ReasonsAppend(s1.issues, EvalProps(mode, n, ps, i + 1, v, None, s1.path).issues);
    ReasonsAppend(s2.issues, RepairedProps(mode, n, ps, i + 1, v, None, s2.path).issues);
  }

  /** Property `i`, present in the object `v`, from the paths `lp` and `lq` left after the previous property. */
  lemma {:induction false} PresentPropKeepsReasons(mode: Mode, n: Node, ps: seq<Prop>, i: nat, v: Json, key: Option<string>, lp: Path, lq: Path)
    requires n.properties == Properties(ps) && i < |ps| && v.Obj? && HasKey(v.fields, ps[i].key)
    ensures var x := Get(v.fields, ps[i].key).value;
      var r1 := EvalNode(mode, ps[i].schema, x, lp + [Key(ps[i].key)]);
      var r2 := RepairedNode(mode, ps[i].schema, x, lq + [Key(ps[i].key)]);
      Reasons(r1.issues + EvalProps(mode, n, ps, i + 1, v, Some(ps[i].key), r1.path).issues) ==
      Reasons(r2.issues + RepairedProps(mode, n, ps, i + 1, v, Some(ps[i].key), r2.path).issues)
    decreases n, 0, |ps| - i, 0
  {
    var k := ps[i].key;
    var x := Get(v.fields, k).value;
    var s1 := EvalNode(mode, ps[i].schema, x, lp + [Key(k)]);
    var s2 := RepairedNode(mode, ps[i].schema, x, lq + [Key(k)]);
    RepairKeepsReasons(mode, ps[i].schema, x, lp + [Key(k)], lq + [Key(k)]);
    PropsKeepReasons(mode, n, ps, i + 1, v, Some(k), s1.path, s2.path);
    ReasonsAppend(s1.issues, EvalProps(mode, n, ps, i + 1, v, Some(k), s1.path).issues);
    ReasonsAppend(s2.issues, RepairedProps(mode, n, ps, i + 1, v, Some(k), s2.path).issues);
  }

  lemma {:induction false} ArrayKeepsReasons(mode: Mode, n: Node, v: Json, p: Path, q: Path)
    ensures Reasons(EvalArray(mode, n, v, p).issues) == Reasons(RepairedArray(mode, n, v, q).issues)
    decreases n, 1
  {
    if n.items.Some? && |Elements(v)| > 0 {
      ItemsKeepReasons(mode, n, n.items.value, Elements(v), 0, p, q);
    }
  }

  lemma {:induction false} ItemsKeepReasons(mode: Mode, n: Node, item: Node, xs: seq<Json>, idx: nat, p: Path, q: Path)
    requires n.items == Some(item) && idx < |xs|
    ensures Reasons(EvalItems(mode, n, item, xs, idx, p).issues) == Reasons(RepairedItems(mode, n, item, xs, idx, q).issues)
    decreases n, 0, |xs| - idx
  {
    var ep := (if idx > 0 then Pop(p) else p) + [Index(idx)];
    var eq := q + [Index(idx)];
    var s1 := EvalNode(mode, item, xs[idx], ep);
    var s2 := RepairedNode(mode, item, xs[idx], eq);
    RepairKeepsReasons(mode, item, xs[idx], ep, eq);
    if idx + 1 < |xs| {
      ItemsKeepReasons(mode, n, item, xs, idx + 1, Pop(s1.path), Pop(s2.path));
      ReasonsAppend(s1.issues, EvalItems(mode, n, item, xs, idx + 1, Pop(s1.path)).issues);
      ReasonsAppend(s2.issues, RepairedItems(mode, n, item, xs, idx + 1, Pop(s2.path)).issues);
    }
  }

  /** A schema with a property `tags` whose value must be an array of strings. */
  const TagsNode := Node([], Properties([Prop("tags", false, Node([], NoProperties, [], Some(Node([CheckType(StringTag)], NoProperties, [], None))))]), [], None)

  /** `{"properties": {"tags": {"items": {"type": "string"}}}}`. */
  const TagsSchema := Obj([("properties", Obj([("tags", Obj([("items", Obj([("type", Str("string"))]))]))]))])

  /** The keywords the compiler reads from a schema node. */
  const Keywords := ["type", "minimum", "maximum", "exclusiveMinimum", "exclusiveMaximum",
    "minLength", "maxLength", "properties", "required", "minItems", "maxItems", "items"]

  /** A schema with one keyword: that keyword is its only one the compiler reads. */
  lemma SingleKeyword(k: string, x: Json)
    ensures forall key :: key in Keywords ==> Get([(k, x)], key) == if k == key then Some(x) else None
  {
    forall key | key in Keywords ensures Get([(k, x)], key) == if k == key then Some(x) else None {
      GetSingle(k, x, key);
    }
  }

  /** `{"type": "string"}` compiles to a single string type check. */
  lemma StringLeafLowers()
    ensures Lower(Obj([("type", Str("string"))])) == Node([CheckType(StringTag)], NoProperties, [], None)
  {
    SingleKeyword("type", Str("string"));
  }

  /** `{"items": {"type": "string"}}` compiles to an array of string checks. */
  lemma StringArrayLowers()
    ensures Lower(Obj([("items", Obj([("type", Str("string"))]))])) ==
      Node([], NoProperties, [], Some(Node([CheckType(StringTag)], NoProperties, [], None)))
  {
    SingleKeyword("items", Obj([("type", Str("string"))]));
    StringLeafLowers();
  }

  /** `TagsNode` is what the compiler reads from `TagsSchema`. */
  lemma TagsSchemaLowers()
    ensures Lower(TagsSchema) == TagsNode
  {
    var arr := Obj([("items", Obj([("type", Str("string"))]))]);
    SingleKeyword("properties", Obj([("tags", arr)]));
    StringArrayLowers();
    assert PropertiesKeyword(TagsSchema) == Properties([Prop("tags", false, Lower(arr))]);
  }

  /** `{"tags": ["a", 1]}`. */
  const TagsValue := Obj([("tags", Arr([Str("a"), Int(1)]))])

  /**
   * Against `TagsNode`, which `TagsSchema` compiles to (`TagsSchemaLowers`),
   * as written the integer in `{"tags": ["a", 1]}` is reported at `[1]`,
   * a path that leads nowhere from the value; the repaired engine reports it
   * at `["tags", 1]`, which leads to the integer.
   */
  lemma NestedElementPathLost()
    ensures EvalNode(Full, TagsNode, TagsValue, []).issues == [Fault(WrongType(StringTag, Int(1)), [Index(1)])]
    ensures Locate(TagsValue, [Index(1)]).None?
    ensures RepairedNode(Full, TagsNode, TagsValue, []).issues == [Fault(WrongType(StringTag, Int(1)), [Key("tags"), Index(1)])]
    ensures Locate(TagsValue, [Key("tags"), Index(1)]) == Some(Int(1))
  {
    var item := Node([CheckType(StringTag)], NoProperties, [], None);
    var arrNode := Node([], NoProperties, [], Some(item));
    var xs := [Str("a"), Int(1)];
    assert Lookup(TagsValue.fields, "tags") == Some(0) by {
      assert LookupFrom(TagsValue.fields, "tags", 0) == Some(0);
    }
    assert Get(TagsValue.fields, "tags") == Some(Arr(xs));
    assert EvalChecks(Full, [CheckType(StringTag)], Str("a"), [Key("tags"), Index(0)]) == [];
    assert EvalChecks(Full, [CheckType(StringTag)], Int(1), [Index(1)]) == [Fault(WrongType(StringTag, Int(1)), [Index(1)])];
    assert EvalChecks(Full, [CheckType(StringTag)], Int(1), [Key("tags"), Index(1)]) == [Fault(WrongType(StringTag, Int(1)), [Key("tags"), Index(1)])];
    var a := RepairedNode(Full, item, Str("a"), [Key("tags"), Index(0)]);
    assert a == Outcome([], [Key("tags"), Index(0)]);
    var b := RepairedNode(Full, item, Int(1), [Key("tags"), Index(1)]);
    assert b == Outcome([Fault(WrongType(StringTag, Int(1)), [Key("tags"), Index(1)])], [Key("tags"), Index(1)]);
    assert [Key("tags")] + [Index(1)] == [Key("tags"), Index(1)];
    assert [Key("tags")] + [Index(0)] == [Key("tags"), Index(0)];
    assert RepairedItems(Full, arrNode, item, xs, 1, [Key("tags")]).issues == b.issues;
    assert RepairedItems(Full, arrNode, item, xs, 0, [Key("tags")]).issues == b.issues;
    assert RepairedNode(Full, arrNode, Arr(xs), [Key("tags")]).issues == b.issues;
  }
}
