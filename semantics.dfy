/**
 * What running a compiled schema node means, stated over the node itself
 * rather than over the operation list: which issues it records, in which
 * order, and how it leaves the path stack. This is the reference the engines
 * are proved against (module `Correctness`).
 *
 * The path is threaded through exactly as the full engine's `path_stack`
 * evolves, including its quirk: after the first element of an array, the
 * `CheckArrayItems` of the next element pops a segment that the preceding
 * `ExitArray` already popped, so inside a nested array the parent's segment
 * is lost.
 */
module Semantics {
  import opened Wrappers
  import opened JsonValues
  import opened Types
  import opened Compiler
  import opened Machine

  /** The issues a node records and the path stack it leaves behind. */
  datatype Outcome = Outcome(issues: seq<Fault>, path: Path)

  /** The issues of a node's properties, its path stack, and the property of the object frame left current. */
  datatype PropsOutcome = PropsOutcome(issues: seq<Fault>, path: Path, key: Option<string>)

  /** The issues a run of check operations records on `v`, each at `path`, in order. */
  function EvalChecks(mode: Mode, checks: seq<Op>, v: Json, path: Path): seq<Fault>
  {
    EvalChecksFrom(mode, checks, 0, v, path)
  }

  /** The issues of the checks from index `i` on. */
  function EvalChecksFrom(mode: Mode, checks: seq<Op>, i: nat, v: Json, path: Path): seq<Fault>
    requires i <= |checks|
    decreases |checks| - i
  {
    if i == |checks| then []
    else CheckIssues(mode, checks[i], Some(v), path) + EvalChecksFrom(mode, checks, i + 1, v, path)
  }

  /** The value a property's operations run against: the property's value in an object, the unchanged value otherwise. */
  function PropertyValue(v: Json, k: string): Option<Json>
  {
    if v.Obj? then Get(v.fields, k) else Some(v)
  }

  /**
   * A node run on the value `v`: its checks, then its object block, then its
   * item-count checks, then its array block.
   */
  function EvalNode(mode: Mode, n: Node, v: Json, path: Path): Outcome
    decreases n, 2
  {
    var obj := EvalObject(mode, n, v, path);
    var arr := EvalArray(mode, n, v, obj.path);
    Outcome(EvalChecks(mode, n.checks, v, path) + obj.issues +
            EvalChecks(mode, n.itemChecks, v, obj.path) + arr.issues,
            arr.path)
  }

  /** A node's object block: its properties in order, then the last entered property's segment is dropped. */
  function EvalObject(mode: Mode, n: Node, v: Json, path: Path): Outcome
    decreases n, 1
  {
    match n.properties
    case NoProperties => Outcome([], path)
    case Properties(ps) =>
      var r := EvalProps(mode, n, ps, 0, v, None, path);
      Outcome(r.issues, if r.key.Some? then Pop(r.path) else r.path)
  }

  /**
   * Properties `i..` of a node on `v`, with `key` the property the object
   * frame is at. Each `CheckProperty` first drops that property's segment.
   * On an object, a present property is entered (its key pushed) and its
   * schema run on its value; an absent one records a missing-property issue
   * when it is required and skips its schema. On any other value the schema
   * runs on `v` itself and nothing is entered.
   */
  function EvalProps(mode: Mode, n: Node, ps: seq<Prop>, i: nat, v: Json, key: Option<string>, path: Path): PropsOutcome
    requires n.properties == Properties(ps) && i <= |ps|
    decreases n, 0, |ps| - i
  {
    if i == |ps| then PropsOutcome([], path, key)
    else
      var k := ps[i].key;
      var left := if key.Some? then Pop(path) else path;
      if !v.Obj? then
        var sub := EvalNode(mode, ps[i].schema, v, left);
        var rest := EvalProps(mode, n, ps, i + 1, v, None, sub.path);
        PropsOutcome(sub.issues + rest.issues, rest.path, rest.key)
      else if HasKey(v.fields, k) then
        var sub := EvalNode(mode, ps[i].schema, Get(v.fields, k).value, left + [Key(k)]);
        var rest := EvalProps(mode, n, ps, i + 1, v, Some(k), sub.path);
        PropsOutcome(sub.issues + rest.issues, rest.path, rest.key)
      else
        var missing := if ps[i].required then [Fault(MissingProperty(k), left)] else [];
        var rest := EvalProps(mode, n, ps, i + 1, v, None, left);
        PropsOutcome(missing + rest.issues, rest.path, rest.key)
  }

  /** The elements of `v` when it is an array; none otherwise. */
  function Elements(v: Json): seq<Json>
  {
    if v.Arr? then v.items else []
  }

  /** A node's array block: the item schema on each element of `v`, in index order; nothing when there are none. */
  function EvalArray(mode: Mode, n: Node, v: Json, path: Path): Outcome
    decreases n, 1
  {
    match n.items
    case None => Outcome([], path)
    case Some(item) =>
      if |Elements(v)| == 0 then Outcome([], path)
      else EvalItems(mode, n, item, Elements(v), 0, path)
  }

  /**
   * Elements `idx..` of an array: each element's segment is pushed (after the
   * previous element's `CheckArrayItems` pop), its schema runs, and its
   * `ExitArray` pops once more.
   */
  function EvalItems(mode: Mode, n: Node, item: Node, xs: seq<Json>, idx: nat, path: Path): Outcome
    requires n.items == Some(item) && idx < |xs|
    decreases n, 0, |xs| - idx
  {
    var entered := (if idx > 0 then Pop(path) else path) + [Index(idx)];
    var sub := EvalNode(mode, item, xs[idx], entered);
    var left := Pop(sub.path);
    if idx + 1 < |xs| then
      var rest := EvalItems(mode, n, item, xs, idx + 1, left);
      Outcome(sub.issues + rest.issues, rest.path)
    else Outcome(sub.issues, left)
  }

  /** How many iterations of the engines' loop a node takes on `v`. */
  function Cost(n: Node, v: Json): nat
    decreases n, 2
  {
    |n.checks| + ObjectCost(n, v) + |n.itemChecks| + ArrayCost(n, v)
  }

  /** Iterations of a node's object block: `EnterObject`, the properties, `ExitObject`. */
  function ObjectCost(n: Node, v: Json): nat
    decreases n, 1
  {
    match n.properties
    case NoProperties => 0
    case Properties(ps) => 2 + PropsCost(n, ps, 0, v)
  }

  /** Iterations of properties `i..`: each `CheckProperty`, and the property's schema unless it was skipped. */
  function PropsCost(n: Node, ps: seq<Prop>, i: nat, v: Json): nat
    requires n.properties == Properties(ps) && i <= |ps|
    decreases n, 0, |ps| - i
  {
    if i == |ps| then 0
    else
      var sub := PropertyValue(v, ps[i].key);
      1 + (if sub.Some? then Cost(ps[i].schema, sub.value) else 0) + PropsCost(n, ps, i + 1, v)
  }

  /** Iterations of a node's array block: `EnterArray`, then the elements, or a skip straight to `ExitArray`. */
  function ArrayCost(n: Node, v: Json): nat
    decreases n, 1
  {
    match n.items
    case None => 0
    case Some(item) =>
      if |Elements(v)| == 0 then 3
      else 1 + ItemsCost(n, item, Elements(v), 0)
  }

  /** Iterations of elements `idx..`: `CheckArrayItems`, the item schema, `ExitArray`, per element. */
  function ItemsCost(n: Node, item: Node, xs: seq<Json>, idx: nat): nat
    requires n.items == Some(item) && idx < |xs|
    decreases n, 0, |xs| - idx
  {
    2 + Cost(item, xs[idx]) + (if idx + 1 < |xs| then ItemsCost(n, item, xs, idx + 1) else 0)
  }

  /** An element before the last: its issues, then those of the elements after it; its iterations, then theirs. */
  lemma EvalItemsNext(mode: Mode, n: Node, item: Node, xs: seq<Json>, idx: nat, path: Path)
    requires n.items == Some(item) && idx + 1 < |xs|
    ensures var sub := EvalNode(mode, item, xs[idx], (if idx > 0 then Pop(path) else path) + [Index(idx)]);
      var rest := EvalItems(mode, n, item, xs, idx + 1, Pop(sub.path));
      EvalItems(mode, n, item, xs, idx, path) == Outcome(sub.issues + rest.issues, rest.path) &&
      ItemsCost(n, item, xs, idx) == (Cost(item, xs[idx]) + (ItemsCost(n, item, xs, idx + 1) + 1)) + 1
  {
  }

  /** The last element: its issues, and the path with its segment popped. */
  lemma EvalItemsLast(mode: Mode, n: Node, item: Node, xs: seq<Json>, idx: nat, path: Path)
    requires n.items == Some(item) && idx < |xs| && idx + 1 >= |xs|
    ensures var sub := EvalNode(mode, item, xs[idx], (if idx > 0 then Pop(path) else path) + [Index(idx)]);
      EvalItems(mode, n, item, xs, idx, path) == Outcome(sub.issues, Pop(sub.path)) &&
      ItemsCost(n, item, xs, idx) == (Cost(item, xs[idx]) + 1) + 1
  {
  }
}
