/**
 * When a compiled schema accepts a value, stated without the machine.
 *
 * `Accepts` says it declaratively: every check of a node holds of the value,
 * each listed property is accepted by its schema where it is present and is
 * optional where it is absent, and every element is accepted by the item
 * schema. The lemmas show that the engines' reference `EvalNode` records no
 * issue exactly when `Accepts` holds, at whatever path the node starts.
 */
module Verdicts {
  import opened Wrappers
  import opened JsonValues
  import opened Types
  import opened Compiler
  import opened Machine
  import opened Semantics

  /** `v` is accepted by node `n` in the given engine. */
  predicate Accepts(mode: Mode, n: Node, v: Json)
    decreases n
  {
    (forall j :: 0 <= j < |n.checks| ==> Violation(mode, n.checks[j], v).None?) &&
    (forall j :: 0 <= j < |n.itemChecks| ==> Violation(mode, n.itemChecks[j], v).None?) &&
    (n.properties.Properties? ==>
      forall j :: 0 <= j < |n.properties.list| ==> PropAccepts(mode, n, n.properties.list[j], v)) &&
    (n.items.Some? ==>
      forall j :: 0 <= j < |Elements(v)| ==> Accepts(mode, n.items.value, Elements(v)[j]))
  }

  /**
   * A property of node `n` is satisfied by `v`: when `v` is an object, the
   * property is optional if absent and accepted by its schema if present;
   * when `v` is not an object, its schema accepts `v` itself.
   */
  predicate PropAccepts(mode: Mode, n: Node, p: Prop, v: Json)
    requires n.properties.Properties? && p in n.properties.list
    decreases n, 0
  {
    match PropertyValue(v, p.key)
    case None => !p.required
    case Some(x) => Accepts(mode, p.schema, x)
  }

  /**
   * A check records an issue only on a value of the kind it applies to:
   * bounds on numbers, lengths on strings, item counts on arrays.
   */
  lemma ChecksApplyToTheirKind(mode: Mode, op: Op, v: Json)
    ensures (Violation(mode, op, v).Some? &&
      (op.CheckMinimum? || op.CheckMaximum? || op.CheckExclusiveMinimum? || op.CheckExclusiveMaximum?)) ==> IsNumber(v)
    ensures Violation(mode, op, v).Some? && (op.CheckMinLength? || op.CheckMaxLength?) ==> v.Str?
    ensures Violation(mode, op, v).Some? && (op.CheckMinItems? || op.CheckMaxItems?) ==> v.Arr?
  {
  }

  /** On a number equal to the bound, the inclusive bounds pass and the exclusive ones fail. */
  lemma BoundsAtEquality(mode: Mode, v: Json)
    requires IsNumber(v)
    ensures var b := AsF64(v).value;
      Violation(mode, CheckMinimum(b), v).None? && Violation(mode, CheckMaximum(b), v).None? &&
      Violation(mode, CheckExclusiveMinimum(b), v) == Some(NotAboveExclusiveMinimum(b, b)) &&
      Violation(mode, CheckExclusiveMaximum(b), v) == Some(NotBelowExclusiveMaximum(b, b))
  {
  }

  /** A run of checks records nothing exactly when none of them is violated. */
  lemma {:induction false} ChecksPass(mode: Mode, checks: seq<Op>, i: nat, v: Json, path: Path)
    requires i <= |checks|
    ensures EvalChecksFrom(mode, checks, i, v, path) == [] <==>
      forall j :: i <= j < |checks| ==> Violation(mode, checks[j], v).None?
    decreases |checks| - i
  {
    if i < |checks| {
      ChecksPass(mode, checks, i + 1, v, path);
    }
  }

  /** A node records no issue on `v`, from any path, exactly when it accepts `v`. */
  lemma {:induction false} NodePasses(mode: Mode, n: Node, v: Json, path: Path)
    ensures EvalNode(mode, n, v, path).issues == [] <==> Accepts(mode, n, v)
    decreases n, 2
  {
    ChecksPass(mode, n.checks, 0, v, path);
    ObjectPasses(mode, n, v, path);
    var obj := EvalObject(mode, n, v, path);
    ChecksPass(mode, n.itemChecks, 0, v, obj.path);
    ArrayPasses(mode, n, v, obj.path);
  }

  /** The object block records no issue exactly when every listed property is satisfied. */
  lemma {:induction false} ObjectPasses(mode: Mode, n: Node, v: Json, path: Path)
    ensures EvalObject(mode, n, v, path).issues == [] <==>
      (n.properties.Properties? ==>
        forall j :: 0 <= j < |n.properties.list| ==> PropAccepts(mode, n, n.properties.list[j], v))
    decreases n, 1
  {
    if n.properties.Properties? {
      PropsPass(mode, n, n.properties.list, 0, v, None, path);
    }
  }

  /**
   * Properties `i..` record no issue exactly when each of them is satisfied:
   * an absent required property is what a missing-property issue reports,
   * and an absent optional one records nothing.
   */
  lemma {:induction false} PropsPass(mode: Mode, n: Node, ps: seq<Prop>, i: nat, v: Json, key: Option<string>, path: Path)
    requires n.properties == Properties(ps) && i <= |ps|
    ensures EvalProps(mode, n, ps, i, v, key, path).issues == [] <==>
      forall j :: i <= j < |ps| ==> PropAccepts(mode, n, ps[j], v)
    decreases n, 0, |ps| - i
  {
    if i < |ps| {
      var k := ps[i].key;
      var left := if key.Some? then Pop(path) else path;
      if !v.Obj? {
        NodePasses(mode, ps[i].schema, v, left);
        var sub := EvalNode(mode, ps[i].schema, v, left);
        PropsPass(mode, n, ps, i + 1, v, None, sub.path);
      } else if HasKey(v.fields, k) {
        NodePasses(mode, ps[i].schema, Get(v.fields, k).value, left + [Key(k)]);
        var sub := EvalNode(mode, ps[i].schema, Get(v.fields, k).value, left + [Key(k)]);
        PropsPass(mode, n, ps, i + 1, v, Some(k), sub.path);
      } else {
        PropsPass(mode, n, ps, i + 1, v, None, left);
      }
    }
  }

  /** The array block records no issue exactly when every element is accepted; with no elements it records none. */
  lemma {:induction false} ArrayPasses(mode: Mode, n: Node, v: Json, path: Path)
    ensures EvalArray(mode, n, v, path).issues == [] <==>
      (n.items.Some? ==> forall j :: 0 <= j < |Elements(v)| ==> Accepts(mode, n.items.value, Elements(v)[j]))
    decreases n, 1
  {
    if n.items.Some? && |Elements(v)| > 0 {
      ItemsPass(mode, n, n.items.value, Elements(v), 0, path);
    }
  }

  /** Elements `idx..` record no issue exactly when each of them is accepted by the item schema. */
  lemma {:induction false} ItemsPass(mode: Mode, n: Node, item: Node, xs: seq<Json>, idx: nat, path: Path)
    requires n.items == Some(item) && idx < |xs|
    ensures EvalItems(mode, n, item, xs, idx, path).issues == [] <==>
      forall j :: idx <= j < |xs| ==> Accepts(mode, item, xs[j])
    decreases n, 0, |xs| - idx
  {
    var entered := (if idx > 0 then Pop(path) else path) + [Index(idx)];
    var sub := EvalNode(mode, item, xs[idx], entered);
    NodePasses(mode, item, xs[idx], entered);
    if idx + 1 < |xs| {
      var rest := EvalItems(mode, n, item, xs, idx + 1, Pop(sub.path));
      assert EvalItems(mode, n, item, xs, idx, path).issues == sub.issues + rest.issues;
      ItemsPass(mode, n, item, xs, idx + 1, Pop(sub.path));
    } else {
      assert EvalItems(mode, n, item, xs, idx, path).issues == sub.issues;
    }
  }
}
