/**
 * Where the two engines can differ. `execute_compiled` measures a string in
 * characters and `execute_compiled_bool` in UTF-8 bytes; on values whose
 * strings are all ASCII the two measures coincide, and then both engines
 * find exactly the same issues. On a string with a wider character they
 * can disagree.
 */
module Modes {
  import opened Wrappers
  import opened JsonValues
  import opened Types
  import opened Compiler
  import opened Machine
  import opened Semantics
  import opened Engines

  /** Every string inside `v` (object keys aside) is ASCII. */
  predicate AsciiText(v: Json)
    decreases v
  {
    match v
    case Str(s) => IsAscii(s)
    case Arr(items) => forall i :: 0 <= i < |items| ==> AsciiText(items[i])
    case Obj(fields) => forall i :: 0 <= i < |fields| ==> AsciiText(fields[i].1)
    case _ => true
  }

  /** A check fails the same way in both engines on a value whose text is ASCII. */
  lemma ViolationModesAgree(op: Op, v: Json)
    requires AsciiText(v)
    ensures Violation(Full, op, v) == Violation(Fast, op, v)
  {
    if v.Str? {
      assert StrLength(Fast, v.s) == StrLength(Full, v.s);
    }
  }

  /** A run of checks records the same issues in both engines. */
  lemma {:induction false} ChecksModesAgree(checks: seq<Op>, i: nat, v: Json, path: Path)
    requires i <= |checks| && AsciiText(v)
    ensures EvalChecksFrom(Full, checks, i, v, path) == EvalChecksFrom(Fast, checks, i, v, path)
    decreases |checks| - i
  {
    if i < |checks| {
      ViolationModesAgree(checks[i], v);
      ChecksModesAgree(checks, i + 1, v, path);
    }
  }

  /**
   * On a value whose strings are all ASCII, a node records the same issues
   * and leaves the same path in both engines.
   */
  lemma {:induction false} NodeModesAgree(n: Node, v: Json, path: Path)
    requires AsciiText(v)
    ensures EvalNode(Full, n, v, path) == EvalNode(Fast, n, v, path)
    decreases n, 2
  {
    ChecksModesAgree(n.checks, 0, v, path);
    ObjectModesAgree(n, v, path);
    var obj := EvalObject(Full, n, v, path);
    ChecksModesAgree(n.itemChecks, 0, v, obj.path);
    ArrayModesAgree(n, v, obj.path);
  }

  lemma {:induction false} ObjectModesAgree(n: Node, v: Json, path: Path)
    requires AsciiText(v)
    ensures EvalObject(Full, n, v, path) == EvalObject(Fast, n, v, path)
    decreases n, 1
  {
    if n.properties.Properties? {
      PropsModesAgree(n, n.properties.list, 0, v, None, path);
    }
  }

  lemma {:induction false} PropsModesAgree(n: Node, ps: seq<Prop>, i: nat, v: Json, key: Option<string>, path: Path)
    requires n.properties == Properties(ps) && i <= |ps| && AsciiText(v)
    ensures EvalProps(Full, n, ps, i, v, key, path) == EvalProps(Fast, n, ps, i, v, key, path)
    decreases n, 0, |ps| - i
  {
    if i < |ps| {
      var k := ps[i].key;
      var left := if key.Some? then Pop(path) else path;
      if !v.Obj? {
        NodeModesAgree(ps[i].schema, v, left);
        var sub := EvalNode(Full, ps[i].schema, v, left);
        PropsModesAgree(n, ps, i + 1, v, None, sub.path);
      } else if HasKey(v.fields, k) {
        var j := Lookup(v.fields, k).value;
        assert AsciiText(v.fields[j].1);
        NodeModesAgree(ps[i].schema, Get(v.fields, k).value, left + [Key(k)]);
        var sub := EvalNode(Full, ps[i].schema, Get(v.fields, k).value, left + [Key(k)]);
        PropsModesAgree(n, ps, i + 1, v, Some(k), sub.path);
      } else {
        PropsModesAgree(n, ps, i + 1, v, None, left);
      }
    }
  }

  lemma {:induction false} ArrayModesAgree(n: Node, v: Json, path: Path)
    requires AsciiText(v)
    ensures EvalArray(Full, n, v, path) == EvalArray(Fast, n, v, path)
    decreases n, 1
  {
    if n.items.Some? && |Elements(v)| > 0 {
      ItemsModesAgree(n, n.items.value, v, 0, path);
    }
  }

  lemma {:induction false} ItemsModesAgree(n: Node, item: Node, v: Json, idx: nat, path: Path)
    requires n.items == Some(item) && idx < |Elements(v)| && AsciiText(v)
    ensures EvalItems(Full, n, item, Elements(v), idx, path) == EvalItems(Fast, n, item, Elements(v), idx, path)
    decreases n, 0, |Elements(v)| - idx
  {
    var xs := Elements(v);
    var entered := (if idx > 0 then Pop(path) else path) + [Index(idx)];
    assert AsciiText(xs[idx]);
    NodeModesAgree(item, xs[idx], entered);
    if idx + 1 < |xs| {
      var sub := EvalNode(Full, item, xs[idx], entered);
      ItemsModesAgree(n, item, v, idx + 1, Pop(sub.path));
    }
  }

  /**
   * With a character that takes two bytes, a `maxLength` of 1 passes in the
   * full engine (one character) and fails in the bool engine (two bytes).
   */
  lemma ModesDisagreeOnWideText()
    ensures var n := Node([CheckMaxLength(1)], NoProperties, [], None);
      EvalNode(Full, n, Str("\U{e9}"), []).issues == [] &&
      EvalNode(Fast, n, Str("\U{e9}"), []).issues != []
  {
    assert Utf8Len("\U{e9}") == Utf8Width('\U{e9}') + Utf8LenFrom("\U{e9}", 1);
  }

  /**
   * On a root whose strings are all ASCII, `execute_compiled` and
   * `execute_compiled_bool` run on a compiled schema record the same issues,
   * so the bool engine answers `true` exactly when the full one succeeds.
   */
  lemma EnginesAgree(s: Json, root: Json)
    requires AsciiText(root)
    ensures var total := Cost(Lower(s), root) + 1;
      Run(Full, root, Compile(s), Start, total).issues == Run(Fast, root, Compile(s), Start, total).issues
  {
    RunCompiled(Full, s, root);
    RunCompiled(Fast, s, root);
    NodeModesAgree(Lower(s), root, []);
  }
}
