/**
 * Running the machine over a compiled node does what `Semantics` says: from
 * the node's first operation, with the value it constrains in focus, the
 * loop takes `Cost(n, v)` iterations, comes out just after the node's last
 * operation with the frames it started with, and has appended exactly the
 * issues of `EvalNode` and left the path stack as `EvalNode` does.
 */
module Correctness {
  import opened Wrappers
  import opened JsonValues
  import opened Types
  import opened Compiler
  import opened Machine
  import opened Semantics
  import opened Layout
  import opened Occurrences
  import opened Positions

  /** Running `a` iterations to `mid` and then `b` more is running `b` from `mid`. */
  lemma RunThen(mode: Mode, root: Json, ops: seq<Op>, st: State, a: nat, mid: State, b: nat)
    requires Run(mode, root, ops, st, a) == mid
    ensures Run(mode, root, ops, st, a + b) == Run(mode, root, ops, mid, b)
  {
    RunAdd(mode, root, ops, st, a, b);
  }

  /** Four runs one after the other. */
  lemma RunSeq4(mode: Mode, root: Json, ops: seq<Op>, st: State, k1: nat, st1: State, k2: nat, st2: State,
                k3: nat, st3: State, k4: nat, st4: State)
    requires Run(mode, root, ops, st, k1) == st1 && Run(mode, root, ops, st1, k2) == st2
    requires Run(mode, root, ops, st2, k3) == st3 && Run(mode, root, ops, st3, k4) == st4
    ensures Run(mode, root, ops, st, k1 + k2 + k3 + k4) == st4
  {
    RunAdd(mode, root, ops, st, k1, k2);
    RunAdd(mode, root, ops, st, k1 + k2, k3);
    RunAdd(mode, root, ops, st, k1 + k2 + k3, k4);
  }

  /** No iterations leave the state as it is. */
  lemma RunZero(mode: Mode, root: Json, ops: seq<Op>, st: State)
    ensures Run(mode, root, ops, st, 0) == st
  {
  }

  /** Regrouping appended issues. */
  lemma IssuesRegroup(a: seq<Fault>, b: seq<Fault>, c: seq<Fault>)
    ensures (a + b) + c == a + (b + c)
  {
  }

  /** Regrouping four appended runs of issues after a prefix. */
  lemma IssuesRegroup4(a: seq<Fault>, b: seq<Fault>, c: seq<Fault>, d: seq<Fault>, e: seq<Fault>)
    ensures (((a + b) + c) + d) + e == a + (((b + c) + d) + e)
  {
  }

  // The first of `k + 1` iterations on each kind of operation, in the situations a compiled node puts the machine in.

  lemma RunOnCheck(mode: Mode, root: Json, ops: seq<Op>, st: State, v: Json, k: nat)
    requires st.ip < |ops| && IsCheck(ops[st.ip]) && Focus(root, st.frames) == Some(v)
    ensures Run(mode, root, ops, st, k + 1) ==
      Run(mode, root, ops, State(st.ip + 1, st.frames, st.path, st.issues + CheckIssues(mode, ops[st.ip], Some(v), st.path)), k)
  {
    StepCheckAt(mode, root, ops[st.ip], st, v);
    RunCheckOp(mode, root, ops, st, k);
  }

  lemma RunOnEnterObject(mode: Mode, root: Json, ops: seq<Op>, st: State, k: nat)
    requires st.ip < |ops| && ops[st.ip] == EnterObject
    ensures Run(mode, root, ops, st, k + 1) ==
      Run(mode, root, ops, State(st.ip + 1, st.frames + [ObjectFrame(None)], st.path, st.issues), k)
  {
    RunEnterObjectOp(mode, root, ops, st, k);
  }

  lemma RunOnExitObject(mode: Mode, root: Json, ops: seq<Op>, st: State, frames: seq<Frame>, key: Option<string>, k: nat)
    requires st.ip < |ops| && ops[st.ip] == ExitObject && st.frames == frames + [ObjectFrame(key)]
    ensures Run(mode, root, ops, st, k + 1) ==
      Run(mode, root, ops, State(st.ip + 1, frames, if key.Some? then Pop(st.path) else st.path, st.issues), k)
  {
    StepExitObjectAt(st, frames, key);
    RunExitObjectOp(mode, root, ops, st, k);
  }

  /** `CheckProperty` on a value that is not an object: the property's operations run next, on the same value. */
  lemma RunOnPropertyOfNonObject(mode: Mode, root: Json, ops: seq<Op>, st: State, frames: seq<Frame>,
                                 key: Option<string>, v: Json, k: nat)
    requires st.ip < |ops| && ops[st.ip].CheckProperty?
    requires Within(root, st, frames, ObjectFrame(key), v) && !v.Obj?
    ensures Run(mode, root, ops, st, k + 1) ==
      Run(mode, root, ops, State(st.ip + 1, frames + [ObjectFrame(None)], if key.Some? then Pop(st.path) else st.path, st.issues), k)
  {
    StepPropertyOfNonObject(root, ops, st, frames, key, v, ops[st.ip].key, ops[st.ip].required);
    RunPropertyOp(mode, root, ops, st, k);
  }

  /** `CheckProperty` of a present property: it is entered. */
  lemma RunOnPresentProperty(mode: Mode, root: Json, ops: seq<Op>, st: State, frames: seq<Frame>,
                             key: Option<string>, v: Json, k: nat)
    requires st.ip < |ops| && ops[st.ip].CheckProperty?
    requires Within(root, st, frames, ObjectFrame(key), v)
    requires v.Obj? && HasKey(v.fields, ops[st.ip].key)
    ensures Run(mode, root, ops, st, k + 1) ==
      Run(mode, root, ops, State(st.ip + 1, frames + [ObjectFrame(Some(ops[st.ip].key))],
                                 (if key.Some? then Pop(st.path) else st.path) + [Key(ops[st.ip].key)], st.issues), k)
  {
    StepPresentProperty(root, ops, st, frames, key, v, ops[st.ip].key, ops[st.ip].required);
    RunPropertyOp(mode, root, ops, st, k);
  }

  /** `CheckProperty` of an absent property: the issue when it is required, and a skip to `target`. */
  lemma RunOnAbsentProperty(mode: Mode, root: Json, ops: seq<Op>, st: State, frames: seq<Frame>,
                            key: Option<string>, v: Json, target: nat, k: nat)
    requires st.ip < |ops| && ops[st.ip].CheckProperty?
    requires Within(root, st, frames, ObjectFrame(key), v)
    requires v.Obj? && !HasKey(v.fields, ops[st.ip].key)
    requires target < |ops| && Scan(ops, st.ip + 1, 0, false) == target
    ensures var left := if key.Some? then Pop(st.path) else st.path;
      Run(mode, root, ops, st, k + 1) ==
      Run(mode, root, ops, State(target, frames + [ObjectFrame(None)], left,
            st.issues + (if ops[st.ip].required then [Fault(MissingProperty(ops[st.ip].key), left)] else [])), k)
  {
    StepAbsentProperty(root, ops, st, frames, key, v, ops[st.ip].key, ops[st.ip].required);
    RunPropertyOp(mode, root, ops, st, k);
  }

  lemma RunOnEnterArray(mode: Mode, root: Json, ops: seq<Op>, st: State, k: nat)
    requires st.ip < |ops| && ops[st.ip] == EnterArray
    ensures Run(mode, root, ops, st, k + 1) ==
      Run(mode, root, ops, State(st.ip + 1, st.frames + [ArrayFrame(0, st.ip + 1)], st.path, st.issues), k)
  {
    RunEnterArrayOp(mode, root, ops, st, k);
  }

  /** `CheckArrayItems` with an element left: it is entered. */
  lemma RunOnItemsEnter(mode: Mode, root: Json, ops: seq<Op>, st: State, frames: seq<Frame>,
                        v: Json, idx: nat, start: nat, k: nat)
    requires st.ip < |ops| && ops[st.ip] == CheckArrayItems
    requires Within(root, st, frames, ArrayFrame(idx, start), v)
    requires idx < |Elements(v)|
    ensures Run(mode, root, ops, st, k + 1) ==
      Run(mode, root, ops, State(st.ip + 1, st.frames, (if idx > 0 then Pop(st.path) else st.path) + [Index(idx)], st.issues), k)
  {
    StepItemsEnter(mode, root, ops, st, frames, v, idx, start);
    RunItemsOp(mode, root, ops, st, k);
  }

  /** `CheckArrayItems` on an empty array or a non-array: a skip to `target`. */
  lemma RunOnItemsSkip(mode: Mode, root: Json, ops: seq<Op>, st: State, frames: seq<Frame>,
                       v: Json, start: nat, target: nat, k: nat)
    requires st.ip < |ops| && ops[st.ip] == CheckArrayItems
    requires Within(root, st, frames, ArrayFrame(0, start), v)
    requires |Elements(v)| == 0
    requires target < |ops| && Scan(ops, st.ip + 1, 0, true) == target
    ensures Run(mode, root, ops, st, k + 1) == Run(mode, root, ops, State(target, st.frames, st.path, st.issues), k)
  {
    StepItemsSkip(mode, root, ops, st, frames, v, start);
    RunItemsOp(mode, root, ops, st, k);
  }

  /** `ExitArray` before the last element: back to `CheckArrayItems` with the next index. */
  lemma RunOnExitArrayNext(mode: Mode, root: Json, ops: seq<Op>, st: State, frames: seq<Frame>,
                           v: Json, idx: nat, start: nat, k: nat)
    requires st.ip < |ops| && ops[st.ip] == ExitArray
    requires Within(root, st, frames, ArrayFrame(idx, start), v)
    requires idx + 1 < |Elements(v)|
    ensures Run(mode, root, ops, st, k + 1) ==
      Run(mode, root, ops, State(start, frames + [ArrayFrame(idx + 1, start)], Pop(st.path), st.issues), k)
  {
    StepExitArrayNext(root, st, frames, v, idx, start);
    RunExitArrayOp(mode, root, ops, st, k);
  }

  /** `ExitArray` after the last element (or on an empty array): the frame is popped. */
  lemma RunOnExitArrayLast(mode: Mode, root: Json, ops: seq<Op>, st: State, frames: seq<Frame>,
                           v: Json, idx: nat, start: nat, k: nat)
    requires st.ip < |ops| && ops[st.ip] == ExitArray
    requires Within(root, st, frames, ArrayFrame(idx, start), v)
    requires idx + 1 >= |Elements(v)|
    ensures Run(mode, root, ops, st, k + 1) ==
      Run(mode, root, ops, State(st.ip + 1, frames, if idx < |Elements(v)| then Pop(st.path) else st.path, st.issues), k)
  {
    StepExitArrayLast(root, st, frames, v, idx, start);
    RunExitArrayOp(mode, root, ops, st, k);
  }

  /** A run of checks records, in order, the issue of each check the focused value fails. */
  lemma RunChecks(mode: Mode, root: Json, ops: seq<Op>, st: State, checks: seq<Check>, v: Json)
    requires At(ops, st.ip, checks) && Focus(root, st.frames) == Some(v)
    ensures Run(mode, root, ops, st, |checks|) ==
      State(st.ip + |checks|, st.frames, st.path, st.issues + EvalChecks(mode, checks, v, st.path))
  {
    RunChecksFrom(mode, root, ops, st, st.ip, checks, 0, v);
  }

  /** The checks from index `i` on, run from the operation that holds check `i`. */
  lemma {:induction false} RunChecksFrom(mode: Mode, root: Json, ops: seq<Op>, st: State, j: nat, checks: seq<Check>, i: nat, v: Json)
    requires At(ops, j, checks) && i <= |checks| && st.ip == j + i && Focus(root, st.frames) == Some(v)
    ensures Run(mode, root, ops, st, |checks| - i) ==
      State(j + |checks|, st.frames, st.path, st.issues + EvalChecksFrom(mode, checks, i, v, st.path))
    decreases |checks| - i
  {
    if i == |checks| {
      RunZero(mode, root, ops, st);
    } else {
      assert ops[Offset(j, i)] == checks[i];
      var issue := CheckIssues(mode, checks[i], Some(v), st.path);
      var next := State(st.ip + 1, st.frames, st.path, st.issues + issue);
      RunOnCheck(mode, root, ops, st, v, |checks| - i - 1);
      RunChecksFrom(mode, root, ops, next, j, checks, i + 1, v);
      IssuesRegroup(st.issues, issue, EvalChecksFrom(mode, checks, i + 1, v, st.path));
    }
  }

  /**
   * A compiled node, run from its first operation with `v` in focus, takes
   * `Cost(n, v)` iterations and ends just after its last operation with the
   * frames it started with, the issues of `EvalNode` appended and the path
   * stack `EvalNode` leaves.
   */
  lemma {:induction false} RunNode(mode: Mode, root: Json, ops: seq<Op>, st: State, n: Node, v: Json)
    requires At(ops, st.ip, Encode(n)) && Focus(root, st.frames) == Some(v)
    ensures var r := EvalNode(mode, n, v, st.path);
      Run(mode, root, ops, st, Cost(n, v)) ==
      State(st.ip + |Encode(n)|, st.frames, r.path, st.issues + r.issues)
    decreases n, 3
  {
    AtEncode(ops, st.ip, n);
    var obj := EvalObject(mode, n, v, st.path);
    var arr := EvalArray(mode, n, v, obj.path);
    var c1 := EvalChecks(mode, n.checks, v, st.path);
    var c2 := EvalChecks(mode, n.itemChecks, v, obj.path);
    var mid := State(st.ip + |n.checks| + |ObjectBlock(n)|, st.frames, obj.path, st.issues + c1 + obj.issues);
    RunNodeFront(mode, root, ops, st, n, v);
    RunNodeBack(mode, root, ops, mid, n, v);
    RunThen(mode, root, ops, st, |n.checks| + ObjectCost(n, v), mid, |n.itemChecks| + ArrayCost(n, v));
    assert Cost(n, v) == (|n.checks| + ObjectCost(n, v)) + (|n.itemChecks| + ArrayCost(n, v));
    var out := State(mid.ip + |n.itemChecks| + |ArrayBlock(n)|, st.frames, arr.path, mid.issues + c2 + arr.issues);
    assert Run(mode, root, ops, st, Cost(n, v)) == out;
    var r := EvalNode(mode, n, v, st.path);
    assert r == Outcome(((c1 + obj.issues) + c2) + arr.issues, arr.path);
    IssuesRegroup4(st.issues, c1, obj.issues, c2, arr.issues);
    assert out.ip == st.ip + |Encode(n)|;
  }

  /** A node's checks, then its object block. */
  lemma {:induction false} RunNodeFront(mode: Mode, root: Json, ops: seq<Op>, st: State, n: Node, v: Json)
    requires At(ops, st.ip, n.checks) && At(ops, st.ip + |n.checks|, ObjectBlock(n))
    requires Focus(root, st.frames) == Some(v)
    ensures var obj := EvalObject(mode, n, v, st.path);
      Run(mode, root, ops, st, |n.checks| + ObjectCost(n, v)) ==
      State(st.ip + |n.checks| + |ObjectBlock(n)|, st.frames, obj.path,
            st.issues + EvalChecks(mode, n.checks, v, st.path) + obj.issues)
    decreases n, 2
  {
    var st1 := State(st.ip + |n.checks|, st.frames, st.path, st.issues + EvalChecks(mode, n.checks, v, st.path));
    RunChecks(mode, root, ops, st, n.checks, v);
    RunObject(mode, root, ops, st1, n, v);
    RunAdd(mode, root, ops, st, |n.checks|, ObjectCost(n, v));
  }

  /** A node's item-count checks, then its array block. */
  lemma {:induction false} RunNodeBack(mode: Mode, root: Json, ops: seq<Op>, st: State, n: Node, v: Json)
    requires At(ops, st.ip, n.itemChecks) && At(ops, st.ip + |n.itemChecks|, ArrayBlock(n))
    requires Focus(root, st.frames) == Some(v)
    ensures var arr := EvalArray(mode, n, v, st.path);
      Run(mode, root, ops, st, |n.itemChecks| + ArrayCost(n, v)) ==
      State(st.ip + |n.itemChecks| + |ArrayBlock(n)|, st.frames, arr.path,
            st.issues + EvalChecks(mode, n.itemChecks, v, st.path) + arr.issues)
    decreases n, 2
  {
    var st1 := State(st.ip + |n.itemChecks|, st.frames, st.path, st.issues + EvalChecks(mode, n.itemChecks, v, st.path));
    RunChecks(mode, root, ops, st, n.itemChecks, v);
    RunArray(mode, root, ops, st1, n, v);
    RunAdd(mode, root, ops, st, |n.itemChecks|, ArrayCost(n, v));
  }

  /** An object block: enter, the properties, exit. */
  lemma {:induction false} RunObject(mode: Mode, root: Json, ops: seq<Op>, st: State, n: Node, v: Json)
    requires At(ops, st.ip, ObjectBlock(n)) && Focus(root, st.frames) == Some(v)
    ensures var r := EvalObject(mode, n, v, st.path);
      Run(mode, root, ops, st, ObjectCost(n, v)) ==
      State(st.ip + |ObjectBlock(n)|, st.frames, r.path, st.issues + r.issues)
    decreases n, 1
  {
    match n.properties
    case NoProperties =>
      RunZero(mode, root, ops, st);
    case Properties(ps) =>
      AtObjectBlock(ops, st.ip, n, ps);
      var r := EvalProps(mode, n, ps, 0, v, None, st.path);
      var inner := State(st.ip + 1, st.frames + [ObjectFrame(None)], st.path, st.issues);
      var atExit := State(st.ip + 1 + |PropsOps(n, ps, 0)|, st.frames + [ObjectFrame(r.key)], r.path, st.issues + r.issues);
      var out := State(atExit.ip + 1, st.frames, if r.key.Some? then Pop(r.path) else r.path, atExit.issues);
      var cost := PropsCost(n, ps, 0, v);
      assert ObjectCost(n, v) == (cost + 1) + 1;
      RunOnEnterObject(mode, root, ops, st, cost + 1);
      FocusObjectNone(root, st.frames, v);
      RunProps(mode, root, ops, inner, st.frames, n, ps, 0, v, None);
      RunThen(mode, root, ops, inner, cost, atExit, 1);
      RunOnExitObject(mode, root, ops, atExit, st.frames, r.key, 0);
      RunZero(mode, root, ops, out);
  }

  /**
   * Properties `i..` of an object block, run with the object frame at
   * property `key`: each property's check and, unless it was skipped, its
   * schema; the run stops at the block's `ExitObject` with the object frame
   * at the property `EvalProps` reports.
   */
  lemma {:induction false} RunProps(mode: Mode, root: Json, ops: seq<Op>, st: State, frames: seq<Frame>,
                                    n: Node, ps: seq<Prop>, i: nat, v: Json, key: Option<string>)
    requires InProps(root, ops, st, frames, n, ps, i, v, key)
    ensures var r := EvalProps(mode, n, ps, i, v, key, st.path);
      Run(mode, root, ops, st, PropsCost(n, ps, i, v)) ==
      State(st.ip + |PropsOps(n, ps, i)|, frames + [ObjectFrame(r.key)], r.path, st.issues + r.issues)
    decreases n, 0, |ps| - i, 2
  {
    if i == |ps| {
      RunZero(mode, root, ops, st);
    } else if !v.Obj? {
      RunPropOfNonObject(mode, root, ops, st, frames, n, ps, i, v, key);
    } else if HasKey(v.fields, ps[i].key) {
      RunPresentProp(mode, root, ops, st, frames, n, ps, i, v, key);
    } else {
      RunAbsentProp(mode, root, ops, st, frames, n, ps, i, v, key);
    }
  }

  /** A property of a value that is not an object: its schema runs on the value itself. */
  lemma {:induction false} RunPropOfNonObject(mode: Mode, root: Json, ops: seq<Op>, st: State, frames: seq<Frame>,
                                              n: Node, ps: seq<Prop>, i: nat, v: Json, key: Option<string>)
    requires InProps(root, ops, st, frames, n, ps, i, v, key) && i < |ps| && !v.Obj?
    ensures var r := EvalProps(mode, n, ps, i, v, key, st.path);
      Run(mode, root, ops, st, PropsCost(n, ps, i, v)) ==
      State(st.ip + |PropsOps(n, ps, i)|, frames + [ObjectFrame(r.key)], r.path, st.issues + r.issues)
    decreases n, 0, |ps| - i, 1
  {
    var schema := ps[i].schema;
    var sub := EvalNode(mode, schema, v, if key.Some? then Pop(st.path) else st.path);
    var next := State(st.ip + 1 + |Encode(schema)|, frames + [ObjectFrame(None)], sub.path, st.issues + sub.issues);
    var rest := EvalProps(mode, n, ps, i + 1, v, None, sub.path);
    var restCost := PropsCost(n, ps, i + 1, v);
    assert PropsCost(n, ps, i, v) == (Cost(schema, v) + restCost) + 1;
    assert EvalProps(mode, n, ps, i, v, key, st.path) == PropsOutcome(sub.issues + rest.issues, rest.path, rest.key);
    AtProperty(ops, st.ip, n, ps, i);
    RunNonObjectHead(mode, root, ops, st, frames, key, v, schema, restCost);
    PropsNext(root, ops, st, frames, n, ps, i, v, key, next, None);
    RunProps(mode, root, ops, next, frames, n, ps, i + 1, v, None);
    IssuesRegroup(st.issues, sub.issues, rest.issues);
  }

  /** `CheckProperty` on a value that is not an object, then the property's schema on that value. */
  lemma RunNonObjectHead(mode: Mode, root: Json, ops: seq<Op>, st: State, frames: seq<Frame>,
                         key: Option<string>, v: Json, schema: Node, more: nat)
    requires st.ip < |ops| && ops[st.ip].CheckProperty? && At(ops, st.ip + 1, Encode(schema))
    requires Within(root, st, frames, ObjectFrame(key), v) && !v.Obj?
    ensures var sub := EvalNode(mode, schema, v, if key.Some? then Pop(st.path) else st.path);
      Run(mode, root, ops, st, (Cost(schema, v) + more) + 1) ==
      Run(mode, root, ops, State(st.ip + 1 + |Encode(schema)|, frames + [ObjectFrame(None)], sub.path, st.issues + sub.issues), more)
    decreases schema, 5
  {
    var entered := State(st.ip + 1, frames + [ObjectFrame(None)], if key.Some? then Pop(st.path) else st.path, st.issues);
    RunOnPropertyOfNonObject(mode, root, ops, st, frames, key, v, Cost(schema, v) + more);
    FocusObjectNone(root, frames, v);
    RunInto(mode, root, ops, st, entered, schema, v, more);
  }

  /** A property present in the object: it is entered and its schema runs on its value. */
  lemma {:induction false} RunPresentProp(mode: Mode, root: Json, ops: seq<Op>, st: State, frames: seq<Frame>,
                                          n: Node, ps: seq<Prop>, i: nat, v: Json, key: Option<string>)
    requires InProps(root, ops, st, frames, n, ps, i, v, key) && i < |ps| && v.Obj? && HasKey(v.fields, ps[i].key)
    ensures var r := EvalProps(mode, n, ps, i, v, key, st.path);
      Run(mode, root, ops, st, PropsCost(n, ps, i, v)) ==
      State(st.ip + |PropsOps(n, ps, i)|, frames + [ObjectFrame(r.key)], r.path, st.issues + r.issues)
    decreases n, 0, |ps| - i, 1
  {
    var k := ps[i].key;
    var schema := ps[i].schema;
    var value := Get(v.fields, k).value;
    var sub := EvalNode(mode, schema, value, (if key.Some? then Pop(st.path) else st.path) + [Key(k)]);
    var next := State(st.ip + 1 + |Encode(schema)|, frames + [ObjectFrame(Some(k))], sub.path, st.issues + sub.issues);
    var rest := EvalProps(mode, n, ps, i + 1, v, Some(k), sub.path);
    var restCost := PropsCost(n, ps, i + 1, v);
    assert PropsCost(n, ps, i, v) == (Cost(schema, value) + restCost) + 1;
    assert EvalProps(mode, n, ps, i, v, key, st.path) == PropsOutcome(sub.issues + rest.issues, rest.path, rest.key);
    AtProperty(ops, st.ip, n, ps, i);
    RunPresentHead(mode, root, ops, st, frames, key, v, k, ps[i].required, schema, value, restCost);
    PropsNext(root, ops, st, frames, n, ps, i, v, key, next, Some(k));
    RunProps(mode, root, ops, next, frames, n, ps, i + 1, v, Some(k));
    IssuesRegroup(st.issues, sub.issues, rest.issues);
  }

  /** `CheckProperty` of a present property, then the property's schema on its value. */
  lemma RunPresentHead(mode: Mode, root: Json, ops: seq<Op>, st: State, frames: seq<Frame>,
                       key: Option<string>, v: Json, k: string, required: bool, schema: Node, value: Json, more: nat)
    requires st.ip < |ops| && ops[st.ip] == CheckProperty(k, required) && At(ops, st.ip + 1, Encode(schema))
    requires Within(root, st, frames, ObjectFrame(key), v) && v.Obj? && Get(v.fields, k) == Some(value)
    ensures var sub := EvalNode(mode, schema, value, (if key.Some? then Pop(st.path) else st.path) + [Key(k)]);
      Run(mode, root, ops, st, (Cost(schema, value) + more) + 1) ==
      Run(mode, root, ops, State(st.ip + 1 + |Encode(schema)|, frames + [ObjectFrame(Some(k))], sub.path, st.issues + sub.issues), more)
    decreases schema, 5
  {
    var entered := State(st.ip + 1, frames + [ObjectFrame(Some(k))], (if key.Some? then Pop(st.path) else st.path) + [Key(k)], st.issues);
    RunOnPresentProperty(mode, root, ops, st, frames, key, v, Cost(schema, value) + more);
    FocusPush(root, frames, ObjectFrame(Some(k)));
    RunInto(mode, root, ops, st, entered, schema, value, more);
  }

  /**
   * Once a step has entered a node with `value` in focus, the node runs to
   * its end: the machine is just after its last operation with the issues
   * and the path stack of `EvalNode`.
   */
  lemma RunInto(mode: Mode, root: Json, ops: seq<Op>, st: State, entered: State, schema: Node, value: Json, more: nat)
    requires At(ops, entered.ip, Encode(schema)) && Focus(root, entered.frames) == Some(value)
    requires Run(mode, root, ops, st, (Cost(schema, value) + more) + 1) ==
      Run(mode, root, ops, entered, Cost(schema, value) + more)
    ensures var sub := EvalNode(mode, schema, value, entered.path);
      Run(mode, root, ops, st, (Cost(schema, value) + more) + 1) ==
      Run(mode, root, ops, State(entered.ip + |Encode(schema)|, entered.frames, sub.path, entered.issues + sub.issues), more)
    decreases schema, 4
  {
    var sub := EvalNode(mode, schema, value, entered.path);
    RunNode(mode, root, ops, entered, schema, value);
    RunThen(mode, root, ops, entered, Cost(schema, value),
            State(entered.ip + |Encode(schema)|, entered.frames, sub.path, entered.issues + sub.issues), more);
  }

  /** A property absent from the object: the issue when it is required, and its schema is skipped. */
  lemma {:induction false} RunAbsentProp(mode: Mode, root: Json, ops: seq<Op>, st: State, frames: seq<Frame>,
                                         n: Node, ps: seq<Prop>, i: nat, v: Json, key: Option<string>)
    requires InProps(root, ops, st, frames, n, ps, i, v, key) && i < |ps| && v.Obj? && !HasKey(v.fields, ps[i].key)
    ensures var r := EvalProps(mode, n, ps, i, v, key, st.path);
      Run(mode, root, ops, st, PropsCost(n, ps, i, v)) ==
      State(st.ip + |PropsOps(n, ps, i)|, frames + [ObjectFrame(r.key)], r.path, st.issues + r.issues)
    decreases n, 0, |ps| - i, 1
  {
    AtProperty(ops, st.ip, n, ps, i);
    PropsSkipTarget(ops, st.ip, n, ps, i);
    var k := ps[i].key;
    var left := if key.Some? then Pop(st.path) else st.path;
    var missing := if ps[i].required then [Fault(MissingProperty(k), left)] else [];
    var next := State(st.ip + 1 + |Encode(ps[i].schema)|, frames + [ObjectFrame(None)], left, st.issues + missing);
    var rest := EvalProps(mode, n, ps, i + 1, v, None, left);
    var restCost := PropsCost(n, ps, i + 1, v);
    assert PropsCost(n, ps, i, v) == restCost + 1;
    assert EvalProps(mode, n, ps, i, v, key, st.path) == PropsOutcome(missing + rest.issues, rest.path, rest.key);
    PropsNext(root, ops, st, frames, n, ps, i, v, key, next, None);
    RunOnAbsentProperty(mode, root, ops, st, frames, key, v, next.ip, restCost);
    RunProps(mode, root, ops, next, frames, n, ps, i + 1, v, None);
    IssuesRegroup(st.issues, missing, rest.issues);
  }

  /**
   * The skip for an absent property lands on the next property's check, or
   * on the block's `ExitObject` after the last property.
   */
  lemma PropsSkipTarget(ops: seq<Op>, j: nat, n: Node, ps: seq<Prop>, i: nat)
    requires n.properties == Properties(ps) && i < |ps|
    requires At(ops, j, PropsOps(n, ps, i))
    requires j + |PropsOps(n, ps, i)| < |ops| && ops[j + |PropsOps(n, ps, i)|] == ExitObject
    ensures j + 1 + |Encode(ps[i].schema)| < |ops|
    ensures Scan(ops, j + 1, 0, false) == j + 1 + |Encode(ps[i].schema)|
  {
    AtProperty(ops, j, n, ps, i);
    var after := j + 1 + |Encode(ps[i].schema)|;
    ScanEncode(ops, j + 1, 0, false, ps[i].schema);
    if i + 1 < |ps| {
      AtProperty(ops, after, n, ps, i + 1);
    } else {
      assert PropsOps(n, ps, i + 1) == [];
    }
    assert ScanStep(ops[after], 0, false).None?;
  }

  /** An array block: enter, then either each element in turn or a skip to the exit. */
  lemma {:induction false} RunArray(mode: Mode, root: Json, ops: seq<Op>, st: State, n: Node, v: Json)
    requires At(ops, st.ip, ArrayBlock(n)) && Focus(root, st.frames) == Some(v)
    ensures var r := EvalArray(mode, n, v, st.path);
      Run(mode, root, ops, st, ArrayCost(n, v)) ==
      State(st.ip + |ArrayBlock(n)|, st.frames, r.path, st.issues + r.issues)
    decreases n, 1
  {
    match n.items
    case None =>
      RunZero(mode, root, ops, st);
    case Some(item) =>
      AtArrayBlock(ops, st.ip, n, item);
      var start := st.ip + 1;
      var inner := State(start, st.frames + [ArrayFrame(0, start)], st.path, st.issues);
      if |Elements(v)| == 0 {
        assert ArrayCost(n, v) == 2 + 1;
        assert EvalArray(mode, n, v, st.path) == Outcome([], st.path);
        RunOnEnterArray(mode, root, ops, st, 2);
        RunNoItems(mode, root, ops, inner, st.frames, n, item, v);
        assert st.issues + [] == st.issues;
      } else {
        var cost := ItemsCost(n, item, Elements(v), 0);
        assert ArrayCost(n, v) == cost + 1;
        assert EvalArray(mode, n, v, st.path) == EvalItems(mode, n, item, Elements(v), 0, st.path);
        RunOnEnterArray(mode, root, ops, st, cost);
        RunItems(mode, root, ops, inner, st.frames, n, item, v, 0, start);
      }
  }

  /** The skip for an array with no elements left lands on the block's `ExitArray`. */
  lemma ItemsSkipTarget(ops: seq<Op>, j: nat, n: Node, item: Node)
    requires n.items == Some(item) && At(ops, j, ArrayBlock(n))
    ensures j + 2 + |Encode(item)| < |ops|
    ensures Scan(ops, j + 2, 0, true) == j + 2 + |Encode(item)|
  {
    AtArrayBlock(ops, j, n, item);
    ScanEncode(ops, j + 2, 0, true, item);
    assert ScanStep(ops[j + 2 + |Encode(item)|], 0, true).None?;
  }

  /** An array block on an empty array or a non-array, from its `CheckArrayItems`: a skip to the exit and out. */
  lemma RunNoItems(mode: Mode, root: Json, ops: seq<Op>, st: State, frames: seq<Frame>, n: Node, item: Node, v: Json)
    requires n.items == Some(item) && |Elements(v)| == 0
    requires st.ip > 0 && At(ops, st.ip - 1, ArrayBlock(n))
    requires st.frames == frames + [ArrayFrame(0, st.ip)] && Focus(root, frames) == Some(v)
    ensures Run(mode, root, ops, st, 2) == State(st.ip - 1 + |ArrayBlock(n)|, frames, st.path, st.issues)
  {
    AtArrayBlock(ops, st.ip - 1, n, item);
    ItemsSkipTarget(ops, st.ip - 1, n, item);
    var exit := st.ip + 1 + |Encode(item)|;
    var atExit := State(exit, st.frames, st.path, st.issues);
    var out := State(exit + 1, frames, st.path, st.issues);
    RunOnItemsSkip(mode, root, ops, st, frames, v, st.ip, exit, 1);
    RunOnExitArrayLast(mode, root, ops, atExit, frames, v, 0, st.ip, 0);
    RunZero(mode, root, ops, out);
  }

  /**
   * Elements `idx..` of an array block, from its `CheckArrayItems` (at
   * `start`) with the array frame at `idx`: each element is entered, its item
   * schema run, and the `ExitArray` either rewinds for the next element or,
   * after the last, pops the frame and moves past the block.
   */
  lemma {:induction false} RunItems(mode: Mode, root: Json, ops: seq<Op>, st: State, frames: seq<Frame>,
                                    n: Node, item: Node, v: Json, idx: nat, start: nat)
    requires InItems(root, ops, st, frames, n, item, v, idx, start)
    ensures var r := EvalItems(mode, n, item, Elements(v), idx, st.path);
      Run(mode, root, ops, st, ItemsCost(n, item, Elements(v), idx)) ==
      State(start + 2 + |Encode(item)|, frames, r.path, st.issues + r.issues)
    decreases n, 0, |Elements(v)| - idx, 3
  {
    if idx + 1 < |Elements(v)| {
      RunNextItems(mode, root, ops, st, frames, n, item, v, idx, start);
    } else {
      RunLastItem(mode, root, ops, st, frames, n, item, v, idx, start);
    }
  }

  /** An element before the last: the element, the rewind, and the elements after it. */
  lemma {:induction false} RunNextItems(mode: Mode, root: Json, ops: seq<Op>, st: State, frames: seq<Frame>,
                                        n: Node, item: Node, v: Json, idx: nat, start: nat)
    requires InItems(root, ops, st, frames, n, item, v, idx, start) && idx + 1 < |Elements(v)|
    ensures var r := EvalItems(mode, n, item, Elements(v), idx, st.path);
      Run(mode, root, ops, st, ItemsCost(n, item, Elements(v), idx)) ==
      State(start + 2 + |Encode(item)|, frames, r.path, st.issues + r.issues)
    decreases n, 0, |Elements(v)| - idx, 2
  {
    var xs := Elements(v);
    var sub := EvalNode(mode, item, xs[idx], (if idx > 0 then Pop(st.path) else st.path) + [Index(idx)]);
    var rest := EvalItems(mode, n, item, xs, idx + 1, Pop(sub.path));
    EvalItemsNext(mode, n, item, xs, idx, st.path);
    RunElementAndRest(mode, root, ops, st, frames, n, item, v, idx, start);
    IssuesRegroup(st.issues, sub.issues, rest.issues);
  }

  /** An element before the last and its rewind, then the elements after it, with the issues in run order. */
  lemma {:induction false} RunElementAndRest(mode: Mode, root: Json, ops: seq<Op>, st: State, frames: seq<Frame>,
                                             n: Node, item: Node, v: Json, idx: nat, start: nat)
    requires InItems(root, ops, st, frames, n, item, v, idx, start) && idx + 1 < |Elements(v)|
    ensures var sub := EvalNode(mode, item, Elements(v)[idx], (if idx > 0 then Pop(st.path) else st.path) + [Index(idx)]);
      var rest := EvalItems(mode, n, item, Elements(v), idx + 1, Pop(sub.path));
      Run(mode, root, ops, st, (Cost(item, Elements(v)[idx]) + (ItemsCost(n, item, Elements(v), idx + 1) + 1)) + 1) ==
      State(start + 2 + |Encode(item)|, frames, rest.path, (st.issues + sub.issues) + rest.issues)
    decreases n, 0, |Elements(v)| - idx, 1
  {
    var xs := Elements(v);
    var sub := EvalNode(mode, item, xs[idx], (if idx > 0 then Pop(st.path) else st.path) + [Index(idx)]);
    var again := State(start, frames + [ArrayFrame(idx + 1, start)], Pop(sub.path), st.issues + sub.issues);
    RunElementRewind(mode, root, ops, st, frames, n, item, v, idx, start, ItemsCost(n, item, xs, idx + 1));
    ItemsNext(root, ops, st, frames, n, item, v, idx, start, again);
    RunItems(mode, root, ops, again, frames, n, item, v, idx + 1, start);
  }

  /** An element before the last, then the `ExitArray` that rewinds to `CheckArrayItems` for the next one. */
  lemma RunElementRewind(mode: Mode, root: Json, ops: seq<Op>, st: State, frames: seq<Frame>,
                         n: Node, item: Node, v: Json, idx: nat, start: nat, more: nat)
    requires InItems(root, ops, st, frames, n, item, v, idx, start) && idx + 1 < |Elements(v)|
    ensures var sub := EvalNode(mode, item, Elements(v)[idx], (if idx > 0 then Pop(st.path) else st.path) + [Index(idx)]);
      Run(mode, root, ops, st, (Cost(item, Elements(v)[idx]) + (more + 1)) + 1) ==
      Run(mode, root, ops, State(start, frames + [ArrayFrame(idx + 1, start)], Pop(sub.path), st.issues + sub.issues), more)
    decreases n, 0, |Elements(v)| - idx, 0
  {
    ItemsAt(root, ops, st, frames, n, item, v, idx, start);
    var sub := EvalNode(mode, item, Elements(v)[idx], (if idx > 0 then Pop(st.path) else st.path) + [Index(idx)]);
    var atExit := State(st.ip + 1 + |Encode(item)|, st.frames, sub.path, st.issues + sub.issues);
    RunElement(mode, root, ops, st, frames, v, idx, start, item, more + 1);
    RunOnExitArrayNext(mode, root, ops, atExit, frames, v, idx, start, more);
  }

  /** The last element: the element, then the frame is popped and the run moves past the block. */
  lemma {:induction false} RunLastItem(mode: Mode, root: Json, ops: seq<Op>, st: State, frames: seq<Frame>,
                                       n: Node, item: Node, v: Json, idx: nat, start: nat)
    requires InItems(root, ops, st, frames, n, item, v, idx, start) && idx + 1 >= |Elements(v)|
    ensures var r := EvalItems(mode, n, item, Elements(v), idx, st.path);
      Run(mode, root, ops, st, ItemsCost(n, item, Elements(v), idx)) ==
      State(start + 2 + |Encode(item)|, frames, r.path, st.issues + r.issues)
    decreases n, 0, |Elements(v)| - idx, 1
  {
    var xs := Elements(v);
    ItemsAt(root, ops, st, frames, n, item, v, idx, start);
    var sub := EvalNode(mode, item, xs[idx], (if idx > 0 then Pop(st.path) else st.path) + [Index(idx)]);
    var atExit := State(st.ip + 1 + |Encode(item)|, st.frames, sub.path, st.issues + sub.issues);
    var out := State(atExit.ip + 1, frames, Pop(sub.path), atExit.issues);
    EvalItemsLast(mode, n, item, xs, idx, st.path);
    assert out.ip == start + 2 + |Encode(item)|;
    RunElement(mode, root, ops, st, frames, v, idx, start, item, 1);
    RunOnExitArrayLast(mode, root, ops, atExit, frames, v, idx, start, 0);
    RunZero(mode, root, ops, out);
  }

  /** `CheckArrayItems` with an element left, then the item schema on that element. */
  lemma RunElement(mode: Mode, root: Json, ops: seq<Op>, st: State, frames: seq<Frame>,
                   v: Json, idx: nat, start: nat, item: Node, more: nat)
    requires st.ip < |ops| && ops[st.ip] == CheckArrayItems && At(ops, st.ip + 1, Encode(item))
    requires Within(root, st, frames, ArrayFrame(idx, start), v) && idx < |Elements(v)|
    ensures var sub := EvalNode(mode, item, Elements(v)[idx], (if idx > 0 then Pop(st.path) else st.path) + [Index(idx)]);
      Run(mode, root, ops, st, (Cost(item, Elements(v)[idx]) + more) + 1) ==
      Run(mode, root, ops, State(st.ip + 1 + |Encode(item)|, st.frames, sub.path, st.issues + sub.issues), more)
    decreases item, 5
  {
    var x := Elements(v)[idx];
    var entered := State(st.ip + 1, st.frames, (if idx > 0 then Pop(st.path) else st.path) + [Index(idx)], st.issues);
    RunOnItemsEnter(mode, root, ops, st, frames, v, idx, start, Cost(item, x) + more);
    ParentLengthPush(root, frames, v, idx, start);
    RunInto(mode, root, ops, st, entered, item, x, more);
  }
}
