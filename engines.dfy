/**
 * The two engines as the loops they are: `execute_compiled`, which collects
 * every issue with its path, and `execute_compiled_bool`, which answers
 * `false` at the first failure. Every iteration of either loop is proved to
 * be one `Step` of the machine, and the whole loop over a compiled schema to
 * end as `EvalNode` says of the schema's node.
 */
module Engines {
  import opened Wrappers
  import opened JsonValues
  import opened Types
  import opened Compiler
  import opened Machine
  import opened Semantics
  import opened Layout
  import opened Correctness

  /** The machine before the first iteration: at operation 0, no contexts, an empty path stack, no issues. */
  const Start := State(0, [], [], [])

  /**
   * A compiled schema run on `root` takes `Cost + 1` iterations (the last one
   * is the `Done`), ends with the instruction pointer at the end of the list
   * and no contexts open, and has recorded exactly the issues of `EvalNode`
   * on the schema's node.
   */
  lemma RunCompiled(mode: Mode, s: Json, root: Json)
    ensures var r := EvalNode(mode, Lower(s), root, []);
      Run(mode, root, Compile(s), Start, Cost(Lower(s), root) + 1) == State(|Compile(s)|, [], r.path, r.issues)
  {
    AtCompiled(s);
    RunWhole(mode, root, Compile(s), Lower(s));
  }

  /** A list that holds a node's operations from index 0 and then a `Done`, run on `root`. */
  lemma RunWhole(mode: Mode, root: Json, ops: seq<Op>, n: Node)
    requires At(ops, 0, Encode(n)) && |ops| == |Encode(n)| + 1 && ops[|Encode(n)|] == Done
    ensures var r := EvalNode(mode, n, root, []);
      Run(mode, root, ops, Start, Cost(n, root) + 1) == State(|ops|, [], r.path, r.issues)
  {
    RunNode(mode, root, ops, Start, n, root);
    var r := EvalNode(mode, n, root, []);
    assert [] + r.issues == r.issues;
    var mid := State(|Encode(n)|, [], r.path, r.issues);
    RunThen(mode, root, ops, Start, Cost(n, root), mid, 1);
    RunOne(mode, root, ops, mid);
  }

  /** The iteration after the first `k`, when they have not left the list. */
  lemma RunSnoc(mode: Mode, root: Json, ops: seq<Op>, st: State, k: nat)
    requires Run(mode, root, ops, st, k).ip < |ops|
    ensures Run(mode, root, ops, st, k + 1) == Step(mode, root, ops, Run(mode, root, ops, st, k))
  {
    RunAdd(mode, root, ops, st, k, 1);
    RunOne(mode, root, ops, Run(mode, root, ops, st, k));
  }

  /** Once the first `k` iterations have left the list, any number beyond them ends in the same state. */
  lemma RunSettled(mode: Mode, root: Json, ops: seq<Op>, st: State, k: nat, total: nat)
    requires k <= total && Run(mode, root, ops, st, k).ip >= |ops|
    ensures Run(mode, root, ops, st, total) == Run(mode, root, ops, st, k)
  {
    RunAdd(mode, root, ops, st, k, total - k);
    RunStopped(mode, root, ops, Run(mode, root, ops, st, k), total - k);
  }

  /** Iterations that have not left the list are fewer than any number that has. */
  lemma RunBeforeEnd(mode: Mode, root: Json, ops: seq<Op>, st: State, k: nat, total: nat)
    requires k <= total && Run(mode, root, ops, st, k).ip < |ops| && Run(mode, root, ops, st, total).ip >= |ops|
    ensures k < total
  {
  }

  /** An issue recorded in the first `k` iterations is still recorded after any number beyond them. */
  lemma IssueStays(mode: Mode, root: Json, ops: seq<Op>, st: State, k: nat, total: nat)
    requires k <= total && Run(mode, root, ops, st, k).issues != []
    ensures Run(mode, root, ops, st, total).issues != []
  {
    RunAdd(mode, root, ops, st, k, total - k);
    RunKeepsIssues(mode, root, ops, Run(mode, root, ops, st, k), total - k);
  }

  /** Once the walk along the contexts falls off the value, the rest of the contexts cannot bring it back. */
  lemma {:induction false} FocusGone(root: Json, frames: seq<Frame>, i: nat)
    requires i <= |frames| && Focus(root, frames[..i]) == None
    ensures Focus(root, frames) == None
    decreases |frames| - i
  {
    if i < |frames| {
      assert frames[..i + 1][..i] == frames[..i];
      FocusGone(root, frames, i + 1);
    } else {
      assert frames[..i] == frames;
    }
  }

  /** `get_current_value`: the value the contexts lead to from the root, `None` as soon as one leads nowhere. */
  method CurrentValue(root: Json, contexts: seq<Frame>) returns (r: Option<Json>)
    ensures r == Focus(root, contexts)
  {
    var current := root;
    for i := 0 to |contexts|
      invariant Focus(root, contexts[..i]) == Some(current)
    {
      assert contexts[..i + 1][..i] == contexts[..i];
      match contexts[i]
      case ObjectFrame(key) =>
        if key.Some? {
          if !current.Obj? || !HasKey(current.fields, key.value) {
            FocusGone(root, contexts, i + 1);
            return None;
          }
          current := Get(current.fields, key.value).value;
        }
      case ArrayFrame(index, _) =>
        if !current.Arr? || index >= |current.items| {
          FocusGone(root, contexts, i + 1);
          return None;
        }
        current := current.items[index];
    }
    assert contexts[..|contexts|] == contexts;
    r := Some(current);
  }

  /** The length of the array the contexts below the innermost lead to (`take(len - 1)`), or 0 when that is no array. */
  method ArrayLength(root: Json, contexts: seq<Frame>) returns (len: nat)
    ensures len == ParentLength(root, contexts)
  {
    var parent := contexts[..if |contexts| > 0 then |contexts| - 1 else 0];
    var v := CurrentValue(root, parent);
    len := if v.Some? && v.value.Arr? then |v.value.items| else 0;
  }

  /**
   * The absent-property skip issued at `ip`: from the next operation,
   * counting object and array brackets, up to the next `CheckProperty` at
   * depth 0 or the exit that closes the level. The result is where the
   * instruction pointer is left, one before the stop (the loop then steps
   * onto it), or the end of the list when nothing stops the scan.
   */
  method SkipProperty(ops: seq<Op>, ip: nat) returns (last: nat)
    requires ip < |ops|
    ensures last + 1 == SkipTarget(ops, ip, false)
  {
    var depth: nat := 0;
    var i := ip + 1;
    while i < |ops|
      invariant ip + 1 <= i <= |ops|
      invariant Scan(ops, i, depth, false) == Scan(ops, ip + 1, 0, false)
      decreases |ops| - i
    {
      var op := ops[i];
      if op.EnterObject? || op.EnterArray? {
        depth := depth + 1;
      } else if op.ExitObject? || op.ExitArray? {
        if depth == 0 {
          i := i - 1;
          break;
        }
        depth := depth - 1;
      } else if op.CheckProperty? && depth == 0 {
        i := i - 1;
        break;
      }
      i := i + 1;
    }
    last := i;
  }

  /**
   * The no-more-items skip issued at `ip`: from the next operation,
   * counting array brackets from 1, up to the `ExitArray` that brings the
   * count to 0. The result is one before it, or the end of the list.
   */
  method SkipItems(ops: seq<Op>, ip: nat) returns (last: nat)
    requires ip < |ops|
    ensures last + 1 == SkipTarget(ops, ip, true)
  {
    var depth: nat := 1;
    var i := ip + 1;
    while i < |ops|
      invariant ip + 1 <= i <= |ops| && depth >= 1
      invariant Scan(ops, i, depth - 1, true) == Scan(ops, ip + 1, 0, true)
      decreases |ops| - i
    {
      var op := ops[i];
      if op.EnterArray? {
        depth := depth + 1;
      } else if op.ExitArray? {
        depth := depth - 1;
        if depth == 0 {
          i := i - 1;
          break;
        }
      }
      i := i + 1;
    }
    last := i;
  }

  /**
   * `execute_compiled`: the loop, one `Step` per iteration, over an operation
   * list whose run has left the list within `total` iterations (for a
   * compiled schema, `RunCompiled` gives that number). The result is
   * `Success` of the value itself when the run records no fault, and
   * otherwise `Failure` with the issue of each fault, in the order the run
   * recorded them.
   */
  method ExecuteCompiled(root: Json, ops: seq<Op>, ghost total: nat) returns (r: ValidationResult<Json>)
    requires Run(Full, root, ops, Start, total).ip >= |ops|
    ensures var faults := Run(Full, root, ops, Start, total).issues;
      (r.Success? <==> faults == []) && (r.Success? ==> r.value == root) && IssuesOf(r) == Reports(faults)
  {
    var issues: seq<Issue> := [];
    var pathStack: Path := [];
    var contexts: seq<Frame> := [];
    var ip: int := 0;
    ghost var st := Start;
    ghost var k: nat := 0;
    while ip < |ops|
      invariant st == Run(Full, root, ops, Start, k) && k <= total
      invariant ip == st.ip && contexts == st.frames && pathStack == st.path && issues == Reports(st.issues)
      decreases total - k
    {
      RunBeforeEnd(Full, root, ops, Start, k, total);
      RunSnoc(Full, root, ops, Start, k);
      if ops[ip] == Done {
        st, k := Step(Full, root, ops, st), k + 1;
        break;
      }
      ip, contexts, pathStack, issues := ExecuteOp(root, ops, ip, contexts, pathStack, issues, st);
      ip := ip + 1;
      st, k := Step(Full, root, ops, st), k + 1;
    }
    RunSettled(Full, root, ops, Start, k, total);
    if |issues| == 0 {
      r := Success(root);
    } else {
      r := Failure(issues);
    }
  }

  /**
   * One operation other than `Done` in `execute_compiled`, from the
   * registers of state `st`; returns them as they are before the loop's
   * final increment of the instruction pointer.
   */
  method ExecuteOp(root: Json, ops: seq<Op>, ip: nat, contexts: seq<Frame>, pathStack: Path, issues: seq<Issue>, ghost st: State)
    returns (ip': int, contexts': seq<Frame>, pathStack': Path, issues': seq<Issue>)
    requires ip < |ops| && ops[ip] != Done
    requires st == State(ip, contexts, pathStack, st.issues) && issues == Reports(st.issues)
    ensures var next := Step(Full, root, ops, st);
      ip' + 1 == next.ip && contexts' == next.frames && pathStack' == next.path && issues' == Reports(next.issues)
  {
    ip', contexts', pathStack', issues' := ip, contexts, pathStack, issues;
    match ops[ip] {
      case EnterObject =>
        contexts' := contexts + [ObjectFrame(None)];
      case CheckProperty(key, required) =>
        var i;
        i, contexts', pathStack', issues' := PropertyFull(root, ops, ip, contexts, pathStack, issues, key, required, st.issues);
        ip' := i;
      case ExitObject =>
        if |contexts| > 0 && contexts[|contexts| - 1].ObjectFrame? && contexts[|contexts| - 1].key.Some? {
          pathStack' := Pop(pathStack);
        }
        contexts' := Pop(contexts);
      case EnterArray =>
        contexts' := contexts + [ArrayFrame(0, ip + 1)];
      case CheckArrayItems =>
        var i;
        i, pathStack' := ItemsFull(root, ops, ip, contexts, pathStack, st.issues);
        ip' := i;
      case ExitArray =>
        ip', contexts', pathStack' := ExitArrayFull(root, ip, contexts, pathStack, st.issues);
      case Done =>
        assert false;
      case _ =>
        var focus := CurrentValue(root, contexts);
        if focus.Some? {
          var why := Violation(Full, ops[ip], focus.value);
          if why.Some? {
            ReportsAppend(st.issues, Fault(why.value, pathStack));
            issues' := issues + [Report(Fault(why.value, pathStack))];
          }
        }
    }
  }

  /** Reporting one more fault appends its issue. */
  lemma ReportsAppend(faults: seq<Fault>, f: Fault)
    ensures Reports(faults + [f]) == Reports(faults) + [Report(f)]
  {
  }

  /**
   * `CheckProperty` in `execute_compiled`: leave the previous property of the
   * innermost object, then enter this one when the focused object has it,
   * or record it when it is required and missing and skip its operations.
   * Returns the registers before the loop's final increment.
   */
  method PropertyFull(root: Json, ops: seq<Op>, ip: nat, contexts: seq<Frame>, pathStack: Path, issues: seq<Issue>,
                      key: string, required: bool, ghost faults: seq<Fault>)
    returns (ip': nat, contexts': seq<Frame>, pathStack': Path, issues': seq<Issue>)
    requires ip < |ops| && issues == Reports(faults)
    ensures var next := StepProperty(root, ops, State(ip, contexts, pathStack, faults), key, required);
      ip' + 1 == next.ip && contexts' == next.frames && pathStack' == next.path && issues' == Reports(next.issues)
  {
    ip', contexts', pathStack', issues' := ip, contexts, pathStack, issues;
    var onObject := |contexts| > 0 && contexts[|contexts| - 1].ObjectFrame?;
    if onObject && contexts[|contexts| - 1].key.Some? {
      pathStack' := Pop(pathStack');
      contexts' := Pop(contexts') + [ObjectFrame(None)];
    }
    assert onObject ==> contexts' == Pop(contexts) + [ObjectFrame(None)];
    var objValue := CurrentValue(root, contexts');
    if objValue.Some? && objValue.value.Obj? {
      if HasKey(objValue.value.fields, key) {
        if onObject {
          contexts' := Pop(contexts') + [ObjectFrame(Some(key))];
        }
        pathStack' := pathStack' + [Key(key)];
      } else {
        if required {
          ReportsAppend(faults, Fault(MissingProperty(key), pathStack'));
          issues' := issues' + [Report(Fault(MissingProperty(key), pathStack'))];
        } else {
          assert faults + [] == faults;
        }
        ip' := SkipProperty(ops, ip);
      }
    }
  }

  /**
   * `CheckArrayItems` in `execute_compiled`: drop the previous element's
   * segment, then enter the current element when the innermost context is
   * an array that has it, or skip to the `ExitArray`.
   */
  method ItemsFull(root: Json, ops: seq<Op>, ip: nat, contexts: seq<Frame>, pathStack: Path, ghost faults: seq<Fault>)
    returns (ip': nat, pathStack': Path)
    requires ip < |ops|
    ensures var next := StepItems(Full, root, ops, State(ip, contexts, pathStack, faults));
      ip' + 1 == next.ip && pathStack' == next.path && next.frames == contexts && next.issues == faults
  {
    var currentIdx: nat := 0;
    var shouldProcess := false;
    if |contexts| > 0 && contexts[|contexts| - 1].ArrayFrame? {
      var len := ArrayLength(root, contexts);
      currentIdx := contexts[|contexts| - 1].index;
      shouldProcess := currentIdx < len;
    }
    pathStack' := pathStack;
    if currentIdx > 0 {
      pathStack' := Pop(pathStack');
    }
    if shouldProcess {
      ip' := ip;
      pathStack' := pathStack' + [Index(currentIdx)];
    } else {
      ip' := SkipItems(ops, ip);
    }
  }

  /**
   * `ExitArray` in `execute_compiled`: drop the element's segment, advance
   * the index, and rewind to the recorded `CheckArrayItems` when elements
   * remain, or pop the context. Returns the instruction pointer before the
   * loop's increment, one before the rewind target (which is -1 for a target
   * of 0, where the source's unsigned subtraction would wrap).
   */
  method ExitArrayFull(root: Json, ip: nat, contexts: seq<Frame>, pathStack: Path, ghost faults: seq<Fault>)
    returns (ip': int, contexts': seq<Frame>, pathStack': Path)
    ensures var next := StepExitArray(root, State(ip, contexts, pathStack, faults));
      ip' + 1 == next.ip && contexts' == next.frames && pathStack' == next.path && next.issues == faults
  {
    ip', contexts', pathStack' := ip, contexts, pathStack;
    if |contexts| > 0 && contexts[|contexts| - 1].ArrayFrame? {
      var len := ArrayLength(root, contexts);
      var top := contexts[|contexts| - 1];
      if top.index < len {
        pathStack' := Pop(pathStack');
      }
      var index := top.index + 1;
      if index < len {
        contexts' := Pop(contexts) + [ArrayFrame(index, top.itemsStart)];
        ip' := top.itemsStart - 1;
      } else {
        contexts' := Pop(contexts);
      }
    } else {
      contexts' := Pop(contexts);
    }
  }

  /**
   * `execute_compiled_bool`: the same loop, with string lengths in bytes,
   * returning `false` at the first check that fails: `true` exactly when the
   * run records no fault.
   */
  method ExecuteCompiledBool(root: Json, ops: seq<Op>, ghost total: nat) returns (valid: bool)
    requires Run(Fast, root, ops, Start, total).ip >= |ops|
    ensures valid <==> Run(Fast, root, ops, Start, total).issues == []
  {
    var contexts: seq<Frame> := [];
    var ip: int := 0;
    ghost var st := Start;
    ghost var k: nat := 0;
    while ip < |ops|
      invariant st == Run(Fast, root, ops, Start, k) && k <= total
      invariant ip == st.ip && contexts == st.frames && st.issues == []
      decreases total - k
    {
      RunBeforeEnd(Fast, root, ops, Start, k, total);
      RunSnoc(Fast, root, ops, Start, k);
      if ops[ip] == Done {
        st, k := Step(Fast, root, ops, st), k + 1;
        break;
      }
      var failed;
      ip, contexts, failed := ExecuteOpBool(root, ops, ip, contexts, st);
      if failed {
        IssueStays(Fast, root, ops, Start, k + 1, total);
        return false;
      }
      ip := ip + 1;
      st, k := Step(Fast, root, ops, st), k + 1;
    }
    RunSettled(Fast, root, ops, Start, k, total);
    valid := true;
  }

  /**
   * One operation other than `Done` in `execute_compiled_bool`, from the
   * registers of state `st`: whether it fails, and otherwise the registers
   * before the loop's final increment.
   */
  method ExecuteOpBool(root: Json, ops: seq<Op>, ip: nat, contexts: seq<Frame>, ghost st: State)
    returns (ip': int, contexts': seq<Frame>, failed: bool)
    requires ip < |ops| && ops[ip] != Done
    requires st == State(ip, contexts, st.path, [])
    ensures var next := Step(Fast, root, ops, st);
      (failed <==> next.issues != []) && (!failed ==> ip' + 1 == next.ip && contexts' == next.frames)
  {
    ip', contexts', failed := ip, contexts, false;
    match ops[ip] {
      case EnterObject =>
        contexts' := contexts + [ObjectFrame(None)];
      case CheckProperty(key, required) =>
        var i;
        i, contexts', failed := PropertyBool(root, ops, ip, contexts, key, required, st.path);
        ip' := i;
      case ExitObject =>
        contexts' := Pop(contexts);
      case EnterArray =>
        contexts' := contexts + [ArrayFrame(0, ip + 1)];
      case CheckArrayItems =>
        var len := ArrayLength(root, contexts);
        var currentIdx := if |contexts| > 0 && contexts[|contexts| - 1].ArrayFrame? then contexts[|contexts| - 1].index else 0;
        if currentIdx >= len {
          ip' := SkipItems(ops, ip);
        }
      case ExitArray =>
        ip', contexts' := ExitArrayBool(root, ip, contexts, st.path);
      case Done =>
        assert false;
      case _ =>
        var focus := CurrentValue(root, contexts);
        if focus.Some? && Violation(Fast, ops[ip], focus.value).Some? {
          failed := true;
        }
    }
  }

  /**
   * `CheckProperty` in `execute_compiled_bool`: as in the full engine, but
   * a missing required property makes it fail, and no path is kept.
   */
  method PropertyBool(root: Json, ops: seq<Op>, ip: nat, contexts: seq<Frame>, key: string, required: bool, ghost path: Path)
    returns (ip': nat, contexts': seq<Frame>, failed: bool)
    requires ip < |ops|
    ensures var next := StepProperty(root, ops, State(ip, contexts, path, []), key, required);
      (failed <==> next.issues != []) && (!failed ==> ip' + 1 == next.ip && contexts' == next.frames)
  {
    ip', contexts', failed := ip, contexts, false;
    var onObject := |contexts| > 0 && contexts[|contexts| - 1].ObjectFrame?;
    if onObject {
      contexts' := Pop(contexts') + [ObjectFrame(None)];
    }
    var objValue := CurrentValue(root, contexts');
    if objValue.Some? && objValue.value.Obj? {
      if HasKey(objValue.value.fields, key) {
        if onObject {
          contexts' := Pop(contexts') + [ObjectFrame(Some(key))];
        }
      } else if required {
        failed := true;
      } else {
        ip' := SkipProperty(ops, ip);
      }
    }
  }

  /** `ExitArray` in `execute_compiled_bool`: as in the full engine, without the path. */
  method ExitArrayBool(root: Json, ip: nat, contexts: seq<Frame>, ghost path: Path)
    returns (ip': int, contexts': seq<Frame>)
    ensures var next := StepExitArray(root, State(ip, contexts, path, []));
      ip' + 1 == next.ip && contexts' == next.frames && next.issues == []
  {
    ip', contexts' := ip, contexts;
    if |contexts| > 0 && contexts[|contexts| - 1].ArrayFrame? {
      var len := ArrayLength(root, contexts);
      var top := contexts[|contexts| - 1];
      var index := top.index + 1;
      if index < len {
        contexts' := Pop(contexts) + [ArrayFrame(index, top.itemsStart)];
        ip' := top.itemsStart - 1;
      } else {
        contexts' := Pop(contexts);
      }
    } else {
      contexts' := Pop(contexts);
    }
  }
}
