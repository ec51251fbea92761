/**
 * The stack machine that runs a compiled schema against a value.
 *
 * Both engines of the source (`execute_compiled`, which collects every issue
 * with its path, and `execute_compiled_bool`, which answers at the first
 * failure) walk the operation list with an instruction pointer and a stack of
 * execution contexts. `Step` is one iteration of their loop; the engines in
 * the `Engines` module are proved to follow it. The two differ only in how a
 * string's length is measured and in one corner of `CheckArrayItems`; where
 * the bool engine keeps no path, the model keeps the path the full engine
 * would (it is ghost state there), and where it returns `false` the model
 * records the issue that made it fail.
 */
module Machine {
  import opened Wrappers
  import opened JsonValues
  import opened Types
  import opened Compiler

  /** `execute_compiled` (every issue, string length in characters) or `execute_compiled_bool` (first failure, length in bytes). */
  datatype Mode = Full | Fast

  /** `ExecutionContext`: inside an object (at its current property, if any) or inside an array (at an element). */
  datatype Frame =
    | ObjectFrame(key: Option<string>)
    | ArrayFrame(index: nat, itemsStart: nat)

  /** One step of `get_current_value`: into the current property, nowhere when none is set, or into the current element. */
  function Enter(cur: Json, f: Frame): Option<Json>
  {
    match f
    case ObjectFrame(None) => Some(cur)
    case ObjectFrame(Some(k)) => if cur.Obj? then Get(cur.fields, k) else None
    case ArrayFrame(i, _) => if cur.Arr? && i < |cur.items| then Some(cur.items[i]) else None
  }

  /** `get_current_value`: the value the frames lead to from the root, or `None` when the walk falls off the value. */
  function Focus(root: Json, frames: seq<Frame>): Option<Json>
    decreases |frames|
  {
    if |frames| == 0 then Some(root)
    else
      match Focus(root, frames[..|frames| - 1])
      case None => None
      case Some(cur) => Enter(cur, frames[|frames| - 1])
  }

  /** `Vec::pop` on a stack whose popped element is not used: the stack without its last element, unchanged when empty. */
  function Pop<T>(s: seq<T>): (r: seq<T>)
    ensures |s| > 0 ==> s == r + [s[|s| - 1]]
    ensures |s| == 0 ==> r == []
  {
    if |s| == 0 then [] else s[..|s| - 1]
  }

  /** The innermost frame, if any. */
  function Top(frames: seq<Frame>): Option<Frame>
  {
    if |frames| == 0 then None else Some(frames[|frames| - 1])
  }

  /**
   * The length of the array the innermost frame walks: the value the other
   * frames lead to (`take(len - 1)`, saturating), when it is an array, else 0.
   */
  function ParentLength(root: Json, frames: seq<Frame>): nat
  {
    match Focus(root, Pop(frames))
    case Some(Arr(xs)) => |xs|
    case _ => 0
  }

  /** The machine's registers: instruction pointer, context stack, `path_stack` and the issues recorded so far. */
  datatype State = State(ip: nat, frames: seq<Frame>, path: Path, issues: seq<Fault>)

  /** The length a string-length check measures: characters (`chars().count()`) or UTF-8 bytes (`len()`). */
  function StrLength(mode: Mode, s: string): nat
  {
    match mode
    case Full => |s|
    case Fast => Utf8Len(s)
  }

  /** Why a value fails: what each of the engines' messages is formatted from. */
  datatype Reason =
    | WrongType(expected: TypeTag, got: Json)
    | BelowMinimum(num: real, bound: real)
    | AboveMaximum(num: real, bound: real)
    | NotAboveExclusiveMinimum(num: real, bound: real)
    | NotBelowExclusiveMaximum(num: real, bound: real)
    | StringTooShort(length: nat, minimum: nat)
    | StringTooLong(length: nat, maximum: nat)
    | TooFewItems(count: nat, minimum: nat)
    | TooManyItems(count: nat, maximum: nat)
    | MissingProperty(key: string)

  /** A recorded issue: why, and the `path_stack` when it was recorded. */
  datatype Fault = Fault(reason: Reason, path: Path)

  /**
   * How `format!("{}", x)` prints an `f64` that holds a whole number: its
   * digits, with no fractional part. Other numbers have no rendering here,
   * since f64 formatting is not modelled.
   */
  function WholeText(x: real): Option<string>
  {
    if x != x.Floor as real then None
    else if x < 0.0 then Some("-" + NatToString(-x.Floor))
    else Some(NatToString(x.Floor))
  }

  /**
   * A bound message, such as `format!("Value {} is less than minimum {}", n, min)`,
   * with the value and the bound when both are whole numbers, and without them
   * otherwise.
   */
  function BoundText(head: string, x: real, middle: string, bound: real): string
  {
    match (WholeText(x), WholeText(bound))
    case (Some(a), Some(b)) => head + " " + a + " " + middle + " " + b
    case _ => head + " " + middle
  }

  /**
   * The text of the message the engines format for a reason. The four bound
   * messages carry the value and the bound when both are whole numbers, and
   * leave them out otherwise.
   */
  function Message(r: Reason): string
  {
    match r
    case WrongType(t, v) => "Expected type " + TagName(t) + ", got " + JsonTypeName(v)
    case BelowMinimum(n, b) => BoundText("Value", n, "is less than minimum", b)
    case AboveMaximum(n, b) => BoundText("Value", n, "is greater than maximum", b)
    case NotAboveExclusiveMinimum(n, b) => BoundText("Value", n, "must be greater than", b)
    case NotBelowExclusiveMaximum(n, b) => BoundText("Value", n, "must be less than", b)
    case StringTooShort(n, m) => "String length " + NatToString(n) + " is less than minimum " + NatToString(m)
    case StringTooLong(n, m) => "String length " + NatToString(n) + " is greater than maximum " + NatToString(m)
    case TooFewItems(n, m) => "Array has " + NatToString(n) + " items, minimum is " + NatToString(m)
    case TooManyItems(n, m) => "Array has " + NatToString(n) + " items, maximum is " + NatToString(m)
    case MissingProperty(k) => "Missing required property '" + k + "'"
  }

  /** The `ValidationIssue` a fault is reported as: its message, at its path. */
  function Report(f: Fault): (r: Issue)
    ensures r.path == Some(f.path)
  {
    Issue(Message(f.reason), Some(f.path))
  }

  /** The issues a list of faults is reported as, in order. */
  function Reports(faults: seq<Fault>): (r: seq<Issue>)
    ensures |r| == |faults|
    ensures forall i :: 0 <= i < |faults| ==> r[i] == Report(faults[i])
  {
    seq(|faults|, i requires 0 <= i < |faults| => Report(faults[i]))
  }

  /** Why a check operation fails on `v`, or `None` when it passes or does not apply to `v`'s kind. */
  function Violation(mode: Mode, op: Op, v: Json): (r: Option<Reason>)
    ensures !IsCheck(op) ==> r.None?
  {
    match op
    case CheckType(t) =>
      if CheckTypeTag(v, t) then None else Some(WrongType(t, v))
    case CheckMinimum(b) =>
      if AsF64(v).Some? && AsF64(v).value < b then Some(BelowMinimum(AsF64(v).value, b)) else None
    case CheckMaximum(b) =>
      if AsF64(v).Some? && AsF64(v).value > b then Some(AboveMaximum(AsF64(v).value, b)) else None
    case CheckExclusiveMinimum(b) =>
      if AsF64(v).Some? && AsF64(v).value <= b then Some(NotAboveExclusiveMinimum(AsF64(v).value, b)) else None
    case CheckExclusiveMaximum(b) =>
      if AsF64(v).Some? && AsF64(v).value >= b then Some(NotBelowExclusiveMaximum(AsF64(v).value, b)) else None
    case CheckMinLength(m) =>
      if v.Str? && StrLength(mode, v.s) < m then Some(StringTooShort(StrLength(mode, v.s), m)) else None
    case CheckMaxLength(m) =>
      if v.Str? && StrLength(mode, v.s) > m then Some(StringTooLong(StrLength(mode, v.s), m)) else None
    case CheckMinItems(m) =>
      if v.Arr? && |v.items| < m then Some(TooFewItems(|v.items|, m)) else None
    case CheckMaxItems(m) =>
      if v.Arr? && |v.items| > m then Some(TooManyItems(|v.items|, m)) else None
    case _ => None
  }

  /** The fault a check operation records at `path` when the focused value fails it; nothing when there is no focused value. */
  function CheckIssues(mode: Mode, op: Op, focus: Option<Json>, path: Path): seq<Fault>
  {
    if focus.Some? && Violation(mode, op, focus.value).Some? then
      [Fault(Violation(mode, op, focus.value).value, path)]
    else []
  }

  /**
   * The forward scans that skip operations. From `j` at bracket depth
   * `depth`, the index of the first operation that stops the scan, or
   * `|ops|` when none does.
   *
   * With `arraysOnly` false this is the absent-property skip: every
   * `EnterObject`/`EnterArray` opens a level and every `ExitObject`/`ExitArray`
   * closes one, and at depth 0 it stops at a `CheckProperty` or at an exit.
   * With `arraysOnly` true this is the no-more-items skip, which counts only
   * array brackets and stops at the `ExitArray` that closes the level it
   * started in (the source counts from 1 and stops on reaching 0; `depth` here
   * is one less).
   */
  function Scan(ops: seq<Op>, j: nat, depth: nat, arraysOnly: bool): (r: nat)
    requires j <= |ops|
    ensures j <= r <= |ops|
    ensures r < |ops| ==> (ops[r].ExitArray? || (!arraysOnly && (ops[r].ExitObject? || ops[r].CheckProperty?)))
    decreases |ops| - j
  {
    if j == |ops| then |ops|
    else
      match ScanStep(ops[j], depth, arraysOnly)
      case None => j
      case Some(next) => Scan(ops, j + 1, next, arraysOnly)
  }

  /** One operation of a scan: `None` when the scan stops at it, otherwise the depth after it. */
  function ScanStep(op: Op, depth: nat, arraysOnly: bool): (r: Option<nat>)
    ensures r.None? ==> op.ExitArray? || (!arraysOnly && (op.ExitObject? || op.CheckProperty?))
  {
    match op
    case EnterArray => Some(depth + 1)
    case ExitArray => if depth == 0 then None else Some(depth - 1)
    case EnterObject => Some(if arraysOnly then depth else depth + 1)
    case ExitObject =>
      if arraysOnly then Some(depth)
      else if depth == 0 then None
      else Some(depth - 1)
    case CheckProperty(_, _) => if !arraysOnly && depth == 0 then None else Some(depth)
    case _ => Some(depth)
  }

  /**
   * Where a skip issued at `ip` resumes: at the operation that stopped the
   * scan (the source steps back one and the loop steps forward one), or one
   * past the end when the scan ran off the list.
   */
  function SkipTarget(ops: seq<Op>, ip: nat, arraysOnly: bool): (r: nat)
    requires ip < |ops|
    ensures ip < r <= |ops| + 1
    ensures r <= |ops| ==> r < |ops|
  {
    var j := Scan(ops, ip + 1, 0, arraysOnly);
    if j < |ops| then j else |ops| + 1
  }

  /** A check operation: record the issue, if the focused value fails it, and move on. */
  function StepCheck(mode: Mode, root: Json, op: Op, st: State): State
  {
    st.(ip := st.ip + 1, issues := st.issues + CheckIssues(mode, op, Focus(root, st.frames), st.path))
  }

  /**
   * `CheckProperty`: leave the previous property of the innermost object
   * (dropping its path segment), then, when the focused value is an object,
   * enter the property if it is present, or record a missing required one and
   * skip the property's operations. When the focused value is not an object
   * nothing else happens and the property's operations run next.
   */
  function StepProperty(root: Json, ops: seq<Op>, st: State, k: string, required: bool): State
    requires st.ip < |ops|
  {
    var onObject := Top(st.frames).Some? && Top(st.frames).value.ObjectFrame?;
    var frames1 := if onObject then Pop(st.frames) + [ObjectFrame(None)] else st.frames;
    var path1 := if onObject && Top(st.frames).value.key.Some? then Pop(st.path) else st.path;
    match Focus(root, frames1)
    case Some(Obj(fields)) =>
      if HasKey(fields, k) then
        var frames2 := if onObject then Pop(st.frames) + [ObjectFrame(Some(k))] else frames1;
        State(st.ip + 1, frames2, path1 + [Key(k)], st.issues)
      else
        var missing := if required then [Fault(MissingProperty(k), path1)] else [];
        State(SkipTarget(ops, st.ip, false), frames1, path1, st.issues + missing)
    case _ => State(st.ip + 1, frames1, path1, st.issues)
  }

  /** `ExitObject`: drop the current property's path segment, if one is set, and pop the frame. */
  function StepExitObject(st: State): State
  {
    var path1 := match Top(st.frames)
      case Some(ObjectFrame(Some(_))) => Pop(st.path)
      case _ => st.path;
    State(st.ip + 1, Pop(st.frames), path1, st.issues)
  }

  /**
   * `CheckArrayItems`: drop the previous element's path segment (after the
   * first element), then either enter the current element or, when the array
   * has no more, skip to the matching `ExitArray`. The full engine never
   * enters an element unless the innermost frame is an array frame; the bool
   * engine then reads index 0 against the parent's length.
   */
  function StepItems(mode: Mode, root: Json, ops: seq<Op>, st: State): State
    requires st.ip < |ops|
  {
    var len := ParentLength(root, st.frames);
    var onArray := Top(st.frames).Some? && Top(st.frames).value.ArrayFrame?;
    var idx := if onArray then Top(st.frames).value.index else 0;
    var enter := (onArray || mode == Fast) && idx < len;
    var path1 := if idx > 0 then Pop(st.path) else st.path;
    if enter then State(st.ip + 1, st.frames, path1 + [Index(idx)], st.issues)
    else State(SkipTarget(ops, st.ip, true), st.frames, path1, st.issues)
  }

  /**
   * `ExitArray`: drop the element's path segment, advance the index, and
   * either rewind to the `CheckArrayItems` the frame records or, after the
   * last element, pop the frame.
   */
  function StepExitArray(root: Json, st: State): State
  {
    match Top(st.frames)
    case Some(ArrayFrame(idx, start)) =>
      var len := ParentLength(root, st.frames);
      var path1 := if idx < len then Pop(st.path) else st.path;
      if idx + 1 < len then State(start, Pop(st.frames) + [ArrayFrame(idx + 1, start)], path1, st.issues)
      else State(st.ip + 1, Pop(st.frames), path1, st.issues)
    case _ => State(st.ip + 1, Pop(st.frames), st.path, st.issues)
  }

  /** One iteration of the engines' loop, on an instruction pointer inside the list. `Done` ends the loop. */
  function Step(mode: Mode, root: Json, ops: seq<Op>, st: State): State
    requires st.ip < |ops|
  {
    match ops[st.ip]
    case EnterObject => st.(ip := st.ip + 1, frames := st.frames + [ObjectFrame(None)])
    case CheckProperty(k, required) => StepProperty(root, ops, st, k, required)
    case ExitObject => StepExitObject(st)
    case EnterArray => st.(ip := st.ip + 1, frames := st.frames + [ArrayFrame(0, st.ip + 1)])
    case CheckArrayItems => StepItems(mode, root, ops, st)
    case ExitArray => StepExitArray(root, st)
    case Done => st.(ip := |ops|)
    case _ => StepCheck(mode, root, ops[st.ip], st)
  }

  /** `k` iterations of the loop, stopping early once the instruction pointer leaves the list. */
  function Run(mode: Mode, root: Json, ops: seq<Op>, st: State, k: nat): State
    decreases k, 2
  {
    if k == 0 then st else Resume(mode, root, ops, st, k)
  }

  /** The loop with iterations left: it has ended once the instruction pointer is outside the list. */
  function Resume(mode: Mode, root: Json, ops: seq<Op>, st: State, k: nat): State
    requires 0 < k
    decreases k, 1
  {
    if st.ip >= |ops| then st else Advance(mode, root, ops, st, k)
  }

  /** One iteration from a state inside the list, then the remaining `k - 1`. */
  function Advance(mode: Mode, root: Json, ops: seq<Op>, st: State, k: nat): State
    requires 0 < k && st.ip < |ops|
    decreases k, 0
  {
    Run(mode, root, ops, Step(mode, root, ops, st), k - 1)
  }

  /** One more iteration, when the loop has not ended. */
  lemma RunStep(mode: Mode, root: Json, ops: seq<Op>, st: State, k: nat)
    requires st.ip < |ops|
    ensures Run(mode, root, ops, st, k + 1) == Run(mode, root, ops, Step(mode, root, ops, st), k)
  {
    assert Run(mode, root, ops, st, k + 1) == Resume(mode, root, ops, st, k + 1);
    assert Resume(mode, root, ops, st, k + 1) == Advance(mode, root, ops, st, k + 1);
  }

  // The first of `k + 1` iterations, one lemma per kind of operation, each naming the part of `Step` it takes.

  lemma RunCheckOp(mode: Mode, root: Json, ops: seq<Op>, st: State, k: nat)
    requires st.ip < |ops| && IsCheck(ops[st.ip])
    ensures Run(mode, root, ops, st, k + 1) == Run(mode, root, ops, StepCheck(mode, root, ops[st.ip], st), k)
  {
    RunStep(mode, root, ops, st, k);
  }

  lemma RunEnterObjectOp(mode: Mode, root: Json, ops: seq<Op>, st: State, k: nat)
    requires st.ip < |ops| && ops[st.ip] == EnterObject
    ensures Run(mode, root, ops, st, k + 1) ==
      Run(mode, root, ops, State(st.ip + 1, st.frames + [ObjectFrame(None)], st.path, st.issues), k)
  {
    RunStep(mode, root, ops, st, k);
  }

  lemma RunPropertyOp(mode: Mode, root: Json, ops: seq<Op>, st: State, k: nat)
    requires st.ip < |ops| && ops[st.ip].CheckProperty?
    ensures Run(mode, root, ops, st, k + 1) ==
      Run(mode, root, ops, StepProperty(root, ops, st, ops[st.ip].key, ops[st.ip].required), k)
  {
    RunStep(mode, root, ops, st, k);
  }

  lemma RunExitObjectOp(mode: Mode, root: Json, ops: seq<Op>, st: State, k: nat)
    requires st.ip < |ops| && ops[st.ip] == ExitObject
    ensures Run(mode, root, ops, st, k + 1) == Run(mode, root, ops, StepExitObject(st), k)
  {
    RunStep(mode, root, ops, st, k);
  }

  lemma RunEnterArrayOp(mode: Mode, root: Json, ops: seq<Op>, st: State, k: nat)
    requires st.ip < |ops| && ops[st.ip] == EnterArray
    ensures Run(mode, root, ops, st, k + 1) ==
      Run(mode, root, ops, State(st.ip + 1, st.frames + [ArrayFrame(0, st.ip + 1)], st.path, st.issues), k)
  {
    RunStep(mode, root, ops, st, k);
  }

  lemma RunItemsOp(mode: Mode, root: Json, ops: seq<Op>, st: State, k: nat)
    requires st.ip < |ops| && ops[st.ip] == CheckArrayItems
    ensures Run(mode, root, ops, st, k + 1) == Run(mode, root, ops, StepItems(mode, root, ops, st), k)
  {
    RunStep(mode, root, ops, st, k);
  }

  lemma RunExitArrayOp(mode: Mode, root: Json, ops: seq<Op>, st: State, k: nat)
    requires st.ip < |ops| && ops[st.ip] == ExitArray
    ensures Run(mode, root, ops, st, k + 1) == Run(mode, root, ops, StepExitArray(root, st), k)
  {
    RunStep(mode, root, ops, st, k);
  }

  /** Running `a` iterations and then `b` more is running `a + b`. */
  lemma {:induction false} RunAdd(mode: Mode, root: Json, ops: seq<Op>, st: State, a: nat, b: nat)
    ensures Run(mode, root, ops, st, a + b) == Run(mode, root, ops, Run(mode, root, ops, st, a), b)
    decreases a
  {
    if a == 0 {
    } else if st.ip >= |ops| {
      RunStopped(mode, root, ops, st, b);
      RunStopped(mode, root, ops, st, a + b);
    } else {
      var next := Step(mode, root, ops, st);
      RunStep(mode, root, ops, st, a - 1);
      RunStep(mode, root, ops, st, (a - 1) + b);
      RunAdd(mode, root, ops, next, a - 1, b);
    }
  }

  /** Once the instruction pointer is outside the list the loop has ended: more iterations change nothing. */
  lemma RunStopped(mode: Mode, root: Json, ops: seq<Op>, st: State, k: nat)
    requires st.ip >= |ops|
    ensures Run(mode, root, ops, st, k) == st
  {
    if k > 0 {
      assert Run(mode, root, ops, st, k) == Resume(mode, root, ops, st, k);
    }
  }

  /** One iteration is `Step`. */
  lemma RunOne(mode: Mode, root: Json, ops: seq<Op>, st: State)
    requires st.ip < |ops|
    ensures Run(mode, root, ops, st, 1) == Step(mode, root, ops, st)
  {
    RunStep(mode, root, ops, st, 0);
  }

  /** A step only ever appends issues. */
  lemma StepKeepsIssues(mode: Mode, root: Json, ops: seq<Op>, st: State)
    requires st.ip < |ops|
    ensures |Step(mode, root, ops, st).issues| >= |st.issues|
    ensures Step(mode, root, ops, st).issues[..|st.issues|] == st.issues
  {
    var next := Step(mode, root, ops, st);
    match ops[st.ip]
    case CheckProperty(k, required) =>
      assert next == StepProperty(root, ops, st, k, required);
    case ExitObject =>
    case CheckArrayItems =>
      assert next == StepItems(mode, root, ops, st);
    case ExitArray =>
    case EnterObject =>
    case EnterArray =>
    case Done =>
    case _ =>
      assert next == StepCheck(mode, root, ops[st.ip], st);
  }

  /** The issues recorded so far are never taken back. */
  lemma {:induction false} RunKeepsIssues(mode: Mode, root: Json, ops: seq<Op>, st: State, k: nat)
    ensures |Run(mode, root, ops, st, k).issues| >= |st.issues|
    ensures Run(mode, root, ops, st, k).issues[..|st.issues|] == st.issues
    decreases k
  {
    if k > 0 && st.ip < |ops| {
      var next := Step(mode, root, ops, st);
      RunStep(mode, root, ops, st, k - 1);
      StepKeepsIssues(mode, root, ops, st);
      RunKeepsIssues(mode, root, ops, next, k - 1);
      var last := Run(mode, root, ops, next, k - 1);
      assert last.issues[..|st.issues|] == last.issues[..|next.issues|][..|st.issues|];
    }
  }
}
