/**
 * Where the machine stands inside a compiled node while it runs: the
 * situations the segment lemmas of `Correctness` start from, what one step
 * does in each, and how one property or element leads to the next.
 */
module Positions {
  import opened Wrappers
  import opened JsonValues
  import opened Types
  import opened Compiler
  import opened Machine
  import opened Semantics
  import opened Layout
  import opened Occurrences

  /** Pushing and then popping gives back the stack. */
  lemma PopPush<T>(s: seq<T>, x: T)
    ensures Pop(s + [x]) == s
  {
    assert (s + [x])[..|s|] == s;
  }

  /** The focus of a pushed frame is one `Enter` from the focus below it. */
  lemma FocusPush(root: Json, frames: seq<Frame>, f: Frame)
    ensures Focus(root, frames + [f]) ==
      (match Focus(root, frames) case None => None case Some(cur) => Enter(cur, f))
  {
    assert (frames + [f])[..|frames|] == frames;
  }

  /** An object frame at no property focuses the object itself. */
  lemma FocusObjectNone(root: Json, frames: seq<Frame>, v: Json)
    requires Focus(root, frames) == Some(v)
    ensures Focus(root, frames + [ObjectFrame(None)]) == Some(v)
  {
    FocusPush(root, frames, ObjectFrame(None));
  }

  /** An array frame walks the elements of the array below it. */
  lemma ParentLengthPush(root: Json, frames: seq<Frame>, v: Json, idx: nat, start: nat)
    requires Focus(root, frames) == Some(v)
    ensures ParentLength(root, frames + [ArrayFrame(idx, start)]) == |Elements(v)|
    ensures idx < |Elements(v)| ==> Focus(root, frames + [ArrayFrame(idx, start)]) == Some(Elements(v)[idx])
  {
    PopPush(frames, ArrayFrame(idx, start));
    FocusPush(root, frames, ArrayFrame(idx, start));
  }

  /** The innermost frame is `f`, over the value `v` that the frames below it lead to. */
  predicate Within(root: Json, st: State, frames: seq<Frame>, f: Frame, v: Json)
  {
    st.frames == frames + [f] && Focus(root, frames) == Some(v)
  }

  // What one step does in each of those situations.

  lemma StepCheckAt(mode: Mode, root: Json, op: Op, st: State, v: Json)
    requires Focus(root, st.frames) == Some(v)
    ensures StepCheck(mode, root, op, st) == State(st.ip + 1, st.frames, st.path, st.issues + CheckIssues(mode, op, Some(v), st.path))
  {
  }

  lemma StepExitObjectAt(st: State, frames: seq<Frame>, key: Option<string>)
    requires st.frames == frames + [ObjectFrame(key)]
    ensures StepExitObject(st) == State(st.ip + 1, frames, if key.Some? then Pop(st.path) else st.path, st.issues)
  {
    PopPush(frames, ObjectFrame(key));
  }

  /** `CheckProperty` on a value that is not an object: the property's operations run next, on the same value. */
  lemma StepPropertyOfNonObject(root: Json, ops: seq<Op>, st: State, frames: seq<Frame>, key: Option<string>, v: Json,
                                k: string, required: bool)
    requires st.ip < |ops| && Within(root, st, frames, ObjectFrame(key), v) && !v.Obj?
    ensures StepProperty(root, ops, st, k, required) ==
      State(st.ip + 1, frames + [ObjectFrame(None)], if key.Some? then Pop(st.path) else st.path, st.issues)
  {
    PopPush(frames, ObjectFrame(key));
    FocusObjectNone(root, frames, v);
  }

  /** `CheckProperty` of a present property: it is entered. */
  lemma StepPresentProperty(root: Json, ops: seq<Op>, st: State, frames: seq<Frame>, key: Option<string>, v: Json,
                            k: string, required: bool)
    requires st.ip < |ops| && Within(root, st, frames, ObjectFrame(key), v) && v.Obj? && HasKey(v.fields, k)
    ensures StepProperty(root, ops, st, k, required) ==
      State(st.ip + 1, frames + [ObjectFrame(Some(k))], (if key.Some? then Pop(st.path) else st.path) + [Key(k)], st.issues)
  {
    PopPush(frames, ObjectFrame(key));
    FocusObjectNone(root, frames, v);
  }

  /** `CheckProperty` of an absent property: the issue when it is required, and the skip. */
  lemma StepAbsentProperty(root: Json, ops: seq<Op>, st: State, frames: seq<Frame>, key: Option<string>, v: Json,
                           k: string, required: bool)
    requires st.ip < |ops| && Within(root, st, frames, ObjectFrame(key), v) && v.Obj? && !HasKey(v.fields, k)
    ensures var left := if key.Some? then Pop(st.path) else st.path;
      StepProperty(root, ops, st, k, required) ==
      State(SkipTarget(ops, st.ip, false), frames + [ObjectFrame(None)], left,
            st.issues + (if required then [Fault(MissingProperty(k), left)] else []))
  {
    PopPush(frames, ObjectFrame(key));
    FocusObjectNone(root, frames, v);
  }

  /** `CheckArrayItems` with an element left: it is entered. */
  lemma StepItemsEnter(mode: Mode, root: Json, ops: seq<Op>, st: State, frames: seq<Frame>, v: Json, idx: nat, start: nat)
    requires st.ip < |ops| && Within(root, st, frames, ArrayFrame(idx, start), v) && idx < |Elements(v)|
    ensures StepItems(mode, root, ops, st) ==
      State(st.ip + 1, st.frames, (if idx > 0 then Pop(st.path) else st.path) + [Index(idx)], st.issues)
  {
    ParentLengthPush(root, frames, v, idx, start);
  }

  /** `CheckArrayItems` on an empty array or a non-array: the skip. */
  lemma StepItemsSkip(mode: Mode, root: Json, ops: seq<Op>, st: State, frames: seq<Frame>, v: Json, start: nat)
    requires st.ip < |ops| && Within(root, st, frames, ArrayFrame(0, start), v) && |Elements(v)| == 0
    ensures StepItems(mode, root, ops, st) == State(SkipTarget(ops, st.ip, true), st.frames, st.path, st.issues)
  {
    ParentLengthPush(root, frames, v, 0, start);
  }

  /** `ExitArray` before the last element: back to `CheckArrayItems` with the next index. */
  lemma StepExitArrayNext(root: Json, st: State, frames: seq<Frame>, v: Json, idx: nat, start: nat)
    requires Within(root, st, frames, ArrayFrame(idx, start), v) && idx + 1 < |Elements(v)|
    ensures StepExitArray(root, st) == State(start, frames + [ArrayFrame(idx + 1, start)], Pop(st.path), st.issues)
  {
    ParentLengthPush(root, frames, v, idx, start);
    PopPush(frames, ArrayFrame(idx, start));
  }

  /** `ExitArray` after the last element (or on an empty array): the frame is popped. */
  lemma StepExitArrayLast(root: Json, st: State, frames: seq<Frame>, v: Json, idx: nat, start: nat)
    requires Within(root, st, frames, ArrayFrame(idx, start), v) && idx + 1 >= |Elements(v)|
    ensures StepExitArray(root, st) ==
      State(st.ip + 1, frames, if idx < |Elements(v)| then Pop(st.path) else st.path, st.issues)
  {
    ParentLengthPush(root, frames, v, idx, start);
    PopPush(frames, ArrayFrame(idx, start));
  }

  /**
   * The machine is at property `i` of the object block of `n` (or at its
   * `ExitObject`), with the object frame at property `key` over `v`.
   */
  predicate InProps(root: Json, ops: seq<Op>, st: State, frames: seq<Frame>,
                    n: Node, ps: seq<Prop>, i: nat, v: Json, key: Option<string>)
  {
    n.properties == Properties(ps) && i <= |ps| && At(ops, st.ip, PropsOps(n, ps, i)) &&
    st.ip + |PropsOps(n, ps, i)| < |ops| && ops[st.ip + |PropsOps(n, ps, i)|] == ExitObject &&
    Within(root, st, frames, ObjectFrame(key), v)
  }

  /**
   * The machine is at the `CheckArrayItems` (at `start`) of the array block
   * of `n`, with the array frame at element `idx` of `v`.
   */
  predicate InItems(root: Json, ops: seq<Op>, st: State, frames: seq<Frame>,
                    n: Node, item: Node, v: Json, idx: nat, start: nat)
  {
    n.items == Some(item) && idx < |Elements(v)| && start > 0 && At(ops, start - 1, ArrayBlock(n)) &&
    st.ip == start && Within(root, st, frames, ArrayFrame(idx, start), v)
  }

  /** After property `i` (its check and its schema), the machine is at property `i + 1`, whatever the object frame now holds. */
  lemma PropsNext(root: Json, ops: seq<Op>, st: State, frames: seq<Frame>, n: Node, ps: seq<Prop>, i: nat,
                  v: Json, key: Option<string>, next: State, nextKey: Option<string>)
    requires InProps(root, ops, st, frames, n, ps, i, v, key) && i < |ps|
    requires next.ip == st.ip + 1 + |Encode(ps[i].schema)| && next.frames == frames + [ObjectFrame(nextKey)]
    ensures InProps(root, ops, next, frames, n, ps, i + 1, v, nextKey)
    ensures next.ip + |PropsOps(n, ps, i + 1)| == st.ip + |PropsOps(n, ps, i)|
  {
    AtProperty(ops, st.ip, n, ps, i);
  }

  /** Rewinding to `CheckArrayItems` for the next element puts the machine at element `idx + 1`. */
  lemma ItemsNext(root: Json, ops: seq<Op>, st: State, frames: seq<Frame>, n: Node, item: Node,
                  v: Json, idx: nat, start: nat, next: State)
    requires InItems(root, ops, st, frames, n, item, v, idx, start) && idx + 1 < |Elements(v)|
    requires next.ip == start && next.frames == frames + [ArrayFrame(idx + 1, start)]
    ensures InItems(root, ops, next, frames, n, item, v, idx + 1, start)
  {
  }

  /** At element `idx` the machine is on the block's `CheckArrayItems`, followed by the item schema and the `ExitArray`. */
  lemma ItemsAt(root: Json, ops: seq<Op>, st: State, frames: seq<Frame>, n: Node, item: Node,
                v: Json, idx: nat, start: nat)
    requires InItems(root, ops, st, frames, n, item, v, idx, start)
    ensures st.ip < |ops| && ops[st.ip] == CheckArrayItems && At(ops, st.ip + 1, Encode(item))
    ensures st.ip + 1 + |Encode(item)| < |ops| && ops[st.ip + 1 + |Encode(item)|] == ExitArray
  {
    AtArrayBlock(ops, start - 1, n, item);
    assert start - 1 + 2 == st.ip + 1;
  }
}
