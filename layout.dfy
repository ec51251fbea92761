/**
 * The shape of a compiled operation list: it is well bracketed, ends with
 * its only `Done`, and the engines' forward skips pass over a compiled node
 * without stopping inside it.
 */
module Layout {
  import opened Wrappers
  import opened JsonValues
  import opened Compiler
  import opened Machine
  import opened Occurrences

  /** The operations `s` sit in `ops` starting at index `j`. */
  predicate At(ops: seq<Op>, j: nat, s: seq<Op>)
  {
    Occurs(ops, j, s)
  }

  /** An occurrence of `a + b` is an occurrence of `a` followed by one of `b`. */
  lemma AtSplit(ops: seq<Op>, j: nat, a: seq<Op>, b: seq<Op>)
    requires At(ops, j, a + b)
    ensures At(ops, j, a) && At(ops, j + |a|, b)
  {
    forall i | 0 <= i < |a| ensures ops[Offset(j, i)] == a[i] {
      assert ops[Offset(j, i)] == (a + b)[i];
    }
    forall i | 0 <= i < |b| ensures ops[Offset(j + |a|, i)] == b[i] {
      assert ops[Offset(j, |a| + i)] == (a + b)[|a| + i];
    }
  }

  /** The operation at the start of an occurrence, and the occurrence of the rest after it. */
  lemma AtHead(ops: seq<Op>, j: nat, s: seq<Op>)
    requires At(ops, j, s) && |s| > 0
    ensures ops[j] == s[0]
    ensures At(ops, j + 1, s[1..])
  {
    assert ops[Offset(j, 0)] == s[0];
    forall i | 0 <= i < |s| - 1 ensures ops[Offset(j + 1, i)] == s[1..][i] {
      assert ops[Offset(j, i + 1)] == s[i + 1];
    }
  }

  /** The pieces of an encoded node, each at its place. */
  lemma AtEncode(ops: seq<Op>, j: nat, n: Node)
    requires At(ops, j, Encode(n))
    ensures At(ops, j, n.checks)
    ensures At(ops, j + |n.checks|, ObjectBlock(n))
    ensures At(ops, j + |n.checks| + |ObjectBlock(n)|, n.itemChecks)
    ensures At(ops, j + |n.checks| + |ObjectBlock(n)| + |n.itemChecks|, ArrayBlock(n))
    ensures |Encode(n)| == |n.checks| + |ObjectBlock(n)| + |n.itemChecks| + |ArrayBlock(n)|
  {
    var c, o, ic, a := n.checks, ObjectBlock(n), n.itemChecks, ArrayBlock(n);
    assert Encode(n) == (c + o + ic) + a;
    AtSplit(ops, j, c + o + ic, a);
    AtSplit(ops, j, c + o, ic);
    AtSplit(ops, j, c, o);
  }

  /** The pieces of an object block: `EnterObject`, the properties, `ExitObject`. */
  lemma AtObjectBlock(ops: seq<Op>, j: nat, n: Node, ps: seq<Prop>)
    requires n.properties == Properties(ps) && At(ops, j, ObjectBlock(n))
    ensures ops[j] == EnterObject
    ensures At(ops, j + 1, PropsOps(n, ps, 0))
    ensures ops[j + 1 + |PropsOps(n, ps, 0)|] == ExitObject
    ensures |ObjectBlock(n)| == |PropsOps(n, ps, 0)| + 2
  {
    var body := PropsOps(n, ps, 0);
    assert ObjectBlock(n) == [EnterObject] + body + [ExitObject];
    AtSplit(ops, j, [EnterObject] + body, [ExitObject]);
    AtSplit(ops, j, [EnterObject], body);
    AtHead(ops, j, [EnterObject]);
    AtHead(ops, j + 1 + |body|, [ExitObject]);
  }

  /** The pieces of property `i`'s operations: its `CheckProperty`, its schema, the properties after it. */
  lemma AtProperty(ops: seq<Op>, j: nat, n: Node, ps: seq<Prop>, i: nat)
    requires n.properties == Properties(ps) && i < |ps| && At(ops, j, PropsOps(n, ps, i))
    ensures ops[j] == CheckProperty(ps[i].key, ps[i].required)
    ensures At(ops, j + 1, Encode(ps[i].schema))
    ensures At(ops, j + 1 + |Encode(ps[i].schema)|, PropsOps(n, ps, i + 1))
    ensures |PropsOps(n, ps, i)| == 1 + |Encode(ps[i].schema)| + |PropsOps(n, ps, i + 1)|
  {
    var head, e, rest := [CheckProperty(ps[i].key, ps[i].required)], Encode(ps[i].schema), PropsOps(n, ps, i + 1);
    assert PropsOps(n, ps, i) == head + e + rest;
    AtSplit(ops, j, head + e, rest);
    AtSplit(ops, j, head, e);
    AtHead(ops, j, head);
  }

  /** The pieces of an array block: `EnterArray`, `CheckArrayItems`, the item schema, `ExitArray`. */
  lemma AtArrayBlock(ops: seq<Op>, j: nat, n: Node, item: Node)
    requires n.items == Some(item) && At(ops, j, ArrayBlock(n))
    ensures ops[j] == EnterArray && ops[j + 1] == CheckArrayItems
    ensures At(ops, j + 2, Encode(item))
    ensures ops[j + 2 + |Encode(item)|] == ExitArray
    ensures |ArrayBlock(n)| == |Encode(item)| + 3
  {
    var e := Encode(item);
    assert ArrayBlock(n) == [EnterArray, CheckArrayItems] + e + [ExitArray];
    AtSplit(ops, j, [EnterArray, CheckArrayItems] + e, [ExitArray]);
    AtSplit(ops, j, [EnterArray, CheckArrayItems], e);
    AtHead(ops, j, [EnterArray, CheckArrayItems]);
    assert [EnterArray, CheckArrayItems][1..] == [CheckArrayItems];
    AtHead(ops, j + 1, [CheckArrayItems]);
    AtHead(ops, j + 2 + |e|, [ExitArray]);
  }

  /** A scan moves past an operation that does not stop it. */
  lemma ScanOne(ops: seq<Op>, j: nat, depth: nat, arraysOnly: bool, next: nat)
    requires j < |ops| && ScanStep(ops[j], depth, arraysOnly) == Some(next)
    ensures Scan(ops, j, depth, arraysOnly) == Scan(ops, j + 1, next, arraysOnly)
  {
  }

  /** A run of plain checks neither stops a scan nor changes its depth. */
  lemma {:induction false} ScanChecks(ops: seq<Op>, j: nat, depth: nat, arraysOnly: bool, checks: seq<Check>)
    requires At(ops, j, checks)
    ensures Scan(ops, j, depth, arraysOnly) == Scan(ops, j + |checks|, depth, arraysOnly)
    decreases |checks|
  {
    if |checks| > 0 {
      AtHead(ops, j, checks);
      ScanOne(ops, j, depth, arraysOnly, depth);
      ScanChecks(ops, j + 1, depth, arraysOnly, checks[1..]);
    }
  }

  /**
   * A scan that reaches a compiled node passes over all of it and comes out
   * at the depth it went in: inside a node, property checks and exits only
   * occur one level down or deeper, and its brackets are balanced.
   */
  lemma {:induction false} ScanEncode(ops: seq<Op>, j: nat, depth: nat, arraysOnly: bool, n: Node)
    requires At(ops, j, Encode(n))
    ensures Scan(ops, j, depth, arraysOnly) == Scan(ops, j + |Encode(n)|, depth, arraysOnly)
    decreases n, 2
  {
    AtEncode(ops, j, n);
    var j1 := j + |n.checks|;
    var j2 := j1 + |ObjectBlock(n)|;
    var j3 := j2 + |n.itemChecks|;
    var j4 := j3 + |ArrayBlock(n)|;
    calc {
      Scan(ops, j, depth, arraysOnly);
      { ScanChecks(ops, j, depth, arraysOnly, n.checks); }
      Scan(ops, j1, depth, arraysOnly);
      { ScanObject(ops, j1, depth, arraysOnly, n); }
      Scan(ops, j2, depth, arraysOnly);
      { ScanChecks(ops, j2, depth, arraysOnly, n.itemChecks); }
      Scan(ops, j3, depth, arraysOnly);
      { ScanArray(ops, j3, depth, arraysOnly, n); }
      Scan(ops, j4, depth, arraysOnly);
    }
  }

  /** A scan passes over an object block. */
  lemma {:induction false} ScanObject(ops: seq<Op>, j: nat, depth: nat, arraysOnly: bool, n: Node)
    requires At(ops, j, ObjectBlock(n))
    ensures Scan(ops, j, depth, arraysOnly) == Scan(ops, j + |ObjectBlock(n)|, depth, arraysOnly)
    decreases n, 1
  {
    if n.properties.Properties? {
      var ps := n.properties.list;
      AtObjectBlock(ops, j, n, ps);
      var inner := if arraysOnly then depth else depth + 1;
      var e := j + 1 + |PropsOps(n, ps, 0)|;
      ScanOne(ops, j, depth, arraysOnly, inner);
      ScanProps(ops, j + 1, inner, arraysOnly, n, ps, 0);
      ScanOne(ops, e, inner, arraysOnly, depth);
    }
  }

  /** A scan one level inside an object block passes over its properties. */
  lemma {:induction false} ScanProps(ops: seq<Op>, j: nat, depth: nat, arraysOnly: bool, n: Node, ps: seq<Prop>, i: nat)
    requires n.properties == Properties(ps) && i <= |ps|
    requires At(ops, j, PropsOps(n, ps, i))
    requires !arraysOnly ==> depth > 0
    ensures Scan(ops, j, depth, arraysOnly) == Scan(ops, j + |PropsOps(n, ps, i)|, depth, arraysOnly)
    decreases n, 0, |ps| - i
  {
    if i < |ps| {
      AtProperty(ops, j, n, ps, i);
      ScanOne(ops, j, depth, arraysOnly, depth);
      ScanEncode(ops, j + 1, depth, arraysOnly, ps[i].schema);
      ScanProps(ops, j + 1 + |Encode(ps[i].schema)|, depth, arraysOnly, n, ps, i + 1);
    }
  }

  /** A scan passes over an array block. */
  lemma {:induction false} ScanArray(ops: seq<Op>, j: nat, depth: nat, arraysOnly: bool, n: Node)
    requires At(ops, j, ArrayBlock(n))
    ensures Scan(ops, j, depth, arraysOnly) == Scan(ops, j + |ArrayBlock(n)|, depth, arraysOnly)
    decreases n, 1
  {
    if n.items.Some? {
      var item := n.items.value;
      AtArrayBlock(ops, j, n, item);
      ScanOne(ops, j, depth, arraysOnly, depth + 1);
      ScanOne(ops, j + 1, depth + 1, arraysOnly, depth + 1);
      ScanEncode(ops, j + 2, depth + 1, arraysOnly, item);
      ScanOne(ops, j + 2 + |Encode(item)|, depth + 1, arraysOnly, depth);
    }
  }

  /** The brackets an operation list leaves open. */
  datatype Bracket = ObjectBracket | ArrayBracket

  /**
   * Reads `ops` from `j` with the brackets `open` still open: the brackets
   * left open at the end, or `None` if the list is badly formed. An
   * `ExitObject` or `ExitArray` must close the innermost bracket, which must
   * be of its kind; a `CheckProperty` may only occur directly inside an
   * object; `EnterArray` must be followed at once by `CheckArrayItems`, which
   * occurs nowhere else; `Done` must be the last operation and close nothing.
   */
  function Nest(ops: seq<Op>, j: nat, open: seq<Bracket>): Option<seq<Bracket>>
    requires j <= |ops|
    decreases |ops| - j
  {
    if j == |ops| then Some(open)
    else
      match ops[j]
      case EnterObject => Nest(ops, j + 1, open + [ObjectBracket])
      case CheckProperty(_, _) =>
        if |open| > 0 && open[|open| - 1] == ObjectBracket then Nest(ops, j + 1, open) else None
      case ExitObject =>
        if |open| > 0 && open[|open| - 1] == ObjectBracket then Nest(ops, j + 1, Pop(open)) else None
      case EnterArray =>
        if j + 1 < |ops| && ops[j + 1] == CheckArrayItems then Nest(ops, j + 2, open + [ArrayBracket]) else None
      case CheckArrayItems => None
      case ExitArray =>
        if |open| > 0 && open[|open| - 1] == ArrayBracket then Nest(ops, j + 1, Pop(open)) else None
      case Done => if j + 1 == |ops| && |open| == 0 then Some([]) else None
      case _ => Nest(ops, j + 1, open)
  }

  /** A run of plain checks leaves the brackets as they were. */
  lemma {:induction false} NestChecks(ops: seq<Op>, j: nat, open: seq<Bracket>, checks: seq<Check>)
    requires At(ops, j, checks)
    ensures Nest(ops, j, open) == Nest(ops, j + |checks|, open)
    decreases |checks|
  {
    if |checks| > 0 {
      AtHead(ops, j, checks);
      NestChecks(ops, j + 1, open, checks[1..]);
    }
  }

  /** A compiled node is well bracketed: reading it leaves the open brackets as they were. */
  lemma {:induction false} NestEncode(ops: seq<Op>, j: nat, open: seq<Bracket>, n: Node)
    requires At(ops, j, Encode(n))
    ensures Nest(ops, j, open) == Nest(ops, j + |Encode(n)|, open)
    decreases n, 2
  {
    AtEncode(ops, j, n);
    var j1 := j + |n.checks|;
    var j2 := j1 + |ObjectBlock(n)|;
    var j3 := j2 + |n.itemChecks|;
    NestChecks(ops, j, open, n.checks);
    NestObject(ops, j1, open, n);
    NestChecks(ops, j2, open, n.itemChecks);
    NestArray(ops, j3, open, n);
    assert j3 + |ArrayBlock(n)| == j + |Encode(n)|;
  }

  /** An object block is well bracketed. */
  lemma {:induction false} NestObject(ops: seq<Op>, j: nat, open: seq<Bracket>, n: Node)
    requires At(ops, j, ObjectBlock(n))
    ensures Nest(ops, j, open) == Nest(ops, j + |ObjectBlock(n)|, open)
    decreases n, 1
  {
    if n.properties.Properties? {
      var ps := n.properties.list;
      AtObjectBlock(ops, j, n, ps);
      var inner := open + [ObjectBracket];
      var e := j + 1 + |PropsOps(n, ps, 0)|;
      NestProps(ops, j + 1, inner, n, ps, 0);
      assert Pop(inner) == open;
      assert Nest(ops, e, inner) == Nest(ops, e + 1, open);
    }
  }

  /** The properties of an object block are well bracketed inside it. */
  lemma {:induction false} NestProps(ops: seq<Op>, j: nat, open: seq<Bracket>, n: Node, ps: seq<Prop>, i: nat)
    requires n.properties == Properties(ps) && i <= |ps|
    requires At(ops, j, PropsOps(n, ps, i))
    requires |open| > 0 && open[|open| - 1] == ObjectBracket
    ensures Nest(ops, j, open) == Nest(ops, j + |PropsOps(n, ps, i)|, open)
    decreases n, 0, |ps| - i
  {
    if i < |ps| {
      AtProperty(ops, j, n, ps, i);
      assert Nest(ops, j, open) == Nest(ops, j + 1, open);
      NestEncode(ops, j + 1, open, ps[i].schema);
      NestProps(ops, j + 1 + |Encode(ps[i].schema)|, open, n, ps, i + 1);
    }
  }

  /** An array block is well bracketed. */
  lemma {:induction false} NestArray(ops: seq<Op>, j: nat, open: seq<Bracket>, n: Node)
    requires At(ops, j, ArrayBlock(n))
    ensures Nest(ops, j, open) == Nest(ops, j + |ArrayBlock(n)|, open)
    decreases n, 1
  {
    if n.items.Some? {
      var item := n.items.value;
      AtArrayBlock(ops, j, n, item);
      var inner := open + [ArrayBracket];
      assert Nest(ops, j, open) == Nest(ops, j + 2, inner);
      NestEncode(ops, j + 2, inner, item);
      assert Pop(inner) == open;
      assert Nest(ops, j + 2 + |Encode(item)|, inner) == Nest(ops, j + 3 + |Encode(item)|, open);
    }
  }

  /** A compiled schema holds its root node's operations from index 0, and then the `Done`. */
  lemma AtCompiled(s: Json)
    ensures At(Compile(s), 0, Encode(Lower(s)))
    ensures |Compile(s)| == |Encode(Lower(s))| + 1 && Compile(s)[|Encode(Lower(s))|] == Done
  {
    var e := Encode(Lower(s));
    assert Compile(s) == e + [Done];
    forall i | 0 <= i < |e| ensures Compile(s)[Offset(0, i)] == e[i] {
      assert Compile(s)[i] == e[i];
    }
  }

  /**
   * `compile_schema` produces a well-bracketed list: every `EnterObject` is
   * closed by an `ExitObject` and every `EnterArray`, followed at once by
   * `CheckArrayItems`, by an `ExitArray`, in nesting order, and the list ends
   * with a `Done` that is its only one.
   */
  lemma CompiledWellBracketed(s: Json)
    ensures Nest(Compile(s), 0, []) == Some([])
    ensures Compile(s)[|Compile(s)| - 1] == Done
    ensures forall i :: 0 <= i < |Compile(s)| - 1 ==> Compile(s)[i] != Done
  {
    var ops := Compile(s);
    var e := Encode(Lower(s));
    assert ops == e + [Done];
    AtSplit(ops, 0, e, [Done]);
    NestEncode(ops, 0, [], Lower(s));
    EncodeHasNoDone(Lower(s));
    forall i | 0 <= i < |ops| - 1 ensures ops[i] != Done {
      assert ops[i] == e[i];
    }
  }

  /** A compiled node contains no `Done`: only `compile_schema` emits it. */
  lemma {:induction false} EncodeHasNoDone(n: Node)
    ensures Done !in Encode(n)
    decreases n, 2
  {
    ObjectHasNoDone(n);
    ArrayHasNoDone(n);
    assert Done !in n.checks && Done !in n.itemChecks;
  }

  /** An object block contains no `Done`. */
  lemma {:induction false} ObjectHasNoDone(n: Node)
    ensures Done !in ObjectBlock(n)
    decreases n, 1
  {
    if n.properties.Properties? {
      PropsHaveNoDone(n, n.properties.list, 0);
    }
  }

  /** The properties of an object block contain no `Done`. */
  lemma {:induction false} PropsHaveNoDone(n: Node, ps: seq<Prop>, i: nat)
    requires n.properties == Properties(ps) && i <= |ps|
    ensures Done !in PropsOps(n, ps, i)
    decreases n, 0, |ps| - i
  {
    if i < |ps| {
      EncodeHasNoDone(ps[i].schema);
      PropsHaveNoDone(n, ps, i + 1);
    }
  }

  /** An array block contains no `Done`. */
  lemma {:induction false} ArrayHasNoDone(n: Node)
    ensures Done !in ArrayBlock(n)
    decreases n, 1
  {
    if n.items.Some? {
      EncodeHasNoDone(n.items.value);
    }
  }
}
