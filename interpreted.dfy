/**
 * `validate_against_schema`, the recursive validator the compiled engines
 * replaced. It walks the schema and the value together: a type mismatch is
 * the only finding; otherwise the keywords of the value's own kind are
 * checked, and findings inside properties and elements are reported under
 * the property key or element index.
 *
 * It is not the compiled engine: it accepts a list of type names, checks
 * `required` names whether or not they are listed in `properties`, skips
 * `properties` on values that are not objects, and compares lengths and
 * item counts with the full u64 bound where the compiler casts it to a
 * 32-bit `usize`. On schemas that use none of
 * these differences (`Shared`), the two accept exactly the same values.
 */
module Interpreted {
  import opened Wrappers
  import opened JsonValues
  import opened Types
  import opened Compiler
  import opened Machine
  import opened Semantics
  import opened Verdicts

  /** What a finding of the interpreted validator reports (its message text is built from these). */
  datatype Complaint =
    | TypeMismatch(expected: Json, got: Json)
    | LessThanMinimum(num: real, bound: real)
    | GreaterThanMaximum(num: real, bound: real)
    | NotGreaterThan(num: real, bound: real)
    | NotLessThan(num: real, bound: real)
    | LengthBelow(length: nat, minimum: nat)
    | LengthAbove(length: nat, maximum: nat)
    | ItemsBelow(count: nat, minimum: nat)
    | ItemsAbove(count: nat, maximum: nat)
    | MissingRequired(key: string)

  /** A finding: what, and where below the validated value (no path: the value itself). */
  datatype Finding = Finding(complaint: Complaint, path: Option<Path>)

  /** The outcome of `validate_against_schema`: success with the value, or the findings. */
  datatype Verdict = Pass(value: Json) | Fail(findings: seq<Finding>)

  /**
   * `validate_type`: a type name the value has (an unknown name passes), any
   * of a list of type descriptions, and anything else passes.
   */
  function ValidateType(v: Json, t: Json): bool
    decreases t, 1
  {
    match t
    case Str(name) => ParseTypeTag(name).None? || CheckTypeTag(v, ParseTypeTag(name).value)
    case Arr(_) => AnyType(v, t, 0)
    case _ => true
  }

  /** Whether `v` matches any of the type descriptions `i..` of the list `t`. */
  function AnyType(v: Json, t: Json, i: nat): bool
    requires t.Arr? && i <= |t.items|
    decreases t, 0, |t.items| - i
  {
    if i == |t.items| then false
    else ValidateType(v, t.items[i]) || AnyType(v, t, i + 1)
  }

  /** A finding about the value itself, when `fails`. */
  function Here(fails: bool, c: Complaint): seq<Finding>
  {
    if fails then [Finding(c, None)] else []
  }

  /** `validate_number_schema`: the bounds `num` violates, in keyword order. */
  function NumberIssues(num: real, fields: seq<(string, Json)>): seq<Finding>
  {
    var lo := BoundKeyword(fields, "minimum");
    var hi := BoundKeyword(fields, "maximum");
    var xlo := BoundKeyword(fields, "exclusiveMinimum");
    var xhi := BoundKeyword(fields, "exclusiveMaximum");
    Here(lo.Some? && num < lo.value, LessThanMinimum(num, if lo.Some? then lo.value else 0.0)) +
    Here(hi.Some? && num > hi.value, GreaterThanMaximum(num, if hi.Some? then hi.value else 0.0)) +
    Here(xlo.Some? && num <= xlo.value, NotGreaterThan(num, if xlo.Some? then xlo.value else 0.0)) +
    Here(xhi.Some? && num >= xhi.value, NotLessThan(num, if xhi.Some? then xhi.value else 0.0))
  }

  /** `validate_string_schema`: the length bounds `s`, counted in characters, violates. */
  function StringIssues(s: string, fields: seq<(string, Json)>): seq<Finding>
  {
    var lo := CountKeyword(fields, "minLength");
    var hi := CountKeyword(fields, "maxLength");
    Here(lo.Some? && |s| < lo.value, LengthBelow(|s|, if lo.Some? then lo.value else 0)) +
    Here(hi.Some? && |s| > hi.value, LengthAbove(|s|, if hi.Some? then hi.value else 0))
  }

  /** The `minItems` and `maxItems` bounds an array of `count` elements violates. */
  function CountIssues(count: nat, fields: seq<(string, Json)>): seq<Finding>
  {
    var lo := CountKeyword(fields, "minItems");
    var hi := CountKeyword(fields, "maxItems");
    Here(lo.Some? && count < lo.value, ItemsBelow(count, if lo.Some? then lo.value else 0)) +
    Here(hi.Some? && count > hi.value, ItemsAbove(count, if hi.Some? then hi.value else 0))
  }

  /** Findings from below a property or element, with its segment put in front of their paths. */
  function Under(seg: PathSegment, fs: seq<Finding>): (r: seq<Finding>)
    ensures |r| == |fs|
    ensures forall i :: 0 <= i < |fs| ==>
      r[i].complaint == fs[i].complaint && r[i].path == Some([seg] + (if fs[i].path.Some? then fs[i].path.value else []))
  {
    seq(|fs|, i requires 0 <= i < |fs| =>
      Finding(fs[i].complaint, Some([seg] + (if fs[i].path.Some? then fs[i].path.value else []))))
  }

  /**
   * The findings of `validate_against_schema(value, schema)`: none for a
   * schema that is not an object; a type mismatch alone; otherwise the
   * findings of the keywords for the value's kind.
   */
  function Interpret(v: Json, schema: Json): seq<Finding>
    decreases schema, 2
  {
    match schema
    case Obj(fields) =>
      var t := Get(fields, "type");
      if t.Some? && !ValidateType(v, t.value) then [Finding(TypeMismatch(t.value, v), None)]
      else if IsNumber(v) then NumberIssues(AsF64(v).value, fields)
      else if v.Str? then StringIssues(v.s, fields)
      else if v.Obj? then ObjectIssues(v.fields, schema)
      else if v.Arr? then ItemIssues(v.items, schema) + CountIssues(|v.items|, fields)
      else []
    case _ => []
  }

  /** `validate_object_schema`: the missing required properties, then the findings of the listed properties present. */
  function ObjectIssues(obj: seq<(string, Json)>, schema: Json): seq<Finding>
    requires schema.Obj?
    decreases schema, 1
  {
    (match Get(schema.fields, "required") case Some(Arr(req)) => MissingIssues(obj, req, 0) case _ => []) +
    (match Get(schema.fields, "properties") case Some(Obj(ps)) => PropIssues(obj, schema, ps, 0) case _ => [])
  }

  /** The names `req[i..]` that are strings and absent from `obj`, each reported at its own key. */
  function MissingIssues(obj: seq<(string, Json)>, req: seq<Json>, i: nat): seq<Finding>
    requires i <= |req|
    decreases |req| - i
  {
    if i == |req| then []
    else
      (if req[i].Str? && !HasKey(obj, req[i].s) then [Finding(MissingRequired(req[i].s), Some([Key(req[i].s)]))] else []) +
      MissingIssues(obj, req, i + 1)
  }

  /** The findings of the listed properties `ps[i..]` that `obj` has, under their keys. */
  function PropIssues(obj: seq<(string, Json)>, schema: Json, ps: seq<(string, Json)>, i: nat): seq<Finding>
    requires schema.Obj? && Get(schema.fields, "properties") == Some(Obj(ps)) && i <= |ps|
    decreases schema, 0, |ps| - i
  {
    if i == |ps| then []
    else
      (match Get(obj, ps[i].0) case Some(x) => Under(Key(ps[i].0), Interpret(x, ps[i].1)) case None => []) +
      PropIssues(obj, schema, ps, i + 1)
  }

  /** The findings of the elements `xs[idx..]` under the `items` schema, under their indices; none without one. */
  function ItemIssues(xs: seq<Json>, schema: Json): seq<Finding>
    requires schema.Obj?
    decreases schema, 1
  {
    match Get(schema.fields, "items")
    case Some(item) => ElementIssues(xs, schema, item, 0)
    case None => []
  }

  function ElementIssues(xs: seq<Json>, schema: Json, item: Json, idx: nat): seq<Finding>
    requires schema.Obj? && Get(schema.fields, "items") == Some(item) && idx <= |xs|
    decreases schema, 0, |xs| - idx
  {
    if idx == |xs| then []
    else Under(Index(idx), Interpret(xs[idx], item)) + ElementIssues(xs, schema, item, idx + 1)
  }

  /** `validate_against_schema`: success with the value itself exactly when there is no finding. */
  function ValidateAgainstSchema(v: Json, schema: Json): (r: Verdict)
    ensures r.Pass? <==> Interpret(v, schema) == []
    ensures r.Pass? ==> r.value == v
    ensures r.Fail? ==> r.findings == Interpret(v, schema)
  {
    var fs := Interpret(v, schema);
    if fs == [] then Pass(v) else Fail(fs)
  }

  /** A type mismatch is reported alone, about the value itself, naming the expected type description. */
  lemma TypeMismatchIsAlone(v: Json, schema: Json)
    requires schema.Obj? && Get(schema.fields, "type").Some?
    requires !ValidateType(v, Get(schema.fields, "type").value)
    ensures Interpret(v, schema) == [Finding(TypeMismatch(Get(schema.fields, "type").value, v), None)]
  {
  }

  /** A list of type names accepts a value exactly when one of its entries does. */
  lemma {:induction false} UnionAcceptsAny(v: Json, t: Json, i: nat)
    requires t.Arr? && i <= |t.items|
    ensures AnyType(v, t, i) <==> exists j :: i <= j < |t.items| && ValidateType(v, t.items[j])
    decreases |t.items| - i
  {
    if i < |t.items| {
      UnionAcceptsAny(v, t, i + 1);
    }
  }

  /**
   * A required name that is a string and absent from the object is reported
   * at its key; no finding about required names arises otherwise.
   */
  lemma {:induction false} MissingIssuesExact(obj: seq<(string, Json)>, req: seq<Json>, i: nat)
    requires i <= |req|
    ensures MissingIssues(obj, req, i) == [] <==>
      forall j :: i <= j < |req| && req[j].Str? ==> HasKey(obj, req[j].s)
    ensures forall f :: f in MissingIssues(obj, req, i) ==>
      f.complaint.MissingRequired? && f.path == Some([Key(f.complaint.key)]) && !HasKey(obj, f.complaint.key)
    decreases |req| - i
  {
    if i < |req| {
      MissingIssuesExact(obj, req, i + 1);
    }
  }

  // ---------------------------------------------------------------------------
  // Agreement with the compiled engine

  /** The `properties` keyword, when it is an object. */
  function PropertyFields(fields: seq<(string, Json)>): Option<seq<(string, Json)>>
  {
    match Get(fields, "properties")
    case Some(Obj(ps)) => Some(ps)
    case _ => None
  }

  /** A count keyword that is absent, or a u64 small enough to survive the cast to `usize`. */
  predicate CountFits(fields: seq<(string, Json)>, k: string)
  {
    match CountKeyword(fields, k)
    case Some(c) => c < USIZE_MODULUS
    case None => true
  }

  /** All four count keywords survive the cast to `usize`. */
  predicate CountsFit(fields: seq<(string, Json)>)
  {
    CountFits(fields, "minLength") && CountFits(fields, "maxLength") &&
    CountFits(fields, "minItems") && CountFits(fields, "maxItems")
  }

  /**
   * A schema that uses none of the features the two validators treat
   * differently: no count of 2^32 or more, no list of type names, every `required` name listed in
   * `properties`, and `type` `object` declared wherever `properties` is;
   * and so on for every property and item schema.
   */
  predicate Shared(s: Json)
    decreases s, 1
  {
    match s
    case Obj(fields) =>
      CountsFit(fields) &&
      !(Get(fields, "type").Some? && Get(fields, "type").value.Arr?) &&
      (forall name :: name in RequiredNames(fields) ==>
        PropertyFields(fields).Some? && exists i :: 0 <= i < |PropertyFields(fields).value| && PropertyFields(fields).value[i].0 == name) &&
      (PropertyFields(fields).Some? ==> Get(fields, "type") == Some(Str("object")) && SharedProps(s, 0)) &&
      (Get(fields, "items").Some? ==> Shared(Get(fields, "items").value))
    case _ => true
  }

  predicate SharedProps(s: Json, i: nat)
    requires s.Obj? && PropertyFields(s.fields).Some?
    decreases s, 0, |PropertyFields(s.fields).value| - i
  {
    var ps := PropertyFields(s.fields).value;
    i >= |ps| || (Shared(ps[i].1) && SharedProps(s, i + 1))
  }

  /** Every check of a list passes on `v`. */
  predicate AllPass(cs: seq<Op>, v: Json)
  {
    forall j :: 0 <= j < |cs| ==> Violation(Full, cs[j], v).None?
  }

  lemma AllPassAppend(a: seq<Op>, b: seq<Op>, v: Json)
    ensures AllPass(a + b, v) <==> AllPass(a, v) && AllPass(b, v)
  {
    if AllPass(a, v) && AllPass(b, v) {
      forall j | 0 <= j < |a + b| ensures Violation(Full, (a + b)[j], v).None? {
        if j >= |a| {
          assert (a + b)[j] == b[j - |a|];
        }
      }
    }
    if AllPass(a + b, v) {
      forall j | 0 <= j < |b| ensures Violation(Full, b[j], v).None? {
        assert (a + b)[|a| + j] == b[j];
      }
      forall j | 0 <= j < |a| ensures Violation(Full, a[j], v).None? {
        assert (a + b)[j] == a[j];
      }
    }
  }

  lemma OnePass(op: Op, v: Json)
    ensures AllPass([op], v) <==> Violation(Full, op, v).None?
  {
    assert [op][0] == op;
  }

  /** The type check the compiler emits holds exactly when `validate_type` accepts, for a `type` that is not a list. */
  lemma TypeChecksAgree(fields: seq<(string, Json)>, v: Json)
    requires !(Get(fields, "type").Some? && Get(fields, "type").value.Arr?)
    ensures AllPass(TypeChecks(fields), v) <==> (Get(fields, "type").None? || ValidateType(v, Get(fields, "type").value))
  {
    if TypeKeyword(fields).Some? {
      assert TypeChecks(fields)[0] == CheckType(TypeKeyword(fields).value);
    }
  }

  lemma MinimumAgrees(lo: Option<real>, v: Json)
    requires IsNumber(v)
    ensures AllPass(match lo case Some(b) => [CheckMinimum(b)] case None => [], v) <==> lo.None? || AsF64(v).value >= lo.value
  {
    if lo.Some? { OnePass(CheckMinimum(lo.value), v); }
  }

  lemma MaximumAgrees(hi: Option<real>, v: Json)
    requires IsNumber(v)
    ensures AllPass(match hi case Some(b) => [CheckMaximum(b)] case None => [], v) <==> hi.None? || AsF64(v).value <= hi.value
  {
    if hi.Some? { OnePass(CheckMaximum(hi.value), v); }
  }

  lemma ExclusiveMinimumAgrees(lo: Option<real>, v: Json)
    requires IsNumber(v)
    ensures AllPass(match lo case Some(b) => [CheckExclusiveMinimum(b)] case None => [], v) <==> lo.None? || AsF64(v).value > lo.value
  {
    if lo.Some? { OnePass(CheckExclusiveMinimum(lo.value), v); }
  }

  lemma ExclusiveMaximumAgrees(hi: Option<real>, v: Json)
    requires IsNumber(v)
    ensures AllPass(match hi case Some(b) => [CheckExclusiveMaximum(b)] case None => [], v) <==> hi.None? || AsF64(v).value < hi.value
  {
    if hi.Some? { OnePass(CheckExclusiveMaximum(hi.value), v); }
  }

  /** A number violates no bound exactly when it lies within each bound that is given. */
  lemma NumberIssuesEmpty(num: real, fields: seq<(string, Json)>)
    ensures NumberIssues(num, fields) == [] <==>
      (BoundKeyword(fields, "minimum").None? || num >= BoundKeyword(fields, "minimum").value) &&
      (BoundKeyword(fields, "maximum").None? || num <= BoundKeyword(fields, "maximum").value) &&
      (BoundKeyword(fields, "exclusiveMinimum").None? || num > BoundKeyword(fields, "exclusiveMinimum").value) &&
      (BoundKeyword(fields, "exclusiveMaximum").None? || num < BoundKeyword(fields, "exclusiveMaximum").value)
  {
  }

  /** Bound checks never fail on a value that is not a number. */
  lemma BoundChecksIgnoreOthers(fields: seq<(string, Json)>, v: Json)
    requires !IsNumber(v)
    ensures AllPass(BoundChecks(fields), v)
  {
    forall j | 0 <= j < |BoundChecks(fields)| ensures Violation(Full, BoundChecks(fields)[j], v).None? {
    }
  }

  /** The bound checks hold exactly when a number violates no bound; on other values they always hold. */
  lemma BoundChecksAgree(fields: seq<(string, Json)>, v: Json)
    ensures AllPass(BoundChecks(fields), v) <==> (IsNumber(v) ==> NumberIssues(AsF64(v).value, fields) == [])
  {
    if IsNumber(v) {
      var lo := BoundKeyword(fields, "minimum");
      var hi := BoundKeyword(fields, "maximum");
      var xlo := BoundKeyword(fields, "exclusiveMinimum");
      var xhi := BoundKeyword(fields, "exclusiveMaximum");
      var a := match lo case Some(b) => [CheckMinimum(b)] case None => [];
      var b := match hi case Some(b) => [CheckMaximum(b)] case None => [];
      var c := match xlo case Some(b) => [CheckExclusiveMinimum(b)] case None => [];
      var d := match xhi case Some(b) => [CheckExclusiveMaximum(b)] case None => [];
      assert BoundChecks(fields) == a + b + c + d;
      MinimumAgrees(lo, v);
      MaximumAgrees(hi, v);
      ExclusiveMinimumAgrees(xlo, v);
      ExclusiveMaximumAgrees(xhi, v);
      AllPassAppend(a + b + c, d, v);
      AllPassAppend(a + b, c, v);
      AllPassAppend(a, b, v);
      NumberIssuesEmpty(AsF64(v).value, fields);
    } else {
      BoundChecksIgnoreOthers(fields, v);
    }
  }

  /** The length checks hold exactly when a string violates neither length bound. */
  lemma LengthChecksAgree(fields: seq<(string, Json)>, v: Json)
    requires CountFits(fields, "minLength") && CountFits(fields, "maxLength")
    ensures AllPass(LengthChecks(fields), v) <==> (v.Str? ==> StringIssues(v.s, fields) == [])
  {
    var lo := CountKeyword(fields, "minLength");
    var hi := CountKeyword(fields, "maxLength");
    var a := match lo case Some(c) => [CheckMinLength(AsUsize(c))] case None => [];
    var b := match hi case Some(c) => [CheckMaxLength(AsUsize(c))] case None => [];
    assert LengthChecks(fields) == a + b;
    AllPassAppend(a, b, v);
    if lo.Some? { OnePass(CheckMinLength(AsUsize(lo.value)), v); }
    if hi.Some? { OnePass(CheckMaxLength(AsUsize(hi.value)), v); }
  }

  /** The item-count checks hold exactly when an array violates neither count bound. */
  lemma CountChecksAgree(fields: seq<(string, Json)>, v: Json)
    requires CountFits(fields, "minItems") && CountFits(fields, "maxItems")
    ensures AllPass(ItemCountChecks(fields), v) <==> (v.Arr? ==> CountIssues(|v.items|, fields) == [])
  {
    var lo := CountKeyword(fields, "minItems");
    var hi := CountKeyword(fields, "maxItems");
    var a := match lo case Some(c) => [CheckMinItems(AsUsize(c))] case None => [];
    var b := match hi case Some(c) => [CheckMaxItems(AsUsize(c))] case None => [];
    assert ItemCountChecks(fields) == a + b;
    AllPassAppend(a, b, v);
    if lo.Some? { OnePass(CheckMinItems(AsUsize(lo.value)), v); }
    if hi.Some? { OnePass(CheckMaxItems(AsUsize(hi.value)), v); }
  }

  /**
   * The checks the compiler emits for a schema hold exactly when the type
   * matches and the value violates none of the keywords of its own kind.
   */
  lemma KeywordChecksAgree(s: Json, v: Json)
    requires s.Obj? && CountsFit(s.fields) && !(Get(s.fields, "type").Some? && Get(s.fields, "type").value.Arr?)
    ensures AllPass(Lower(s).checks, v) <==>
      (Get(s.fields, "type").None? || ValidateType(v, Get(s.fields, "type").value)) &&
      (IsNumber(v) ==> NumberIssues(AsF64(v).value, s.fields) == []) &&
      (v.Str? ==> StringIssues(v.s, s.fields) == [])
    ensures AllPass(Lower(s).itemChecks, v) <==> (v.Arr? ==> CountIssues(|v.items|, s.fields) == [])
  {
    var fields := s.fields;
    TypeChecksAgree(fields, v);
    BoundChecksAgree(fields, v);
    LengthChecksAgree(fields, v);
    CountChecksAgree(fields, v);
    AllPassAppend(TypeChecks(fields) + BoundChecks(fields), LengthChecks(fields), v);
    AllPassAppend(TypeChecks(fields), BoundChecks(fields), v);
  }

  /**
   * On a schema both validators read the same way, `validate_against_schema`
   * succeeds exactly when the compiled schema accepts the value in
   * `execute_compiled`.
   */
  lemma {:induction false} InterpretedAgrees(v: Json, s: Json)
    requires Shared(s)
    ensures Interpret(v, s) == [] <==> Accepts(Full, Lower(s), v)
    decreases s, 2
  {
    match s
    case Obj(fields) =>
      var n := Lower(s);
      KeywordChecksAgree(s, v);
      InterpretSplit(v, s);
      AcceptsSplit(n, v);
      if Get(fields, "type").None? || ValidateType(v, Get(fields, "type").value) {
        if v.Obj? {
          ObjectAgrees(v, s);
        } else {
          PropertiesNeedObjects(s, v);
        }
        if v.Arr? {
          ItemsAgree(v, s);
          assert Elements(v) == v.items;
        } else {
          assert Elements(v) == [];
        }
      }
    case _ =>
  }

  /** A compiled node accepts exactly when its checks pass, its properties are satisfied and its elements accepted. */
  lemma AcceptsSplit(n: Node, v: Json)
    ensures Accepts(Full, n, v) <==>
      AllPass(n.checks, v) && AllPass(n.itemChecks, v) &&
      (n.properties.Properties? ==>
        forall j :: 0 <= j < |n.properties.list| ==> PropAccepts(Full, n, n.properties.list[j], v)) &&
      (n.items.Some? ==> forall j :: 0 <= j < |Elements(v)| ==> Accepts(Full, n.items.value, Elements(v)[j]))
  {
  }

  /** The interpreted validator finds nothing exactly when the type matches and the keywords of the value's kind find nothing. */
  lemma InterpretSplit(v: Json, s: Json)
    requires s.Obj?
    ensures Interpret(v, s) == [] <==>
      (Get(s.fields, "type").None? || ValidateType(v, Get(s.fields, "type").value)) &&
      (IsNumber(v) ==> NumberIssues(AsF64(v).value, s.fields) == []) &&
      (v.Str? ==> StringIssues(v.s, s.fields) == []) &&
      (v.Obj? ==> ObjectIssues(v.fields, s) == []) &&
      (v.Arr? ==> ItemIssues(v.items, s) == [] && CountIssues(|v.items|, s.fields) == [])
  {
  }

  /** Where `properties` is an object, `type` is `object`, so on any other value whose type matches there are no properties to check. */
  lemma PropertiesNeedObjects(s: Json, v: Json)
    requires Shared(s) && s.Obj? && !v.Obj?
    requires Get(s.fields, "type").None? || ValidateType(v, Get(s.fields, "type").value)
    ensures Lower(s).properties == NoProperties
  {
    if PropertyFields(s.fields).Some? {
      assert Get(s.fields, "type") == Some(Str("object"));
      assert ParseTypeTag("object") == Some(ObjectTag);
    }
  }

  /** For an object value whose type passes: the required and listed properties are satisfied exactly when the compiled ones are. */
  lemma {:induction false} ObjectAgrees(v: Json, s: Json)
    requires Shared(s) && s.Obj? && v.Obj?
    ensures ObjectIssues(v.fields, s) == [] <==>
      (Lower(s).properties.Properties? ==>
        forall j :: 0 <= j < |Lower(s).properties.list| ==> PropAccepts(Full, Lower(s), Lower(s).properties.list[j], v))
    decreases s, 1
  {
    var fields := s.fields;
    var req := RequiredNames(fields);
    var missing := match Get(fields, "required") case Some(Arr(r)) => MissingIssues(v.fields, r, 0) case _ => [];
    assert missing == [] <==> forall name :: name in req ==> HasKey(v.fields, name) by {
      match Get(fields, "required")
      case Some(Arr(r)) =>
        MissingIssuesExact(v.fields, r, 0);
        if missing == [] {
          forall name | name in req ensures HasKey(v.fields, name) {
            var j :| 0 <= j < |r| && r[j].Str? && r[j].s == name;
          }
        } else {
          var j :| 0 <= j < |r| && r[j].Str? && !HasKey(v.fields, r[j].s);
          assert r[j].s in req;
        }
      case _ =>
    }
    LowerReadsKeywords(s);
    match PropertyFields(fields)
    case None =>
      assert req == {};
    case Some(ps) =>
      var list := Lower(s).properties.list;
      PropsAgree(v, s, ps);
      assert |list| == |ps|;
      if ObjectIssues(v.fields, s) == [] {
        forall j | 0 <= j < |list| ensures PropAccepts(Full, Lower(s), list[j], v) {
          if list[j].required {
            assert list[j].key in req;
          }
        }
      } else if missing != [] {
        var name :| name in req && !HasKey(v.fields, name);
        var i :| 0 <= i < |ps| && ps[i].0 == name;
        assert list[i].key == name && list[i].required;
        assert !PropAccepts(Full, Lower(s), list[i], v);
      }
  }

  /** The findings of the listed properties `ps[i..]` are empty exactly when each present one has none of its own. */
  lemma {:induction false} PropIssuesExact(obj: seq<(string, Json)>, s: Json, ps: seq<(string, Json)>, i: nat)
    requires s.Obj? && Get(s.fields, "properties") == Some(Obj(ps)) && i <= |ps|
    ensures PropIssues(obj, s, ps, i) == [] <==>
      forall j :: i <= j < |ps| && HasKey(obj, ps[j].0) ==> Interpret(Get(obj, ps[j].0).value, ps[j].1) == []
    decreases |ps| - i
  {
    if i < |ps| {
      PropIssuesExact(obj, s, ps, i + 1);
      var rest := PropIssues(obj, s, ps, i + 1);
      match Get(obj, ps[i].0)
      case Some(x) =>
        var here := Under(Key(ps[i].0), Interpret(x, ps[i].1));
        assert PropIssues(obj, s, ps, i) == here + rest;
        assert here == [] <==> Interpret(x, ps[i].1) == [];
      case None =>
        assert PropIssues(obj, s, ps, i) == rest;
    }
  }

  /** `SharedProps` from index `i` holds of every property schema from `i` on. */
  lemma {:induction false} SharedPropsEach(s: Json, i: nat)
    requires s.Obj? && PropertyFields(s.fields).Some? && SharedProps(s, i)
    ensures forall j :: i <= j < |PropertyFields(s.fields).value| ==> Shared(PropertyFields(s.fields).value[j].1)
    decreases |PropertyFields(s.fields).value| - i
  {
    if i < |PropertyFields(s.fields).value| {
      SharedPropsEach(s, i + 1);
    }
  }

  /** The listed properties' findings are empty exactly when each present one is accepted by its compiled schema. */
  lemma PropsAgree(v: Json, s: Json, ps: seq<(string, Json)>)
    requires s.Obj? && v.Obj? && Get(s.fields, "properties") == Some(Obj(ps))
    requires SharedProps(s, 0)
    ensures PropIssues(v.fields, s, ps, 0) == [] <==>
      forall j :: 0 <= j < |ps| && HasKey(v.fields, ps[j].0) ==>
        Accepts(Full, Lower(ps[j].1), Get(v.fields, ps[j].0).value)
    decreases s, 0
  {
    PropIssuesExact(v.fields, s, ps, 0);
    SharedPropsEach(s, 0);
    forall j | 0 <= j < |ps| && HasKey(v.fields, ps[j].0)
      ensures Interpret(Get(v.fields, ps[j].0).value, ps[j].1) == [] <==>
        Accepts(Full, Lower(ps[j].1), Get(v.fields, ps[j].0).value)
    {
      InterpretedAgrees(Get(v.fields, ps[j].0).value, ps[j].1);
    }
  }

  /** For an array value: the element findings are empty exactly when every element is accepted by the compiled item schema. */
  lemma {:induction false} ItemsAgree(v: Json, s: Json)
    requires Shared(s) && s.Obj? && v.Arr?
    ensures ItemIssues(v.items, s) == [] <==>
      (Lower(s).items.Some? ==> forall j :: 0 <= j < |v.items| ==> Accepts(Full, Lower(s).items.value, v.items[j]))
    decreases s, 1
  {
    match Get(s.fields, "items")
    case Some(item) =>
      ElementIssuesExact(v.items, s, item, 0);
      forall j | 0 <= j < |v.items| ensures Interpret(v.items[j], item) == [] <==> Accepts(Full, Lower(item), v.items[j]) {
        InterpretedAgrees(v.items[j], item);
      }
    case None =>
  }

  /** The findings of the elements `xs[idx..]` are empty exactly when each element has none of its own. */
  lemma {:induction false} ElementIssuesExact(xs: seq<Json>, s: Json, item: Json, idx: nat)
    requires s.Obj? && Get(s.fields, "items") == Some(item) && idx <= |xs|
    ensures ElementIssues(xs, s, item, idx) == [] <==> forall j :: idx <= j < |xs| ==> Interpret(xs[j], item) == []
    decreases |xs| - idx
  {
    if idx < |xs| {
      ElementIssuesExact(xs, s, item, idx + 1);
      var here := Under(Index(idx), Interpret(xs[idx], item));
      assert ElementIssues(xs, s, item, idx) == here + ElementIssues(xs, s, item, idx + 1);
      assert here == [] <==> Interpret(xs[idx], item) == [];
    }
  }

  /**
   * A list of type names is one of the differences: `["string", "null"]`
   * rejects the integer 1 in the interpreted validator, while the compiler
   * does not read a `type` that is not a string and so accepts it.
   */
  lemma UnionTypeDiffers()
    ensures var s := Obj([("type", Arr([Str("string"), Str("null")]))]);
      Interpret(Int(1), s) != [] && Accepts(Full, Lower(s), Int(1))
  {
    var s := Obj([("type", Arr([Str("string"), Str("null")]))]);
    var t := Arr([Str("string"), Str("null")]);
    assert Get(s.fields, "type") == Some(t);
    assert !AnyType(Int(1), t, 0) by {
      assert !ValidateType(Int(1), Str("string"));
      assert !ValidateType(Int(1), Str("null"));
      assert AnyType(Int(1), t, 0) == (ValidateType(Int(1), Str("string")) || AnyType(Int(1), t, 1));
      assert AnyType(Int(1), t, 1) == (ValidateType(Int(1), Str("null")) || AnyType(Int(1), t, 2));
    }
    assert Lower(s).checks == [];
  }

  /**
   * A count of 2^32 or more is another: `maxLength` 2^32 becomes
   * `CheckMaxLength(0)` once cast to a 32-bit `usize`, so the compiled engine
   * rejects the one-character string the interpreted validator accepts.
   */
  lemma WideCountDiffers()
    ensures var s := Obj([("maxLength", Int(USIZE_MODULUS))]);
      Lower(s).checks == [CheckMaxLength(0)] &&
      Interpret(Str("a"), s) == [] && !Accepts(Full, Lower(s), Str("a"))
  {
    var s := Obj([("maxLength", Int(USIZE_MODULUS))]);
    GetSingle("maxLength", Int(USIZE_MODULUS), "maxLength");
    GetSingle("maxLength", Int(USIZE_MODULUS), "minLength");
    GetSingle("maxLength", Int(USIZE_MODULUS), "type");
    assert CountKeyword(s.fields, "maxLength") == Some(USIZE_MODULUS);
    assert Lower(s).checks == [CheckMaxLength(0)];
    assert Violation(Full, Lower(s).checks[0], Str("a")).Some?;
  }

  /**
   * `properties` on a value that is not an object is another: the compiled
   * engine runs the property schema against the value itself.
   */
  lemma PropertiesOnNonObjectDiffer()
    ensures var s := Obj([("properties", Obj([("a", Obj([("type", Str("string"))]))]))]);
      Interpret(Int(1), s) == [] && !Accepts(Full, Lower(s), Int(1))
  {
    var inner := Obj([("type", Str("string"))]);
    var s := Obj([("properties", Obj([("a", inner)]))]);
    GetSingle("properties", Obj([("a", inner)]), "type");
    GetSingle("properties", Obj([("a", inner)]), "properties");
    GetSingle("type", Str("string"), "type");
    LowerReadsKeywords(s);
    LowerReadsKeywords(inner);
    var n := Lower(s);
    assert n.properties.Properties? && |n.properties.list| == 1;
    var p := n.properties.list[0];
    assert p.schema == Lower(inner);
    assert CheckType(StringTag) in p.schema.checks;
    assert !Accepts(Full, p.schema, Int(1));
    assert !PropAccepts(Full, n, p, Int(1));
  }
}
