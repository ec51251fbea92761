/**
 * JSON values as serde_json represents them, with the few accessors the
 * validators use: field lookup, insertion into an object, the numeric views
 * `as_i64`/`as_u64`/`as_f64`, and the UTF-8 byte length of a string.
 */
module JsonValues {
  import opened Wrappers

  /**
   * A JSON value. `Int` is a number serde_json stores as an integer (one that
   * fits an i64 or a u64); `Float` is a number stored as an f64, even when its
   * value is whole (`3.0`). An object is an association list of fields;
   * lookups use the first field with a given key.
   */
  datatype Json =
    | Null
    | Bool(b: bool)
    | Int(i: int)
    | Float(r: real)
    | Str(s: string)
    | Arr(items: seq<Json>)
    | Obj(fields: seq<(string, Json)>)

  const I64_MIN: int := -0x8000_0000_0000_0000
  const I64_MAX: int := 0x7FFF_FFFF_FFFF_FFFF
  const U64_MAX: int := 0xFFFF_FFFF_FFFF_FFFF

  /** Index of the first field named `k`, if any. */
  function Lookup(fields: seq<(string, Json)>, k: string): (r: Option<nat>)
    ensures r.Some? ==> r.value < |fields| && fields[r.value].0 == k
  {
    LookupFrom(fields, k, 0)
  }

  /** Index of the first field named `k` at or after index `i`, if any. */
  function LookupFrom(fields: seq<(string, Json)>, k: string, i: nat): (r: Option<nat>)
    requires i <= |fields|
    ensures r.Some? ==> i <= r.value < |fields| && fields[r.value].0 == k
    decreases |fields| - i
  {
    if i == |fields| then None
    else if fields[i].0 == k then Some(i)
    else LookupFrom(fields, k, i + 1)
  }

  /** `LookupFrom` finds the first field named `k` from index `i` on, and none exactly when no such field follows. */
  lemma {:induction false} LookupFromFirst(fields: seq<(string, Json)>, k: string, i: nat)
    requires i <= |fields|
    ensures LookupFrom(fields, k, i).Some? ==> forall j :: i <= j < LookupFrom(fields, k, i).value ==> fields[j].0 != k
    ensures LookupFrom(fields, k, i).None? ==> forall j :: i <= j < |fields| ==> fields[j].0 != k
    decreases |fields| - i
  {
    if i < |fields| && fields[i].0 != k {
      LookupFromFirst(fields, k, i + 1);
    }
  }

  /** `Lookup` finds the first field named `k`, and finds none exactly when no field is named `k`. */
  lemma LookupFirst(fields: seq<(string, Json)>, k: string)
    ensures Lookup(fields, k).Some? ==> forall j :: 0 <= j < Lookup(fields, k).value ==> fields[j].0 != k
    ensures Lookup(fields, k).None? ==> forall j :: 0 <= j < |fields| ==> fields[j].0 != k
  {
    LookupFromFirst(fields, k, 0);
  }

  /** Two field lists with the same key at every position locate every key at the same index. */
  lemma LookupSameKeys(f: seq<(string, Json)>, g: seq<(string, Json)>, k: string)
    requires |f| == |g|
    requires forall j :: 0 <= j < |f| ==> f[j].0 == g[j].0
    ensures Lookup(f, k) == Lookup(g, k)
  {
    LookupFirst(f, k);
    LookupFirst(g, k);
  }

  /** `Map::get`: the value of the first field named `k`. */
  function Get(fields: seq<(string, Json)>, k: string): Option<Json>
  {
    match Lookup(fields, k)
    case None => None
    case Some(i) => Some(fields[i].1)
  }

  /** The field of an object with a single field. */
  lemma GetSingle(k: string, x: Json, key: string)
    ensures Get([(k, x)], key) == if k == key then Some(x) else None
  {
    assert LookupFrom([(k, x)], key, 0) == if k == key then Some(0) else LookupFrom([(k, x)], key, 1);
  }

  /** `Map::contains_key`. */
  predicate HasKey(fields: seq<(string, Json)>, k: string)
  {
    Lookup(fields, k).Some?
  }

  /**
   * `Map::insert`: replaces the value of an existing key in place, or appends
   * a new field (a sorted map would place it in key order; lookups agree).
   */
  function Insert(fields: seq<(string, Json)>, k: string, x: Json): (r: seq<(string, Json)>)
    ensures Get(r, k) == Some(x)
    ensures forall k' :: k' != k ==> Get(r, k') == Get(fields, k')
  {
    match Lookup(fields, k)
    case Some(i) =>
      var r := fields[i := (k, x)];
      assert forall k' :: k' != k ==> Get(r, k') == Get(fields, k') by {
        forall k' | k' != k ensures Get(r, k') == Get(fields, k') {
          LookupSameKeys(r, fields, k');
        }
      }
      LookupSameKeys(r, fields, k);
      r
    case None =>
      var r := fields + [(k, x)];
      assert forall k' :: k' != k ==> Get(r, k') == Get(fields, k') by {
        forall k' | k' != k ensures Get(r, k') == Get(fields, k') {
          LookupFirst(r, k');
          LookupFirst(fields, k');
          var a := Lookup(r, k');
          var b := Lookup(fields, k');
          if a.Some? && a.value < |fields| {
            assert fields[a.value].0 == k';
          }
          if b.Some? {
            assert r[b.value].0 == k';
          }
        }
      }
      LookupFirst(r, k);
      LookupFirst(fields, k);
      assert r[|fields|].0 == k;
      r
  }

  /** serde_json's `is_number`. */
  predicate IsNumber(v: Json)
  {
    v.Int? || v.Float?
  }

  /** serde_json's `is_i64() || is_u64()`: an integer-tagged number within the i64 or u64 range. */
  predicate IsInteger(v: Json)
  {
    v.Int? && I64_MIN <= v.i <= U64_MAX
  }

  /** serde_json's `as_i64`. */
  function AsI64(v: Json): Option<int>
  {
    if v.Int? && I64_MIN <= v.i <= I64_MAX then Some(v.i) else None
  }

  /** serde_json's `as_u64`. */
  function AsU64(v: Json): Option<int>
  {
    if v.Int? && 0 <= v.i <= U64_MAX then Some(v.i) else None
  }

  /** serde_json's `as_f64`, on exact reals (f64 rounding is not modelled). */
  function AsF64(v: Json): Option<real>
  {
    match v
    case Int(i) => Some(i as real)
    case Float(r) => Some(r)
    case _ => None
  }

  /** Number of bytes the UTF-8 encoding of `c` takes. */
  function Utf8Width(c: char): nat
  {
    if c as int < 0x80 then 1
    else if c as int < 0x800 then 2
    else if c as int < 0x1_0000 then 3
    else 4
  }

  predicate IsAscii(s: string)
  {
    forall i :: 0 <= i < |s| ==> s[i] as int < 0x80
  }

  /**
   * Rust's `str::len`: the length of `s` in UTF-8 bytes. It is never less
   * than the number of characters, and equals it exactly for ASCII text.
   */
  function Utf8Len(s: string): (n: nat)
    ensures n >= |s|
    ensures n == |s| <==> IsAscii(s)
  {
    Utf8LenFrom(s, 0)
  }

  /** The UTF-8 length of the characters of `s` from index `i` on. */
  function Utf8LenFrom(s: string, i: nat): (n: nat)
    requires i <= |s|
    ensures n >= |s| - i
    ensures n == |s| - i <==> forall j :: i <= j < |s| ==> s[j] as int < 0x80
    decreases |s| - i
  {
    if i == |s| then 0 else Utf8Width(s[i]) + Utf8LenFrom(s, i + 1)
  }

  /** Decimal rendering of a natural number, as `format!("{}", n)` prints it. */
  function NatToString(n: nat): string
  {
    if n < 10 then [Digit(n)] else NatToString(n / 10) + [Digit(n % 10)]
  }

  function Digit(d: nat): char
    requires d < 10
  {
    ['0', '1', '2', '3', '4', '5', '6', '7', '8', '9'][d]
  }
}
