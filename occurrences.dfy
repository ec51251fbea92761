/** Where one sequence occurs inside another. */
module Occurrences {
  /** Index `i` of an occurrence that starts at `j`. */
  function Offset(j: nat, i: nat): nat
  {
    j + i
  }

  /**
   * `s` occurs in `xs` starting at index `j`. (The elements are only looked
   * at through `Offset`, so that they are compared only where a proof asks.)
   */
  predicate Occurs<T(==)>(xs: seq<T>, j: nat, s: seq<T>)
  {
    j + |s| <= |xs| && forall i {:trigger Offset(j, i)} :: 0 <= i < |s| ==> xs[Offset(j, i)] == s[i]
  }
}
