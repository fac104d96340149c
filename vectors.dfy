/**
 * Value semantics of the two `std::vector` operations a map is built from:
 * construction with an element count, and `resize`. Both value-initialize
 * every element they add; the caller passes that initial value explicitly.
 */
module Vectors {

  /** `std::vector<T> v(n)`: `n` copies of the value-initialized element. */
  function Filled<T>(n: nat, init: T): (r: seq<T>)
    ensures |r| == n
    ensures forall i :: 0 <= i < n ==> r[i] == init
  {
    seq(n, _ => init)
  }

  /**
   * `v.resize(n)`: the result has exactly `n` elements; the elements `v`
   * already had below `n` are kept, and every position past the end of `v`
   * holds the value-initialized element.
   */
  function Resize<T>(v: seq<T>, n: nat, init: T): (r: seq<T>)
    ensures |r| == n
    ensures forall i :: 0 <= i < n && i < |v| ==> r[i] == v[i]
    ensures forall i :: |v| <= i < n ==> r[i] == init
  {
    if n <= |v| then v[..n] else v + Filled(n - |v|, init)
  }

  /** Resizing a vector to the length it already has leaves it as it was. */
  lemma ResizeToOwnLength<T>(v: seq<T>, init: T)
    ensures Resize(v, |v|, init) == v
  {
  }

  /**
   * The effect of walking a vector of vectors from `begin()` to `end()` and
   * resizing each element to `n`: as many rows as before, row `i` being
   * row `i` resized.
   */
  function ResizeAll<T>(rows: seq<seq<T>>, n: nat, init: T): (r: seq<seq<T>>)
    ensures |r| == |rows|
    ensures forall i :: 0 <= i < |rows| ==> r[i] == Resize(rows[i], n, init)
  {
    if rows == [] then [] else [Resize(rows[0], n, init)] + ResizeAll(rows[1..], n, init)
  }

  /** Resizing one more row at the end extends the result by that row, resized. */
  lemma ResizeAllAppend<T>(rows: seq<seq<T>>, row: seq<T>, n: nat, init: T)
    ensures ResizeAll(rows + [row], n, init) == ResizeAll(rows, n, init) + [Resize(row, n, init)]
  {
  }
}
