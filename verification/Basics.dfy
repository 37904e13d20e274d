/** Small types and functions that several models share. */
module Basics {

  datatype Option<+T> = None | Some(value: T)

  /** A sequence without the element at i. */
  function Without<T>(q: seq<T>, i: nat): (r: seq<T>)
    requires i < |q|
    ensures |r| == |q| - 1
    ensures forall j :: 0 <= j < i ==> r[j] == q[j]
    ensures forall j :: i <= j < |r| ==> r[j] == q[j + 1]
  {
    q[..i] + q[i + 1..]
  }

  /** The first index at which a value occurs, or the sequence's length. */
  function IndexOf<T(==)>(q: seq<T>, x: T): (i: nat)
    ensures i <= |q|
    ensures i < |q| ==> q[i] == x
    ensures forall j :: 0 <= j < i ==> q[j] != x
  {
    if q == [] || q[0] == x then 0 else 1 + IndexOf(q[1..], x)
  }
}
