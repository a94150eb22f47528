/**
 Float32Array writes as the source performs them. A typed array never grows:
 a write past its end is dropped without an error.
 */
module Buffers {

  /** `a[i] = x` on a typed array. */
  function Store(a: seq<real>, i: nat, x: real): (r: seq<real>)
    ensures |r| == |a|
    ensures forall j :: 0 <= j < |a| ==> r[j] == (if j == i then x else a[j])
  {
    if i < |a| then a[i := x] else a
  }
}
