/**
 The initial contents of the two simulation textures, written by
 `fillPositionTexture` and `fillVelocityTexture` in src/scripts/Birds.js.

 A texture's data is a flat RGBA Float32Array, four floats per texel. Both
 fills walk it with a stride of 4, draw three numbers from `Math.random` per
 texel (for x, y and z, in that order) and set alpha to 1. The random source
 is a parameter: the sequence of values the calls return, each in [0, 1).
 */
module Textures {

  import opened Buffers

  /** World size of the flock (Birds.js lines 115-116). */
  const Bounds: real := 800.0
  const BoundsHalf: real := Bounds / 2.0

  /** Values `Math.random` can return. */
  predicate UnitSamples(rand: seq<real>) {
    forall i :: 0 <= i < |rand| ==> 0.0 <= rand[i] < 1.0
  }

  /** Number of iterations of `for (k = 0; k < n; k += 4)`. */
  function TexelCount(n: nat): nat { (n + 3) / 4 }

  /** Entry `j` of a filled texture: alpha is 1, every other channel is the
      component map applied to the random draw made for it. */
  function Filled(rand: seq<real>, component: real -> real, j: nat): real
    requires 3 * (j / 4) + 2 < |rand|
  {
    if j % 4 == 3 then 1.0 else component(rand[3 * (j / 4) + j % 4])
  }

  /** The shared shape of both fills. A trailing partial texel, which the
      source's textures never have, loses the writes past the end. */
  method FillTexture(data: seq<real>, rand: seq<real>, component: real -> real) returns (r: seq<real>)
    requires 3 * TexelCount(|data|) <= |rand|
    ensures |r| == |data|
    ensures forall j :: 0 <= j < |r| ==> r[j] == Filled(rand, component, j)
  {
    r := data;
    var k, t := 0, 0;
    while k < |data|
      invariant k == 4 * t
      invariant t <= TexelCount(|data|)
      invariant |r| == |data|
      invariant forall j :: 0 <= j < |r| ==> r[j] == (if j < k then Filled(rand, component, j) else data[j])
    {
      var x := component(rand[3 * t]);
      var y := component(rand[3 * t + 1]);
      var z := component(rand[3 * t + 2]);
      r := Store(r, k + 0, x);
      r := Store(r, k + 1, y);
      r := Store(r, k + 2, z);
      r := Store(r, k + 3, 1.0);
      k, t := k + 4, t + 1;
    }
  }

  /** `Math.random() * BOUNDS - BOUNDS_HALF`. */
  function PositionComponent(x: real): real { x * Bounds - BoundsHalf }

  /** `(Math.random() - 0.5) * 10`. */
  function VelocityComponent(x: real): real { (x - 0.5) * 10.0 }

  /** `fillPositionTexture`: every position channel lies in the cube
      [-400, 400)^3 and every alpha is 1. */
  method FillPositionTexture(data: seq<real>, rand: seq<real>) returns (r: seq<real>)
    requires UnitSamples(rand) && 3 * TexelCount(|data|) <= |rand|
    ensures |r| == |data|
    ensures forall j :: 0 <= j < |r| && j % 4 == 3 ==> r[j] == 1.0
    ensures forall j :: 0 <= j < |r| && j % 4 < 3 ==>
      r[j] == rand[3 * (j / 4) + j % 4] * Bounds - BoundsHalf
    ensures forall j :: 0 <= j < |r| && j % 4 < 3 ==> -BoundsHalf <= r[j] < BoundsHalf
  {
    r := FillTexture(data, rand, PositionComponent);
  }

  /** `fillVelocityTexture`: every velocity channel lies in [-5, 5) and every
      alpha is 1. */
  method FillVelocityTexture(data: seq<real>, rand: seq<real>) returns (r: seq<real>)
    requires UnitSamples(rand) && 3 * TexelCount(|data|) <= |rand|
    ensures |r| == |data|
    ensures forall j :: 0 <= j < |r| && j % 4 == 3 ==> r[j] == 1.0
    ensures forall j :: 0 <= j < |r| && j % 4 < 3 ==> r[j] == (rand[3 * (j / 4) + j % 4] - 0.5) * 10.0
    ensures forall j :: 0 <= j < |r| && j % 4 < 3 ==> -5.0 <= r[j] < 5.0
  {
    r := FillTexture(data, rand, VelocityComponent);
  }

  /** Position components of the initial state cover exactly the interval
      [-BOUNDS/2, BOUNDS/2): every value there is reached by some draw. */
  lemma PositionComponentOnto(p: real)
    requires -BoundsHalf <= p < BoundsHalf
    ensures 0.0 <= (p + BoundsHalf) / Bounds < 1.0
    ensures PositionComponent((p + BoundsHalf) / Bounds) == p
  {
  }

  /** Velocity components of the initial state cover exactly [-5, 5). */
  lemma VelocityComponentOnto(u: real)
    requires -5.0 <= u < 5.0
    ensures 0.0 <= u / 10.0 + 0.5 < 1.0
    ensures VelocityComponent(u / 10.0 + 0.5) == u
  {
  }
}
