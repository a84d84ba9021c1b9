/** Element-wise arithmetic on real vectors: the tensor operations the update
    rules are written with (sum, difference, scaling by a scalar, and the
    zero-filled array that initialises velocities). */
module Vectors {

  type Vector = seq<real>

  /** The zero-filled vector of length n (np.zeros of the weights' shape). */
  function Zeros(n: nat): (z: Vector)
    ensures |z| == n
    ensures forall i :: 0 <= i < n ==> z[i] == 0.0
  {
    seq(n, i => 0.0)
  }

  predicate IsZero(v: Vector) {
    forall i :: 0 <= i < |v| ==> v[i] == 0.0
  }

  function Add(a: Vector, b: Vector): Vector
    requires |a| == |b|
  {
    seq(|a|, i requires 0 <= i < |a| => a[i] + b[i])
  }

  function Sub(a: Vector, b: Vector): Vector
    requires |a| == |b|
  {
    seq(|a|, i requires 0 <= i < |a| => a[i] - b[i])
  }

  function Scale(c: real, a: Vector): Vector {
    seq(|a|, i requires 0 <= i < |a| => c * a[i])
  }
}
