/**
 * The `Vector` record of vector.h and the operations declared beside it.
 * A vector is a value: `add` and `multiplyScalar` return new vectors, and
 * only the `centroid` label of a point is ever changed, by replacing the
 * array element that holds it.
 */
module Vectors {
  import opened Wrappers

  /** A d-dimensional point or centroid and the index of the centroid it is assigned to. */
  datatype Vector = Vector(dimension: int, components: seq<real>, centroid: int)

  /** The label of a vector that is assigned to no centroid. */
  const Unassigned: int := -1

  /** The recorded dimension is the number of components. */
  predicate WellFormed(v: Vector) {
    v.dimension == |v.components|
  }

  /** Every vector of `vs` is well formed and of dimension `d`. */
  predicate Shaped(vs: seq<Vector>, d: int) {
    forall i | 0 <= i < |vs| :: vs[i].dimension == d && |vs[i].components| == d
  }

  function Zeros(d: nat): seq<real> {
    seq(d, _ => 0.0)
  }

  function Plus(a: seq<real>, b: seq<real>): seq<real>
    requires |a| == |b|
  {
    seq(|a|, i requires 0 <= i < |a| => a[i] + b[i])
  }

  function Times(a: seq<real>, scalar: real): seq<real> {
    seq(|a|, i requires 0 <= i < |a| => a[i] * scalar)
  }

  /**
   * `createVector(dimension, values)`: the given values, or the zero vector
   * when `values` is NULL (the accumulator of the centroid update), unassigned.
   */
  function CreateVector(dimension: nat, values: Option<seq<real>>): (v: Vector)
    requires values.Some? ==> |values.value| == dimension
    ensures WellFormed(v) && v.dimension == dimension && v.centroid == Unassigned
    ensures values.Some? ==> v.components == values.value
    ensures values.None? ==> forall i | 0 <= i < dimension :: v.components[i] == 0.0
  {
    Vector(dimension, if values.Some? then values.value else Zeros(dimension), Unassigned)
  }

  /** `add(vec1, vec2)`: the component-wise sum, a fresh unassigned vector. */
  function Add(a: Vector, b: Vector): (r: Vector)
    requires |a.components| == |b.components|
    ensures r.dimension == a.dimension && |r.components| == |a.components| && r.centroid == Unassigned
    ensures forall i | 0 <= i < |a.components| :: r.components[i] == a.components[i] + b.components[i]
  {
    Vector(a.dimension, Plus(a.components, b.components), Unassigned)
  }

  /** `multiplyScalar(vec, scalar)`: every component times `scalar`, a fresh unassigned vector. */
  function MultiplyScalar(v: Vector, scalar: real): (r: Vector)
    ensures r.dimension == v.dimension && |r.components| == |v.components| && r.centroid == Unassigned
    ensures forall i | 0 <= i < |v.components| :: r.components[i] == v.components[i] * scalar
  {
    Vector(v.dimension, Times(v.components, scalar), Unassigned)
  }

  /** A product of two positive numbers is positive. */
  lemma ProductPositive(x: real, y: real, product: real)
    requires 0.0 < x && 0.0 < y && product == x * y
    ensures 0.0 < product
  {
  }

  /** The square of `x`: never negative, and zero only for zero. */
  function Square(x: real): (r: real)
    ensures r >= 0.0
    ensures x != 0.0 ==> r > 0.0
  {
    var square := x * x;
    SquareSign(x, square);
    square
  }

  lemma SquareSign(x: real, square: real)
    requires square == x * x
    ensures square >= 0.0
    ensures x != 0.0 ==> square > 0.0
  {
    if x > 0.0 {
      ProductPositive(x, x, square);
    } else if x < 0.0 {
      ProductPositive(-x, -x, square);
    }
  }

  /**
   * The square of `euclidean_distance`. The C code only ever compares
   * distances with `<`, and the square root is strictly monotone on
   * non-negative numbers, so comparing squares decides the same way.
   */
  function SquaredDistance(a: seq<real>, b: seq<real>): (r: real)
    requires |a| == |b|
    ensures r >= 0.0
    decreases |a|
  {
    if |a| == 0 then 0.0 else Square(a[0] - b[0]) + SquaredDistance(a[1..], b[1..])
  }

  /** Distance zero means the two vectors coincide, and only then. */
  lemma {:induction false} SquaredDistanceZero(a: seq<real>, b: seq<real>)
    requires |a| == |b|
    ensures SquaredDistance(a, b) == 0.0 <==> a == b
    decreases |a|
  {
    if |a| > 0 {
      SquaredDistanceZero(a[1..], b[1..]);
      assert a == [a[0]] + a[1..] && b == [b[0]] + b[1..];
    }
  }

  /** The zero vector made by `createVector(d, NULL)` is a neutral accumulator for `add`. */
  lemma AddZero(v: Vector)
    requires WellFormed(v) && v.dimension >= 0
    ensures Add(v, CreateVector(v.dimension, None)).components == v.components
  {
  }

  /** Scaling by one gives back the components, and two scalings are one scaling by the product. */
  lemma MultiplyScalarComposes(v: Vector, s: real, t: real)
    ensures MultiplyScalar(v, 1.0).components == v.components
    ensures MultiplyScalar(MultiplyScalar(v, s), t).components == MultiplyScalar(v, s * t).components
  {
    var twice := MultiplyScalar(MultiplyScalar(v, s), t).components;
    var once := MultiplyScalar(v, s * t).components;
    forall i | 0 <= i < |v.components|
      ensures twice[i] == once[i]
    {
      assert twice[i] == v.components[i] * s * t;
    }
    assert twice == once;
  }

  /** Scaling distributes over `add`: a scaled sum is the sum of the scaled vectors. */
  lemma MultiplyScalarDistributes(a: Vector, b: Vector, s: real)
    requires |a.components| == |b.components|
    ensures MultiplyScalar(Add(a, b), s).components == Add(MultiplyScalar(a, s), MultiplyScalar(b, s)).components
  {
    var scaledSum := MultiplyScalar(Add(a, b), s).components;
    var sumOfScaled := Add(MultiplyScalar(a, s), MultiplyScalar(b, s)).components;
    forall i | 0 <= i < |a.components|
      ensures scaledSum[i] == sumOfScaled[i]
    {
      assert scaledSum[i] == (a.components[i] + b.components[i]) * s;
    }
    assert scaledSum == sumOfScaled;
  }

  /** `add` does not depend on the order of its operands' components. */
  lemma AddCommutes(a: Vector, b: Vector)
    requires |a.components| == |b.components|
    ensures Add(a, b).components == Add(b, a).components
  {
  }

  /** Distance is symmetric. */
  lemma {:induction false} SquaredDistanceSymmetric(a: seq<real>, b: seq<real>)
    requires |a| == |b|
    ensures SquaredDistance(a, b) == SquaredDistance(b, a)
    decreases |a|
  {
    if |a| > 0 {
      SquaredDistanceSymmetric(a[1..], b[1..]);
      assert Square(a[0] - b[0]) == Square(b[0] - a[0]);
    }
  }
}
