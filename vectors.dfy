/**
  Three-component vectors over the reals: the part of glam's `Vec3` that the
  flock uses (sum, difference, scaling, division by a scalar, length and
  `clamp_length_max`). The square root behind `length()` is foreign code; it is
  a parameter `sqrt` of the members that need it, constrained by `IsSqrt`.
*/
module Vectors {

  datatype Vec3 = Vec3(x: real, y: real, z: real)

  const Zero: Vec3 := Vec3(0.0, 0.0, 0.0)

  function Add(a: Vec3, b: Vec3): Vec3 {
    Vec3(a.x + b.x, a.y + b.y, a.z + b.z)
  }

  lemma AddZero(a: Vec3)
    ensures Add(Zero, a) == a
  {
  }

  function Sub(a: Vec3, b: Vec3): Vec3 {
    Vec3(a.x - b.x, a.y - b.y, a.z - b.z)
  }

  function Neg(a: Vec3): Vec3 {
    Vec3(-a.x, -a.y, -a.z)
  }

  function Scale(a: Vec3, k: real): Vec3 {
    Vec3(a.x * k, a.y * k, a.z * k)
  }

  function Div(a: Vec3, d: real): Vec3
    requires d != 0.0
  {
    Vec3(a.x / d, a.y / d, a.z / d)
  }

  /** glam's `length_squared`: the dot product of a vector with itself. */
  function LengthSq(a: Vec3): real {
    a.x * a.x + a.y * a.y + a.z * a.z
  }

  /** `sqrt` is the non-negative square root on the non-negative reals. */
  ghost predicate IsSqrt(sqrt: real -> real) {
    forall q :: 0.0 <= q ==> 0.0 <= sqrt(q) && sqrt(q) * sqrt(q) == q
  }

  /** glam's `length`: the square root of the squared length. */
  function Length(a: Vec3, sqrt: real -> real): real {
    sqrt(LengthSq(a))
  }

  lemma LengthSqNonNegative(a: Vec3)
    ensures 0.0 <= LengthSq(a)
  {
  }

  lemma MulPositive(a: real, b: real)
    requires 0.0 < a && 0.0 < b
    ensures 0.0 < a * b
  {
  }

  lemma SquareLess(a: real, b: real)
    requires 0.0 <= a < b
    ensures a * a < b * b
  {
    MulPositive(b - a, b + a);
    assert (b - a) * (b + a) == b * b - a * a;
  }

  lemma LengthSqScale(a: Vec3, k: real)
    ensures LengthSq(Scale(a, k)) == k * k * LengthSq(a)
  {
  }

  /** Comparing a length with a bound is comparing squared length with the squared bound. */
  lemma LengthWithin(q: real, bound: real, sqrt: real -> real)
    requires IsSqrt(sqrt) && 0.0 <= q && 0.0 <= bound
    ensures sqrt(q) <= bound <==> q <= bound * bound
  {
    var s := sqrt(q);
    assert 0.0 <= s && s * s == q;
    if s < bound {
      SquareLess(s, bound);
    } else if bound < s {
      SquareLess(bound, s);
    }
  }

  /**
    The factor `recip(sqrt(q)) * max` by which glam rescales a vector whose
    squared length `q` exceeds `max * max`: it shrinks, and lands on `max * max`.
  */
  function ClampScale(q: real, max: real, sqrt: real -> real): (k: real)
    requires IsSqrt(sqrt) && 0.0 <= max && max * max < q
    ensures 0.0 <= k < 1.0
    ensures k * k * q == max * max
  {
    var s := sqrt(q);
    assert 0.0 <= s && s * s == q;
    LengthWithin(q, max, sqrt);
    assert max < s;
    var k := (1.0 / s) * max;
    assert k * s == max;
    assert k < 1.0;
    assert k * k * q == max * max by {
      calc {
        k * k * q;
        k * k * (s * s);
        (k * s) * (k * s);
        max * max;
      }
    }
    k
  }

  /**
    glam's `clamp_length_max`: a vector longer than `max` is rescaled to length
    `max` along its own direction; any other vector is returned unchanged.
  */
  function ClampLengthMax(v: Vec3, max: real, sqrt: real -> real): (r: Vec3)
    requires IsSqrt(sqrt) && 0.0 <= max
    ensures LengthSq(r) <= max * max
    ensures LengthSq(v) <= max * max ==> r == v
    ensures max * max < LengthSq(v) ==>
              LengthSq(r) == max * max && exists k :: 0.0 <= k < 1.0 && r == Scale(v, k)
  {
    var lengthSq := LengthSq(v);
    if lengthSq > max * max then
      var k := ClampScale(lengthSq, max, sqrt);
      LengthSqScale(v, k);
      Scale(v, k)
    else
      v
  }
}
