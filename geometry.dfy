/** Plane vectors over the reals: the part of glam's `Vec2` that the game uses.
    Coordinates are world coordinates, origin top-left, y growing downward. */
module Geometry {

  datatype Vec2 = Vec2(x: real, y: real)

  const Zero: Vec2 := Vec2(0.0, 0.0)

  function Add(a: Vec2, b: Vec2): Vec2 {
    Vec2(a.x + b.x, a.y + b.y)
  }

  function Sub(a: Vec2, b: Vec2): Vec2 {
    Vec2(a.x - b.x, a.y - b.y)
  }

  /** `v * k` for a scalar `k`. */
  function Scale(v: Vec2, k: real): Vec2 {
    Vec2(v.x * k, v.y * k)
  }

  /** `v + k` for a scalar `k`: glam adds the scalar to each coordinate. */
  function Offset(v: Vec2, k: real): Vec2 {
    Vec2(v.x + k, v.y + k)
  }

  /** The squared Euclidean length; `length()` is its square root. */
  function SqLength(v: Vec2): (r: real)
    ensures r >= 0.0
  {
    v.x * v.x + v.y * v.y
  }

  /** `len` is the length of `v`: the square root the platform computes. */
  predicate IsLengthOf(len: real, v: Vec2) {
    len >= 0.0 && len * len == SqLength(v)
  }

  /** `normalize_or_zero`: `v` scaled by the reciprocal of its length, or the zero vector
      when that length is zero (glam tests the reciprocal for being finite and positive).
      The square root is computed by the caller and passed in as `len`; what depends on
      `len` being the length of `v` is proved where the caller knows it. */
  function Normalize(v: Vec2, len: real): (r: Vec2)
    ensures v == Zero ==> r == Zero
    ensures len == 1.0 ==> r == v
  {
    if len == 0.0 then Zero else Scale(v, 1.0 / len)
  }

  /** Multiplying by a non-negative factor keeps an order. */
  lemma ProductMonotone(a: real, b: real, c: real)
    requires a <= b && c >= 0.0
    ensures a * c <= b * c
  {
  }

  /** Multiplying by a positive factor keeps a strict order. */
  lemma ProductStrict(a: real, b: real, c: real)
    requires a < b && c > 0.0
    ensures a * c < b * c
  {
  }

  /** Squaring keeps the order of non-negative numbers. */
  lemma SquareMono(a: real, b: real)
    requires 0.0 <= a <= b
    ensures a * a <= b * b
  {
    ProductMonotone(a, b, a);
    ProductMonotone(a, b, b);
  }

  /** Squaring keeps the strict order of non-negative numbers. */
  lemma SquareStrict(a: real, b: real)
    requires 0.0 <= a < b
    ensures a * a < b * b
  {
    calc {
      a * a;
    <= { ProductMonotone(a, b, a); }
      b * a;
    == a * b;
    < { ProductStrict(a, b, b); }
      b * b;
    }
  }
}
