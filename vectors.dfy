/** The part of three.js's `Vector3` arithmetic the core uses, over exact reals. */
module Vectors {

  datatype Vec3 = Vec3(x: real, y: real, z: real)

  const Zero := Vec3(0.0, 0.0, 0.0)

  function Add(a: Vec3, b: Vec3): Vec3 {
    Vec3(a.x + b.x, a.y + b.y, a.z + b.z)
  }

  function Sub(a: Vec3, b: Vec3): Vec3 {
    Vec3(a.x - b.x, a.y - b.y, a.z - b.z)
  }

  function Scale(a: Vec3, k: real): Vec3 {
    Vec3(a.x * k, a.y * k, a.z * k)
  }

  function Neg(a: Vec3): Vec3 {
    Vec3(-a.x, -a.y, -a.z)
  }

  /** `crossVectors(a, b)`. */
  function Cross(a: Vec3, b: Vec3): Vec3 {
    Vec3(a.y * b.z - a.z * b.y, a.z * b.x - a.x * b.z, a.x * b.y - a.y * b.x)
  }

  function Dot(a: Vec3, b: Vec3): real {
    a.x * b.x + a.y * b.y + a.z * b.z
  }

  /** `lengthSq()`: the squared Euclidean length. */
  function LengthSq(a: Vec3): (r: real)
    ensures r >= 0.0
  {
    SquareFacts(a.x); SquareFacts(a.y); SquareFacts(a.z);
    a.x * a.x + a.y * a.y + a.z * a.z
  }

  /** The squared `distanceTo`. */
  function DistSq(a: Vec3, b: Vec3): (r: real)
    ensures r >= 0.0
  {
    LengthSq(Sub(a, b))
  }

  /** `v.y = h` on a copy. */
  function WithY(a: Vec3, h: real): Vec3 {
    a.(y := h)
  }

  /** `lerpVectors(a, b, t)`: `a + (b - a) * t`. */
  function Lerp(a: Vec3, b: Vec3, t: real): Vec3 {
    Add(a, Scale(Sub(b, a), t))
  }

  function Midpoint(a: Vec3, b: Vec3): Vec3 {
    Vec3((a.x + b.x) / 2.0, (a.y + b.y) / 2.0, (a.z + b.z) / 2.0)
  }

  lemma SquareFacts(r: real)
    ensures r * r >= 0.0
  {
  }

  lemma DivideBack(x: real, y: real)
    requires y != 0.0
    ensures (x * y) / y == x
  {
  }

  /** A square is zero only for zero. */
  lemma SquareZero(r: real)
    requires r * r == 0.0
    ensures r == 0.0
  {
    if r != 0.0 {
      DivideBack(r, r);
    }
  }

  /** Only the zero vector has length zero. */
  lemma ZeroLength(a: Vec3)
    requires LengthSq(a) == 0.0
    ensures a == Zero
  {
    SquareFacts(a.x); SquareFacts(a.y); SquareFacts(a.z);
    assert a.x * a.x == 0.0 && a.y * a.y == 0.0 && a.z * a.z == 0.0;
    SquareZero(a.x); SquareZero(a.y); SquareZero(a.z);
  }

  lemma ProductPositive(a: real, b: real)
    requires a > 0.0 && b > 0.0
    ensures a * b > 0.0
  {
  }

  lemma ProductNonNegative(a: real, b: real)
    requires a >= 0.0 && b >= 0.0
    ensures a * b >= 0.0
  {
  }

  /** A positive product with a positive factor has a positive other factor. */
  lemma FactorPositive(x: real, b: real)
    requires b > 0.0 && x * b > 0.0
    ensures x > 0.0
  {
    if x <= 0.0 {
      ProductNonNegative(-x, b);
    }
  }

  lemma FactorNonNegative(x: real, b: real)
    requires b > 0.0 && x * b >= 0.0
    ensures x >= 0.0
  {
    if x < 0.0 {
      ProductPositive(-x, b);
    }
  }

  lemma DotNeg(a: Vec3, b: Vec3)
    ensures Dot(a, Neg(b)) == -Dot(a, b)
  {
    assert a.x * -b.x == -(a.x * b.x);
    assert a.y * -b.y == -(a.y * b.y);
    assert a.z * -b.z == -(a.z * b.z);
  }

  lemma DotScale(a: Vec3, b: Vec3, k: real)
    ensures Dot(a, Scale(b, k)) == k * Dot(a, b)
  {
    assert a.x * (b.x * k) == k * (a.x * b.x);
    assert a.y * (b.y * k) == k * (a.y * b.y);
    assert a.z * (b.z * k) == k * (a.z * b.z);
  }

  /** Points whose difference is the zero vector are equal. */
  lemma SubZero(a: Vec3, b: Vec3)
    requires Sub(a, b) == Zero
    ensures a == b
  {
  }

  /** `W - 2tD + t²V`, the squared length of `w - t v` written with `W = |w|²`, `D = w·v`, `V = |v|²`. */
  function Quadratic(W: real, D: real, V: real, t: real): real {
    W - 2.0 * t * D + t * t * V
  }

  /** `|w - t v|² = |w|² - 2 t (w·v) + t² |v|²`. */
  lemma ExpandLengthSq(w: Vec3, v: Vec3, t: real)
    ensures LengthSq(Sub(w, Scale(v, t))) == Quadratic(LengthSq(w), Dot(w, v), LengthSq(v), t)
  {
    var d := Sub(w, Scale(v, t));
    assert d.x * d.x == w.x * w.x - 2.0 * t * (w.x * v.x) + t * t * (v.x * v.x);
    assert d.y * d.y == w.y * w.y - 2.0 * t * (w.y * v.y) + t * t * (v.y * v.y);
    assert d.z * d.z == w.z * w.z - 2.0 * t * (w.z * v.z) + t * t * (v.z * v.z);
  }

  /** A lerp starts at its first end point and stops at its second. */
  lemma LerpEnds(a: Vec3, b: Vec3)
    ensures Lerp(a, b, 0.0) == a
    ensures Lerp(a, b, 1.0) == b
  {
  }
}
