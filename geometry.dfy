/**
 * Three-component vectors over the reals, the few Vector3 operations the
 * flight controller and the camera director use, and the foreign maths
 * functions (Math.sqrt, Math.cos, Math.sin) they depend on.
 */
module Geometry {

  datatype Vec3 = Vec3(x: real, y: real, z: real)

  const Origin: Vec3 := Vec3(0.0, 0.0, 0.0)
  const WorldUp: Vec3 := Vec3(0.0, 1.0, 0.0)

  /** Math.min(a, b). */
  function Min(a: real, b: real): (r: real)
    ensures r <= a && r <= b && (r == a || r == b)
  {
    if a <= b then a else b
  }

  /** Math.max(a, b). */
  function Max(a: real, b: real): (r: real)
    ensures a <= r && b <= r && (r == a || r == b)
  {
    if a <= b then b else a
  }

  function Add(a: Vec3, b: Vec3): Vec3 {
    Vec3(a.x + b.x, a.y + b.y, a.z + b.z)
  }

  function Sub(a: Vec3, b: Vec3): Vec3 {
    Vec3(a.x - b.x, a.y - b.y, a.z - b.z)
  }

  function Scale(a: Vec3, k: real): Vec3 {
    Vec3(a.x * k, a.y * k, a.z * k)
  }

  /** The point `h` above `p`: Vector3(p.x, p.y + h, p.z). */
  function Above(p: Vec3, h: real): (r: Vec3)
    ensures r.x == p.x && r.z == p.z && r.y - p.y == h
  {
    Vec3(p.x, p.y + h, p.z)
  }

  /**
   * Vector3.lerpVectors(a, b, t) and a.lerp(b, t): each component moves from
   * a towards b by the fraction t.
   */
  function Lerp(a: Vec3, b: Vec3, t: real): (r: Vec3)
    ensures t == 0.0 ==> r == a
    ensures t == 1.0 ==> r == b
    ensures a == b ==> r == a
  {
    Vec3(a.x + (b.x - a.x) * t, a.y + (b.y - a.y) * t, a.z + (b.z - a.z) * t)
  }

  /** Vector3.crossVectors(a, b). */
  function Cross(a: Vec3, b: Vec3): Vec3 {
    Vec3(a.y * b.z - a.z * b.y, a.z * b.x - a.x * b.z, a.x * b.y - a.y * b.x)
  }

  function Dot(a: Vec3, b: Vec3): real {
    a.x * b.x + a.y * b.y + a.z * b.z
  }

  function LengthSq(a: Vec3): real {
    Dot(a, a)
  }

  /**
   * The host's floating-point library, given to the model as parameters:
   * nothing here computes a square root or a trigonometric value.
   */
  datatype MathLib = MathLib(sqrt: real -> real, cos: real -> real, sin: real -> real)

  /** What the model assumes of Math.sqrt when a proof needs it. */
  ghost predicate SoundSqrt(m: MathLib) {
    forall v: real :: 0.0 <= v ==> 0.0 <= m.sqrt(v) && m.sqrt(v) * m.sqrt(v) == v
  }

  /** Vector3.length(). */
  function Length(a: Vec3, m: MathLib): real {
    m.sqrt(LengthSq(a))
  }

  /** Vector3.distanceTo(b). */
  function Distance(a: Vec3, b: Vec3, m: MathLib): real {
    Length(Sub(a, b), m)
  }

  /**
   * Vector3.normalize(): divides by the length, or by 1 when the length is
   * zero, so the zero vector stays the zero vector.
   */
  function Normalize(a: Vec3, m: MathLib): (r: Vec3)
    ensures a == Origin ==> r == Origin
  {
    var len := Length(a, m);
    if len == 0.0 then a else Scale(a, 1.0 / len)
  }

  /** Two non-negative reals with the same square are equal. */
  /** A sound square root maps 0 to 0. */
  lemma SquareRootOfZero(m: MathLib)
    ensures SoundSqrt(m) ==> m.sqrt(0.0) == 0.0
  {
    if SoundSqrt(m) {
      SquareRootUnique(m.sqrt(0.0), 0.0);
    }
  }

  lemma SquareRootUnique(a: real, b: real)
    requires 0.0 <= a && 0.0 <= b && a * a == b * b
    ensures a == b
  {
    if a < b {
      SquareIncreasing(a, b);
    } else if b < a {
      SquareIncreasing(b, a);
    }
  }

  lemma SquareIncreasing(lo: real, hi: real)
    requires 0.0 <= lo < hi
    ensures lo * lo < hi * hi
  {
    calc {
      lo * lo;
    <= { assert lo * (hi - lo) >= 0.0; }
      lo * hi;
    < { assert (hi - lo) * hi > 0.0; }
      hi * hi;
    }
  }

  /** Squaring is monotone on the non-negative reals. */
  lemma SquareMonotone(lo: real, hi: real)
    requires 0.0 <= lo <= hi
    ensures 0.0 <= lo * lo <= hi * hi
  {
    if lo < hi {
      SquareIncreasing(lo, hi);
    }
    assert 0.0 <= lo * lo by {
      if 0.0 < lo { SquareIncreasing(0.0, lo); }
    }
  }

  /** The cross product with the world up axis is horizontal. */
  lemma CrossUpIsHorizontal(d: Vec3)
    ensures Cross(d, WorldUp) == Vec3(-d.z, 0.0, d.x)
  {
  }
}
