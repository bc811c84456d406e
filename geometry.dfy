/**
 * Three-dimensional vector algebra used to split particle momenta into the
 * part along the beam line and the part across it (Vector3D, UnitVector).
 *
 * Components are idealised as reals. Square roots are not computed: where the
 * source takes `sqrt(x*x + y*y + z*z)`, the model either works with the
 * squared magnitude or receives the root as a parameter `mag` constrained by
 * `IsMagnitude`.
 */
module Geometry {
  import opened Results

  datatype Vector3D = Vector3D(x: real, y: real, z: real)

  const Zero := Vector3D(0.0, 0.0, 0.0)

  function Dot(a: Vector3D, b: Vector3D): real {
    a.x * b.x + a.y * b.y + a.z * b.z
  }

  function Plus(a: Vector3D, b: Vector3D): Vector3D {
    Vector3D(a.x + b.x, a.y + b.y, a.z + b.z)
  }

  function Minus(a: Vector3D, b: Vector3D): Vector3D {
    Vector3D(a.x - b.x, a.y - b.y, a.z - b.z)
  }

  function Scale(v: Vector3D, s: real): Vector3D {
    Vector3D(v.x * s, v.y * s, v.z * s)
  }

  function Negate(v: Vector3D): Vector3D {
    Vector3D(-v.x, -v.y, -v.z)
  }

  /** The square of `magnitude()`: never negative, and zero only for the zero vector. */
  function MagnitudeSquared(v: Vector3D): (r: real)
    ensures r >= 0.0
    ensures r == 0.0 <==> v == Zero
  {
    SumOfSquares(v);
    Dot(v, v)
  }

  lemma SumOfSquares(v: Vector3D)
    ensures Dot(v, v) >= 0.0
    ensures Dot(v, v) == 0.0 <==> v == Zero
  {
    SquareNonNegative(v.x);
    SquareNonNegative(v.y);
    SquareNonNegative(v.z);
    if Dot(v, v) == 0.0 {
      SquareZero(v.x);
      SquareZero(v.y);
      SquareZero(v.z);
    }
  }

  lemma ProductZero(p: real, q: real)
    requires p * q == 0.0
    ensures p == 0.0 || q == 0.0
  {
  }

  lemma SquareZero(a: real)
    requires a * a == 0.0
    ensures a == 0.0
  {
    ProductZero(a, a);
  }

  lemma ProductNonNegative(p: real, q: real)
    requires (p >= 0.0 && q >= 0.0) || (p <= 0.0 && q <= 0.0)
    ensures p * q >= 0.0
  {
  }

  lemma SquareNonNegative(a: real)
    ensures a * a >= 0.0
  {
    ProductNonNegative(a, a);
  }

  /** `mag` is what `magnitude()` returns for `v`: the non-negative square root of |v|^2. */
  predicate IsMagnitude(v: Vector3D, mag: real) {
    mag >= 0.0 && mag * mag == MagnitudeSquared(v)
  }

  lemma DotSymmetric(a: Vector3D, b: Vector3D)
    ensures Dot(a, b) == Dot(b, a)
  {
  }

  /** The cross product is orthogonal to both of its arguments. */
  function Cross(a: Vector3D, b: Vector3D): (r: Vector3D)
    ensures Dot(r, a) == 0.0 && Dot(r, b) == 0.0
  {
    var r := Vector3D(a.y * b.z - a.z * b.y, a.z * b.x - a.x * b.z, a.x * b.y - a.y * b.x);
    CrossOrthogonal(a, b, r);
    r
  }

  lemma CrossOrthogonal(a: Vector3D, b: Vector3D, r: Vector3D)
    requires r == Vector3D(a.y * b.z - a.z * b.y, a.z * b.x - a.x * b.z, a.x * b.y - a.y * b.x)
    ensures Dot(r, a) == 0.0 && Dot(r, b) == 0.0
  {
    calc {
      Dot(r, a);
      (a.y * b.z - a.z * b.y) * a.x + (a.z * b.x - a.x * b.z) * a.y + (a.x * b.y - a.y * b.x) * a.z;
      (a.x * a.y * b.z - a.x * a.z * b.y) + (a.y * a.z * b.x - a.x * a.y * b.z) + (a.x * a.z * b.y - a.y * a.z * b.x);
      0.0;
    }
    calc {
      Dot(r, b);
      (a.y * b.z - a.z * b.y) * b.x + (a.z * b.x - a.x * b.z) * b.y + (a.x * b.y - a.y * b.x) * b.z;
      (a.y * b.x * b.z - a.z * b.x * b.y) + (a.z * b.x * b.y - a.x * b.y * b.z) + (a.x * b.y * b.z - a.y * b.x * b.z);
      0.0;
    }
  }

  /** `longitudinal`: the absolute component of `v` along `axis`. */
  function Longitudinal(v: Vector3D, axis: Vector3D): (r: real)
    ensures r >= 0.0
    ensures r * r == Dot(v, axis) * Dot(v, axis)
  {
    var d := Dot(v, axis);
    if d < 0.0 then -d else d
  }

  /** The part of `v` left after removing its projection on `axis`. */
  function TransverseComponent(v: Vector3D, axis: Vector3D): Vector3D {
    Minus(v, Scale(axis, Dot(v, axis)))
  }

  /** The square of `transverse()`. */
  function TransverseSquared(v: Vector3D, axis: Vector3D): (r: real)
    ensures r >= 0.0
  {
    MagnitudeSquared(TransverseComponent(v, axis))
  }

  /** Removing the projection on a unit axis leaves a vector orthogonal to that axis. */
  lemma TransverseOrthogonal(v: Vector3D, axis: Vector3D)
    requires MagnitudeSquared(axis) == 1.0
    ensures Dot(TransverseComponent(v, axis), axis) == 0.0
  {
    var d := Dot(v, axis);
    var t := TransverseComponent(v, axis);
    calc {
      Dot(t, axis);
      (v.x - axis.x * d) * axis.x + (v.y - axis.y * d) * axis.y + (v.z - axis.z * d) * axis.z;
      d - d * (axis.x * axis.x + axis.y * axis.y + axis.z * axis.z);
      { assert axis.x * axis.x + axis.y * axis.y + axis.z * axis.z == 1.0; }
      0.0;
    }
  }

  /**
   * The decomposition behind `transverse`: for a unit axis,
   * longitudinal^2 + transverse^2 == |v|^2.
   */
  lemma PythagoreanDecomposition(v: Vector3D, axis: Vector3D)
    requires MagnitudeSquared(axis) == 1.0
    ensures Longitudinal(v, axis) * Longitudinal(v, axis) + TransverseSquared(v, axis) == MagnitudeSquared(v)
  {
    var d := Dot(v, axis);
    var p := Scale(axis, d);
    ProjectionProducts(v, axis);
    DifferenceSquare(v, p);
    var vv, vp, pp := Dot(v, v), Dot(v, p), Dot(p, p);
    assert TransverseSquared(v, axis) == vv - 2.0 * vp + pp;
    assert Longitudinal(v, axis) * Longitudinal(v, axis) == d * d;
  }

  /** |a - b|^2 == a.a - 2 a.b + b.b */
  lemma DifferenceSquare(a: Vector3D, b: Vector3D)
    ensures Dot(Minus(a, b), Minus(a, b)) == Dot(a, a) - 2.0 * Dot(a, b) + Dot(b, b)
  {
    calc {
      Dot(Minus(a, b), Minus(a, b));
      (a.x - b.x) * (a.x - b.x) + (a.y - b.y) * (a.y - b.y) + (a.z - b.z) * (a.z - b.z);
      (a.x * a.x - 2.0 * a.x * b.x + b.x * b.x) + (a.y * a.y - 2.0 * a.y * b.y + b.y * b.y) + (a.z * a.z - 2.0 * a.z * b.z + b.z * b.z);
      Dot(a, a) - 2.0 * Dot(a, b) + Dot(b, b);
    }
  }

  /** The projection p of v on a unit axis satisfies p.p == v.p == (v.axis)^2. */
  lemma ProjectionProducts(v: Vector3D, axis: Vector3D)
    requires MagnitudeSquared(axis) == 1.0
    ensures Dot(Scale(axis, Dot(v, axis)), Scale(axis, Dot(v, axis))) == Dot(v, axis) * Dot(v, axis)
    ensures Dot(v, Scale(axis, Dot(v, axis))) == Dot(v, axis) * Dot(v, axis)
  {
    var d := Dot(v, axis);
    calc {
      Dot(Scale(axis, d), Scale(axis, d));
      (axis.x * d) * (axis.x * d) + (axis.y * d) * (axis.y * d) + (axis.z * d) * (axis.z * d);
      d * d * (axis.x * axis.x + axis.y * axis.y + axis.z * axis.z);
      d * d;
    }
    calc {
      Dot(v, Scale(axis, d));
      v.x * (axis.x * d) + v.y * (axis.y * d) + v.z * (axis.z * d);
      d * (v.x * axis.x + v.y * axis.y + v.z * axis.z);
      d * d;
    }
  }

  /** `normalized()`: fails exactly on the zero vector. */
  function Normalized(v: Vector3D, mag: real): (r: Result<Vector3D, DomainError>)
    requires IsMagnitude(v, mag)
    ensures r.Failure? <==> v == Zero
  {
    ZeroMagnitude(v, mag);
    if mag == 0.0 then Failure(ZeroLengthVector) else Success(DivideUnit(v, mag))
  }

  /** A successful `normalized()` has unit length and points the same way as `v`. */
  lemma NormalizedIsUnit(v: Vector3D, mag: real)
    requires IsMagnitude(v, mag) && v != Zero
    ensures MagnitudeSquared(Normalized(v, mag).value) == 1.0
    ensures Scale(Normalized(v, mag).value, mag) == v
  {
    var u := DivideUnit(v, mag);
  }

  lemma ZeroMagnitude(v: Vector3D, mag: real)
    requires IsMagnitude(v, mag)
    ensures mag == 0.0 <==> v == Zero
  {
    RootOfZero(mag, MagnitudeSquared(v));
  }

  /** A non-negative root is zero exactly when its square is. */
  lemma RootOfZero(root: real, square: real)
    requires root >= 0.0 && root * root == square
    ensures root == 0.0 <==> square == 0.0
  {
    if square == 0.0 {
      SquareZero(root);
    }
  }

  /** Each component divided by the (non-zero) magnitude. */
  function DivideUnit(v: Vector3D, mag: real): (u: Vector3D)
    requires IsMagnitude(v, mag) && mag != 0.0
    ensures MagnitudeSquared(u) == 1.0 && Scale(u, mag) == v
  {
    var u := Vector3D(v.x / mag, v.y / mag, v.z / mag);
    UnitLength(v, mag, u);
    u
  }

  lemma UnitLength(v: Vector3D, mag: real, u: Vector3D)
    requires IsMagnitude(v, mag) && mag != 0.0
    requires u == Vector3D(v.x / mag, v.y / mag, v.z / mag)
    ensures MagnitudeSquared(u) == 1.0 && Scale(u, mag) == v
  {
    var k := 1.0 / mag;
    assert mag * k == 1.0;
    assert u == Scale(v, k);
    ScaledSquare(v, k);
    assert MagnitudeSquared(u) == (mag * mag) * (k * k);
    assert (mag * mag) * (k * k) == (mag * k) * (mag * k);
  }

  lemma ScaledSquare(v: Vector3D, k: real)
    ensures MagnitudeSquared(Scale(v, k)) == MagnitudeSquared(v) * (k * k)
  {
    calc {
      MagnitudeSquared(Scale(v, k));
      (v.x * k) * (v.x * k) + (v.y * k) * (v.y * k) + (v.z * k) * (v.z * k);
      (v.x * v.x + v.y * v.y + v.z * v.z) * (k * k);
    }
  }

  /**
   * The `UnitVector` constructor: stores the components, then divides each one
   * in place by the magnitude; throws on the zero vector.
   */
  method MakeUnitVector(x: real, y: real, z: real, mag: real) returns (r: Result<Vector3D, DomainError>)
    requires IsMagnitude(Vector3D(x, y, z), mag)
    ensures r == Normalized(Vector3D(x, y, z), mag)
  {
    var u := Vector3D(x, y, z);
    if mag == 0.0 {
      return Failure(ZeroLengthVector);
    }
    u := u.(x := u.x / mag);
    u := u.(y := u.y / mag);
    u := u.(z := u.z / mag);
    assert u == DivideUnit(Vector3D(x, y, z), mag);
    return Success(u);
  }

  /** Direction of the beam line, before normalisation. */
  const BeamlineX: real := 0.0
  const BeamlineY: real := 0.10082778355435233
  const BeamlineZ: real := 0.9949038938829804

  /** Building the beam-line unit vector never throws: its raw direction is not zero. */
  lemma BeamlineUnitVectorExists(mag: real)
    requires IsMagnitude(Vector3D(BeamlineX, BeamlineY, BeamlineZ), mag)
    ensures Normalized(Vector3D(BeamlineX, BeamlineY, BeamlineZ), mag).Success?
  {
  }
}
