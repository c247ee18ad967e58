/**
  The Vector3D geometry kernel: a three-component vector with component-wise
  operators, dot and cross product, normalisation, reflection about a normal,
  and the three axis rotations with their snap-to-zero cleanup.

  Components are mathematical reals. The kernel's `sqrtf`, `cos` and `sin`
  are not available as Dafny functions, so:
  - a length is passed explicitly as a real `l` with `IsLength(v, l)`, that is
    `l >= 0` and `l * l` equal to the squared length (LengthIsUnique shows the
    argument is determined by the vector);
  - an angle is an `Angle(radians, cos, sin)` whose cosine and sine are given
    with it.
*/
module Geometry {

  /** The snap-to-zero threshold `min` (1e-7). */
  const Min: real := 0.0000001

  function Abs(a: real): (r: real)
    ensures r >= 0.0 && (r == a || r == -a)
  {
    if a < 0.0 then -a else a
  }

  /** The component triple; it is the whole state of a Vector3D. */
  datatype Point3D = Point3D(x: real, y: real, z: real)

  function Zero(): Point3D
  {
    Point3D(0.0, 0.0, 0.0)
  }

  // ---------------------------------------------------------------- operators

  /** Unary `-`. */
  function Neg(v: Point3D): (r: Point3D)
    ensures Plus(v, r) == Zero()
  {
    Point3D(-v.x, -v.y, -v.z)
  }

  /** Binary `*` by a scalar. */
  function Times(v: Point3D, k: real): (r: Point3D)
    ensures k == 1.0 ==> r == v
    ensures k == 0.0 || v == Zero() ==> r == Zero()
  {
    Point3D(v.x * k, v.y * k, v.z * k)
  }

  /** Binary `/` by a scalar; a zero divisor is excluded (IEEE Inf/NaN is not modelled). */
  function Divide(v: Point3D, k: real): (r: Point3D)
    requires k != 0.0
    ensures Times(r, k) == v
  {
    Point3D(v.x / k, v.y / k, v.z / k)
  }

  /** Binary `-`. */
  function Minus(a: Point3D, b: Point3D): (r: Point3D)
    ensures r == Plus(a, Neg(b))
    ensures Plus(r, b) == a
  {
    Point3D(a.x - b.x, a.y - b.y, a.z - b.z)
  }

  /** Binary `+`. */
  function Plus(a: Point3D, b: Point3D): (r: Point3D)
    ensures b == Zero() ==> r == a
    ensures a == Zero() ==> r == b
  {
    Point3D(a.x + b.x, a.y + b.y, a.z + b.z)
  }

  /** `==`: exact comparison of all three components. */
  function Equal(a: Point3D, b: Point3D): (r: bool)
    ensures r <==> a == b
  {
    a.x == b.x && a.y == b.y && a.z == b.z
  }

  /** A C++ `bool` promoted to `int` for a bitwise operator. */
  function BoolToInt(b: bool): bv32
  {
    if b then 1 else 0
  }

  /** The bitwise `|` of two `bool` operands, converted back to `bool`. */
  function BitwiseOr(a: bool, b: bool): (r: bool)
    ensures r <==> a || b
  {
    BoolToInt(a) | BoolToInt(b) != 0
  }

  /**
    `!=` as written: the third comparison is joined with bitwise `|`, which
    binds tighter than `||`, so the expression is `x || (y | z)`.
  */
  function NotEqual(a: Point3D, b: Point3D): (r: bool)
    ensures r <==> !Equal(a, b)
  {
    a.x != b.x || BitwiseOr(a.y != b.y, a.z != b.z)
  }

  // ---------------------------------------------------------------- products

  function Dot(a: Point3D, b: Point3D): (r: real)
    ensures a == Zero() || b == Zero() ==> r == 0.0
  {
    a.x * b.x + a.y * b.y + a.z * b.z
  }

  function Cross(a: Point3D, b: Point3D): (r: Point3D)
    ensures Dot(a, r) == 0.0 && Dot(b, r) == 0.0
  {
    Point3D(a.y * b.z - a.z * b.y, a.z * b.x - a.x * b.z, a.x * b.y - a.y * b.x)
  }

  /** The squared length, the argument of `sqrtf` in `length`. */
  function LengthSq(v: Point3D): real
  {
    v.x * v.x + v.y * v.y + v.z * v.z
  }

  /** The squared length is never negative, and only the zero vector has squared length 0. */
  lemma LengthSqIsPositive(v: Point3D)
    ensures LengthSq(v) >= 0.0
    ensures LengthSq(v) == 0.0 ==> v == Zero()
  {
    SquareIsNonNegative(v.x);
    SquareIsNonNegative(v.y);
    SquareIsNonNegative(v.z);
    if LengthSq(v) == 0.0 {
      SquareIsZeroOnlyForZero(v.x);
      SquareIsZeroOnlyForZero(v.y);
      SquareIsZeroOnlyForZero(v.z);
    }
  }

  lemma SquareIsNonNegative(a: real)
    ensures a * a >= 0.0
  {
    if a < 0.0 {
      assert a * a == (-a) * (-a);
    }
  }

  /** A product with a non-zero factor is zero only when the other factor is. */
  lemma ProductIsZero(a: real, b: real)
    requires a * b == 0.0
    requires b != 0.0
    ensures a == 0.0
  {
  }

  lemma SquareIsZeroOnlyForZero(a: real)
    requires a * a == 0.0
    ensures a == 0.0
  {
    if a != 0.0 {
      ProductIsZero(a, a);
    }
  }

  /** `l` is what `length` returns for `v`: the non-negative square root of its squared length. */
  predicate IsLength(v: Point3D, l: real)
  {
    l >= 0.0 && l * l == LengthSq(v)
  }

  lemma LengthIsUnique(v: Point3D, l: real, l': real)
    requires IsLength(v, l) && IsLength(v, l')
    ensures l == l'
  {
    assert (l - l') * (l + l') == 0.0;
    if l + l' != 0.0 {
      ProductIsZero(l - l', l + l');
    }
  }

  lemma LengthIsZeroIffZeroVector(v: Point3D, l: real)
    requires IsLength(v, l)
    ensures l == 0.0 <==> v == Zero()
  {
    LengthSqIsPositive(v);
    if l == 0.0 {
      assert l * l == 0.0;
    }
    if v == Zero() {
      SquareIsZeroOnlyForZero(l);
    }
  }

  // ------------------------------------------------------------ normalisation

  /** What `normalize` stores and `getNormalized` returns: each component divided by the length. */
  function Normalized(v: Point3D, l: real): (r: Point3D)
    requires IsLength(v, l) && l != 0.0
    ensures LengthSq(r) == 1.0
    ensures Times(r, l) == v
  {
    var r := Point3D(v.x / l, v.y / l, v.z / l);
    UnitAfterDivision(v, l, r);
    r
  }

  lemma UnitAfterDivision(v: Point3D, l: real, r: Point3D)
    requires l != 0.0 && l * l == LengthSq(v)
    requires r == Point3D(v.x / l, v.y / l, v.z / l)
    ensures LengthSq(r) == 1.0 && Times(r, l) == v
  {
    assert r.x * l == v.x && r.y * l == v.y && r.z * l == v.z;
    assert (r.x * r.x) * (l * l) == v.x * v.x by { assert (r.x * r.x) * (l * l) == (r.x * l) * (r.x * l); }
    assert (r.y * r.y) * (l * l) == v.y * v.y by { assert (r.y * r.y) * (l * l) == (r.y * l) * (r.y * l); }
    assert (r.z * r.z) * (l * l) == v.z * v.z by { assert (r.z * r.z) * (l * l) == (r.z * l) * (r.z * l); }
    assert (r.x * r.x + r.y * r.y + r.z * r.z - 1.0) * (l * l) == 0.0;
    if l * l == 0.0 {
      ProductIsZero(l, l);
    }
    ProductIsZero(r.x * r.x + r.y * r.y + r.z * r.z - 1.0, l * l);
  }

  /** Normalising a vector that already has length one changes nothing. */
  lemma NormalizedUnitIsItself(v: Point3D)
    requires LengthSq(v) == 1.0
    ensures IsLength(v, 1.0) && Normalized(v, 1.0) == v
  {
  }

  // --------------------------------------------------------------- reflection

  /** `reflect`: `v - 2 (v . n) n` for the normalised copy `n` of `normal`. */
  function Reflected(v: Point3D, normal: Point3D, nl: real): (r: Point3D)
    requires IsLength(normal, nl) && nl != 0.0
    ensures Dot(r, Normalized(normal, nl)) == -Dot(v, Normalized(normal, nl))
    ensures LengthSq(r) == LengthSq(v)
  {
    var n := Normalized(normal, nl);
    var r := MirrorUnit(v, n);
    ReflectionFacts(v, n);
    r
  }

  /** The reflection formula for a normal that is already of length one. */
  function MirrorUnit(v: Point3D, n: Point3D): Point3D
  {
    Minus(v, Times(Times(n, Dot(v, n)), 2.0))
  }

  lemma ReflectionFacts(v: Point3D, n: Point3D)
    requires LengthSq(n) == 1.0
    ensures Dot(MirrorUnit(v, n), n) == -Dot(v, n)
    ensures LengthSq(MirrorUnit(v, n)) == LengthSq(v)
  {
    var d := Dot(v, n);
    var r := MirrorUnit(v, n);
    var k := 2.0 * d;
    assert r == Point3D(v.x - k * n.x, v.y - k * n.y, v.z - k * n.z);
    calc {
      Dot(r, n);
      Dot(v, n) - k * LengthSq(n);
      d - k;
    }
    calc {
      LengthSq(r);
      LengthSq(v) - 2.0 * k * Dot(v, n) + k * k * LengthSq(n);
      LengthSq(v) - 2.0 * k * d + k * k;
      { assert k * k == 2.0 * k * d; }
      LengthSq(v);
    }
  }

  lemma MirrorUnitIsInvolution(v: Point3D, n: Point3D)
    requires LengthSq(n) == 1.0
    ensures MirrorUnit(MirrorUnit(v, n), n) == v
  {
    var d := Dot(v, n);
    ReflectionFacts(v, n);
    MirrorStepUndone(v.x, n.x, d);
    MirrorStepUndone(v.y, n.y, d);
    MirrorStepUndone(v.z, n.z, d);
  }

  /** One component of the second reflection, whose dot product has the opposite sign. */
  lemma MirrorStepUndone(a: real, c: real, d: real)
    ensures (a - (c * d) * 2.0) - (c * -d) * 2.0 == a
  {
  }

  /** Reflecting twice about the same normal gives back the original vector. */
  lemma ReflectIsInvolution(v: Point3D, normal: Point3D, nl: real)
    requires IsLength(normal, nl) && nl != 0.0
    ensures Reflected(Reflected(v, normal, nl), normal, nl) == v
  {
    MirrorUnitIsInvolution(v, Normalized(normal, nl));
  }

  lemma DotOfScaled(n: Point3D, k: real, w: Point3D)
    ensures Dot(Times(n, k), w) == k * Dot(n, w)
  {
  }

  /** The part of `v` orthogonal to the normal is kept. */
  lemma ReflectKeepsOrthogonalPart(v: Point3D, normal: Point3D, nl: real, w: Point3D)
    requires IsLength(normal, nl) && nl != 0.0
    requires Dot(w, normal) == 0.0
    ensures Dot(Reflected(v, normal, nl), w) == Dot(v, w)
  {
    var n := Normalized(normal, nl);
    DotOfScaled(n, nl, w);
    assert nl * Dot(n, w) == 0.0;
    ProductIsZero(Dot(n, w), nl);
    MirrorUnitKeepsOrthogonal(v, n, w);
  }

  lemma MirrorUnitKeepsOrthogonal(v: Point3D, n: Point3D, w: Point3D)
    requires Dot(n, w) == 0.0
    ensures Dot(MirrorUnit(v, n), w) == Dot(v, w)
  {
    var k := 2.0 * Dot(v, n);
    assert MirrorUnit(v, n) == Point3D(v.x - k * n.x, v.y - k * n.y, v.z - k * n.z);
    assert Dot(MirrorUnit(v, n), w) == Dot(v, w) - k * Dot(n, w);
  }

  /** A vector pointing against a unit normal is sent back along the normal. */
  lemma ReflectReversesNormal(v: Point3D, n: Point3D)
    requires LengthSq(n) == 1.0 && v == Neg(n)
    ensures IsLength(n, 1.0)
    ensures Reflected(v, n, 1.0) == n
  {
    NormalizedUnitIsItself(n);
    assert Dot(Neg(n), n) == -LengthSq(n);
  }

  /** `(0, -1, 0)` reflected about `(0, 1, 0)` is `(0, 1, 0)`. */
  lemma ReflectExample(v: Point3D, n: Point3D)
    requires v == Point3D(0.0, -1.0, 0.0) && n == Point3D(0.0, 1.0, 0.0)
    ensures IsLength(n, 1.0) && Reflected(v, n, 1.0) == n
  {
    ExampleIsAgainstUnitNormal(v, n);
    ReflectReversesNormal(v, n);
  }

  lemma ExampleIsAgainstUnitNormal(v: Point3D, n: Point3D)
    requires v == Point3D(0.0, -1.0, 0.0) && n == Point3D(0.0, 1.0, 0.0)
    ensures LengthSq(n) == 1.0 && v == Neg(n)
  {
  }

  // ---------------------------------------------------------------- rotations

  /** An angle in radians, with the cosine and sine the kernel would compute for it. */
  datatype Angle = Angle(radians: real, cos: real, sin: real)
  {
    predicate Valid()
    {
      cos * cos + sin * sin == 1.0 && (radians == 0.0 ==> cos == 1.0 && sin == 0.0)
    }

    /** The opposite angle: cosine is even, sine is odd. */
    function Inverse(): (t: Angle)
      ensures Valid() ==> t.Valid()
    {
      Angle(-radians, cos, -sin)
    }
  }

  /** The cleanup of one component: strictly below `min` in magnitude becomes exactly 0. */
  function Snap(a: real): (r: real)
    ensures r == 0.0 || Abs(r) >= Min
    ensures Abs(r - a) < Min
    ensures Abs(a) >= Min ==> r == a
  {
    if Abs(a) < Min then 0.0 else a
  }

  /** Every component is exactly 0 or has magnitude at least `min`. */
  predicate IsSnapped(v: Point3D)
  {
    (v.x == 0.0 || Abs(v.x) >= Min) && (v.y == 0.0 || Abs(v.y) >= Min) && (v.z == 0.0 || Abs(v.z) >= Min)
  }

  /** Each component of `u` is within `min` of the same component of `v`. */
  predicate WithinMin(u: Point3D, v: Point3D)
  {
    Abs(u.x - v.x) < Min && Abs(u.y - v.y) < Min && Abs(u.z - v.z) < Min
  }

  /** The three cleanup tests that end each rotation. */
  function SnapAll(v: Point3D): (r: Point3D)
    ensures IsSnapped(r) && WithinMin(r, v)
    ensures IsSnapped(v) ==> r == v
  {
    Point3D(Snap(v.x), Snap(v.y), Snap(v.z))
  }

  /** The yaw matrix product, before cleanup (the zero terms of the matrix are dropped). */
  function YawMatrix(v: Point3D, t: Angle): Point3D
  {
    Point3D(v.x * t.cos + v.y * -t.sin, v.x * t.sin + v.y * t.cos, v.z)
  }

  /** The roll matrix product, before cleanup. */
  function RollMatrix(v: Point3D, t: Angle): Point3D
  {
    Point3D(v.x, v.y * t.cos + v.z * -t.sin, v.y * t.sin + v.z * t.cos)
  }

  /** The pitch matrix product, before cleanup. */
  function PitchMatrix(v: Point3D, t: Angle): Point3D
  {
    Point3D(v.x * t.cos + v.z * t.sin, v.y, v.x * -t.sin + v.z * t.cos)
  }

  /** `rotateYaw`: rotation about the Z axis, then cleanup. */
  function RotateYaw(v: Point3D, t: Angle): (r: Point3D)
    ensures r.z == Snap(v.z)
    ensures IsSnapped(r) && WithinMin(r, YawMatrix(v, t))
  {
    SnapAll(YawMatrix(v, t))
  }

  /** `rotateRoll`: rotation about the X axis, then cleanup. */
  function RotateRoll(v: Point3D, t: Angle): (r: Point3D)
    ensures r.x == Snap(v.x)
    ensures IsSnapped(r) && WithinMin(r, RollMatrix(v, t))
  {
    SnapAll(RollMatrix(v, t))
  }

  /** `rotatePitch`: rotation about the Y axis, then cleanup. */
  function RotatePitch(v: Point3D, t: Angle): (r: Point3D)
    ensures r.y == Snap(v.y)
    ensures IsSnapped(r) && WithinMin(r, PitchMatrix(v, t))
  {
    SnapAll(PitchMatrix(v, t))
  }

  /** A plane rotation by a valid angle preserves the squared length of the pair. */
  lemma PlaneRotationPreservesLength(a: real, b: real, c: real, s: real)
    requires c * c + s * s == 1.0
    ensures (a * c - b * s) * (a * c - b * s) + (a * s + b * c) * (a * s + b * c) == a * a + b * b
  {
    calc {
      (a * c - b * s) * (a * c - b * s) + (a * s + b * c) * (a * s + b * c);
      a * a * (c * c + s * s) + b * b * (c * c + s * s);
      a * a + b * b;
    }
  }

  /** Rotating a plane pair by a valid angle and then by its inverse restores it. */
  lemma PlaneRotationInverse(a: real, b: real, c: real, s: real)
    requires c * c + s * s == 1.0
    ensures (a * c - b * s) * c + (a * s + b * c) * s == a
    ensures -(a * c - b * s) * s + (a * s + b * c) * c == b
  {
    calc {
      (a * c - b * s) * c + (a * s + b * c) * s;
      a * (c * c + s * s);
      a;
    }
    calc {
      -(a * c - b * s) * s + (a * s + b * c) * c;
      b * (c * c + s * s);
      b;
    }
  }

  lemma YawMatrixIsRotation(v: Point3D, t: Angle)
    requires t.Valid()
    ensures LengthSq(YawMatrix(v, t)) == LengthSq(v)
    ensures YawMatrix(YawMatrix(v, t), t.Inverse()) == v
  {
    PlaneRotationPreservesLength(v.x, v.y, t.cos, t.sin);
    PlaneRotationInverse(v.x, v.y, t.cos, t.sin);
  }

  lemma RollMatrixIsRotation(v: Point3D, t: Angle)
    requires t.Valid()
    ensures LengthSq(RollMatrix(v, t)) == LengthSq(v)
    ensures RollMatrix(RollMatrix(v, t), t.Inverse()) == v
  {
    PlaneRotationPreservesLength(v.y, v.z, t.cos, t.sin);
    PlaneRotationInverse(v.y, v.z, t.cos, t.sin);
  }

  lemma PitchMatrixIsRotation(v: Point3D, t: Angle)
    requires t.Valid()
    ensures LengthSq(PitchMatrix(v, t)) == LengthSq(v)
    ensures PitchMatrix(PitchMatrix(v, t), t.Inverse()) == v
  {
    // Pitch turns the (z, x) pair by the angle.
    PlaneRotationPreservesLength(v.z, v.x, t.cos, t.sin);
    PlaneRotationInverse(v.z, v.x, t.cos, t.sin);
  }

  /** A zero angle rotates by nothing; only the cleanup remains. */
  lemma ZeroAngleOnlySnaps(v: Point3D, t: Angle)
    requires t.Valid() && t.radians == 0.0
    ensures RotateYaw(v, t) == SnapAll(v)
    ensures RotateRoll(v, t) == SnapAll(v)
    ensures RotatePitch(v, t) == SnapAll(v)
  {
    assert t.cos == 1.0 && t.sin == 0.0;
    assert YawMatrix(v, t) == v;
    assert RollMatrix(v, t) == v;
    assert PitchMatrix(v, t) == v;
  }

  /** A quarter turn of yaw takes the X axis exactly onto the Y axis. */
  /**
    A quarter turn of yaw whose computed cosine `c` is a rounding residue of
    magnitude below `min` (the single-precision cosine of pi/2 is about
    -4.4e-8): the cleanup turns `(1,0,0)` into exactly `(0,1,0)`.
  */
  lemma YawQuarterTurn(c: real)
    requires Abs(c) < Min
    ensures YawMatrix(Point3D(1.0, 0.0, 0.0), Angle(1.5707964, c, 1.0)) == Point3D(c, 1.0, 0.0)
    ensures RotateYaw(Point3D(1.0, 0.0, 0.0), Angle(1.5707964, c, 1.0)) == Point3D(0.0, 1.0, 0.0)
  {
  }

  // ------------------------------------------------------ composite rotation

  /** One step of the composition: the axis is skipped unless its angle exceeds `min` in magnitude. */
  function Applies(t: Angle): bool
  {
    Abs(t.radians) > Min
  }

  /**
    The composition performed by `testRotation`: roll (angle x), then pitch
    (angle y), then yaw (angle z), each applied only when `Applies`.
  */
  function EulerRotate(v: Point3D, roll: Angle, pitch: Angle, yaw: Angle): (r: Point3D)
    ensures !Applies(roll) && !Applies(pitch) && !Applies(yaw) ==> r == v
    ensures Applies(roll) || Applies(pitch) || Applies(yaw) ==> IsSnapped(r)
  {
    var afterRoll := if Applies(roll) then RotateRoll(v, roll) else v;
    var afterPitch := if Applies(pitch) then RotatePitch(afterRoll, pitch) else afterRoll;
    if Applies(yaw) then RotateYaw(afterPitch, yaw) else afterPitch
  }

  lemma EulerOrder(v: Point3D, roll: Angle, pitch: Angle, yaw: Angle)
    requires Applies(roll) && Applies(pitch) && Applies(yaw)
    ensures EulerRotate(v, roll, pitch, yaw) == RotateYaw(RotatePitch(RotateRoll(v, roll), pitch), yaw)
  {
  }

  // ---------------------------------------------------------- algebra lemmas

  /** The dot product of a vector with itself is the squared length under `length`. */
  lemma DotOfSelfIsLengthSq(v: Point3D)
    ensures Dot(v, v) == LengthSq(v)
  {
  }

  lemma DotIsSymmetric(a: Point3D, b: Point3D)
    ensures Dot(a, b) == Dot(b, a)
  {
  }

  lemma CrossIsAntiCommutative(a: Point3D, b: Point3D)
    ensures Cross(a, b) == Neg(Cross(b, a))
  {
  }

  lemma CrossOfSelfIsZero(a: Point3D)
    ensures Cross(a, a) == Zero()
  {
  }

  lemma ProductExamples()
    ensures Dot(Point3D(1.0, 2.0, 3.0), Point3D(4.0, 5.0, 6.0)) == 32.0
    ensures Cross(Point3D(1.0, 0.0, 0.0), Point3D(0.0, 1.0, 0.0)) == Point3D(0.0, 0.0, 1.0)
  {
  }

  lemma NegIsInvolution(v: Point3D)
    ensures Neg(Neg(v)) == v
  {
  }

  /** Scaling by `k` and then by `1/k` gives back the vector. */
  lemma ScalingIsUndone(v: Point3D, k: real)
    requires k != 0.0
    ensures Times(Times(v, k), 1.0 / k) == v
  {
    ScaleUndone(v.x, k);
    ScaleUndone(v.y, k);
    ScaleUndone(v.z, k);
  }

  lemma ScaleUndone(a: real, k: real)
    requires k != 0.0
    ensures (a * k) * (1.0 / k) == a
  {
  }

  lemma PlusIsCommutativeAndAssociative(a: Point3D, b: Point3D, c: Point3D)
    ensures Plus(a, b) == Plus(b, a)
    ensures Plus(Plus(a, b), c) == Plus(a, Plus(b, c))
  {
  }

  lemma DivideIsTimesReciprocal(v: Point3D, k: real)
    requires k != 0.0
    ensures Divide(v, k) == Times(v, 1.0 / k)
  {
  }

  // ------------------------------------------------------------------- class

  /**
    A Vector3D object: its public field `p` is its whole state. Only
    `Normalize` writes it; every other operation is a function of the value.
  */
  class Vector3D {
    var p: Point3D

    /** The default constructor: the zero vector. */
    constructor ()
      ensures p == Zero()
    {
      p := Point3D(0.0, 0.0, 0.0);
    }

    /** The three-argument constructor stores its arguments as given. */
    constructor FromComponents(x: real, y: real, z: real)
      ensures p == Point3D(x, y, z)
    {
      p := Point3D(x, y, z);
    }

    /** `normalize`, given the value `l` that `length` returns. */
    method Normalize(l: real)
      requires IsLength(p, l) && l != 0.0
      modifies this
      ensures p == Normalized(old(p), l)
      ensures LengthSq(p) == 1.0 && Times(p, l) == old(p)
    {
      p := p.(x := p.x / l);
      p := p.(y := p.y / l);
      p := p.(z := p.z / l);
    }

    /** `getNormalized`: the same components as `Normalize`, in a new value; the receiver is unchanged. */
    method GetNormalized(l: real) returns (v: Point3D)
      requires IsLength(p, l) && l != 0.0
      ensures v == Normalized(p, l)
      ensures LengthSq(v) == 1.0
    {
      var w := new Vector3D();
      w.p := w.p.(x := p.x / l);
      w.p := w.p.(y := p.y / l);
      w.p := w.p.(z := p.z / l);
      v := w.p;
    }

    /**
      `reflect`: the normal arrives by value and only that copy is normalised,
      so neither the receiver nor the caller's normal changes.
    */
    method Reflect(normal: Point3D, nl: real) returns (r: Point3D)
      requires IsLength(normal, nl) && nl != 0.0
      ensures r == Reflected(p, normal, nl)
      ensures LengthSq(r) == LengthSq(p)
    {
      var n := new Vector3D.FromComponents(normal.x, normal.y, normal.z);
      n.Normalize(nl);
      var dot := Dot(p, n.p);
      r := Minus(p, Times(Times(n.p, dot), 2.0));
    }
  }

  /**
    The rotation part of `testRotation`: `rotated` starts as the input vector
    and is reassigned by each applicable axis rotation in turn.
  */
  method TestRotation(normal: Point3D, roll: Angle, pitch: Angle, yaw: Angle) returns (rotated: Point3D)
    ensures rotated == EulerRotate(normal, roll, pitch, yaw)
    ensures Applies(roll) || Applies(pitch) || Applies(yaw) ==> IsSnapped(rotated)
    ensures !Applies(roll) && !Applies(pitch) && !Applies(yaw) ==> rotated == normal
  {
    rotated := normal;
    if Abs(roll.radians) > Min { rotated := RotateRoll(rotated, roll); }
    if Abs(pitch.radians) > Min { rotated := RotatePitch(rotated, pitch); }
    if Abs(yaw.radians) > Min { rotated := RotateYaw(rotated, yaw); }
  }
}
