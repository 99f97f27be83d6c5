/** The quadratic interpolation stencil of the fluid's transfers, over exact reals:
  * three weights an axis, twenty-seven nodes a particle, and its moments. */
module Stencil {
  datatype V3 = V3(x: real, y: real, z: real)

  /** Rows c0, c1, c2 of an affine velocity matrix. */
  datatype M3 = M3(c0: V3, c1: V3, c2: V3)

  function Dot(a: V3, b: V3): real { a.x * b.x + a.y * b.y + a.z * b.z }

  /** The lowest of the three nodes an axis touches, and the offset from it. */
  function Base(g: real): int { (g - 0.5).Floor }

  function Offset(g: real): real { g - Base(g) as real }

  function W(i: nat, f: real): real
    requires i < 3
  {
    if i == 0 then (1.5 - f) * (1.5 - f) * 0.5
    else if i == 1 then 0.75 - (f - 1.0) * (f - 1.0)
    else (f - 0.5) * (f - 0.5) * 0.5
  }

  /** How far node `i` lies from the particle. */
  function D(i: nat, f: real): real { i as real - f }

  lemma OffsetRange(g: real)
    ensures 0.5 <= Offset(g) < 1.5
  {
  }

  /** Weights are a partition of unity with no first moment and second moment a quarter. */
  lemma AxisMoments(f: real)
    ensures W(0, f) + W(1, f) + W(2, f) == 1.0
    ensures W(0, f) * D(0, f) + W(1, f) * D(1, f) + W(2, f) * D(2, f) == 0.0
    ensures W(0, f) * D(0, f) * D(0, f) + W(1, f) * D(1, f) * D(1, f) + W(2, f) * D(2, f) * D(2, f) == 0.25
  {
  }

  lemma SquareUnit(a: real)
    requires -1.0 <= a <= 1.0
    ensures 0.0 <= a * a <= 1.0
  {
    if a >= 0.0 { assert a * a <= a * 1.0; } else { assert a * a == (-a) * (-a) <= (-a) * 1.0; }
  }

  lemma AxisBounds(i: nat, f: real)
    requires i < 3 && 0.5 <= f <= 1.5
    ensures 0.0 <= W(i, f) <= 1.0
  {
    SquareUnit(1.5 - f);
    SquareUnit(f - 0.5);
    SquareUnit(2.0 * (f - 1.0));
    assert (2.0 * (f - 1.0)) * (2.0 * (f - 1.0)) == 4.0 * ((f - 1.0) * (f - 1.0));
  }

  // ---- sums over the stencil ------------------------------------------------------

  /** A quantity at each of the twenty-seven nodes. */
  type Field = (nat, nat, nat) -> real

  function Wt(f: V3, i: nat, j: nat, k: nat): real
    requires i < 3 && j < 3 && k < 3
  {
    W(i, f.x) * W(j, f.y) * W(k, f.z)
  }

  /** The kernels' triple loop: every node's quantity times its weight, summed. */
  function Row(f: V3, h: Field, i: nat, j: nat): real
    requires i < 3 && j < 3
  {
    Wt(f, i, j, 0) * h(i, j, 0) + Wt(f, i, j, 1) * h(i, j, 1) + Wt(f, i, j, 2) * h(i, j, 2)
  }

  function Plane(f: V3, h: Field, i: nat): real
    requires i < 3
  {
    Row(f, h, i, 0) + Row(f, h, i, 1) + Row(f, h, i, 2)
  }

  function Cube(f: V3, h: Field): real { Plane(f, h, 0) + Plane(f, h, 1) + Plane(f, h, 2) }

  function Axis(f: real, a: real, b: real, c: real): real { W(0, f) * a + W(1, f) * b + W(2, f) * c }

  // ---- one axis at a time -------------------------------------------------------------

  lemma Factor(u: real, a: real, b: real, c: real, x: real, y: real, z: real)
    ensures u * a * x + u * b * y + u * c * z == u * (a * x + b * y + c * z)
  {
  }

  lemma RowFactors(f: V3, h: Field, i: nat, j: nat)
    requires i < 3 && j < 3
    ensures Row(f, h, i, j) == W(i, f.x) * W(j, f.y) * Axis(f.z, h(i, j, 0), h(i, j, 1), h(i, j, 2))
  {
    hide W;
    Factor(W(i, f.x) * W(j, f.y), W(0, f.z), W(1, f.z), W(2, f.z), h(i, j, 0), h(i, j, 1), h(i, j, 2));
  }

  /** A plane whose rows average to `a`, `b`, `c`. */
  lemma PlaneFactors(f: V3, h: Field, i: nat, a: real, b: real, c: real)
    requires i < 3
    requires Axis(f.z, h(i, 0, 0), h(i, 0, 1), h(i, 0, 2)) == a
    requires Axis(f.z, h(i, 1, 0), h(i, 1, 1), h(i, 1, 2)) == b
    requires Axis(f.z, h(i, 2, 0), h(i, 2, 1), h(i, 2, 2)) == c
    ensures Plane(f, h, i) == W(i, f.x) * Axis(f.y, a, b, c)
  {
    hide W, Row;
    RowFactors(f, h, i, 0);
    RowFactors(f, h, i, 1);
    RowFactors(f, h, i, 2);
    Factor(W(i, f.x), W(0, f.y), W(1, f.y), W(2, f.y), a, b, c);
  }

  lemma AxisAffine(f: real, g: real, b: real)
    ensures Axis(f, g + b * D(0, f), g + b * D(1, f), g + b * D(2, f)) == g
  {
    hide W, D;
    AxisMoments(f);
    Spread(W(0, f), W(1, f), W(2, f), D(0, f), D(1, f), D(2, f), g, b);
  }

  lemma AxisFirst(f: real, g: real, b: real)
    ensures Axis(f, D(0, f) * (g + b * D(0, f)), D(1, f) * (g + b * D(1, f)), D(2, f) * (g + b * D(2, f))) == 0.25 * b
  {
    hide W, D;
    AxisMoments(f);
    Spread(W(0, f) * D(0, f), W(1, f) * D(1, f), W(2, f) * D(2, f), D(0, f), D(1, f), D(2, f), g, b);
    Swing(W(0, f), D(0, f), g + b * D(0, f));
    Swing(W(1, f), D(1, f), g + b * D(1, f));
    Swing(W(2, f), D(2, f), g + b * D(2, f));
  }

  lemma Swing(w: real, d: real, v: real)
    ensures w * (d * v) == w * d * v
  {
  }

  lemma Spread(p: real, q: real, r: real, x: real, y: real, z: real, g: real, b: real)
    ensures p * (g + b * x) + q * (g + b * y) + r * (g + b * z) == g * (p + q + r) + b * (p * x + q * y + r * z)
  {
  }

  lemma AxisScale(f: real, s: real, a: real, b: real, c: real)
    ensures Axis(f, s * a, s * b, s * c) == s * Axis(f, a, b, c)
  {
    hide W;
    ScaleThree(W(0, f), W(1, f), W(2, f), s, a, b, c);
  }

  lemma ScaleThree(p: real, q: real, r: real, s: real, a: real, b: real, c: real)
    ensures p * (s * a) + q * (s * b) + r * (s * c) == s * (p * a + q * b + r * c)
  {
  }

  // ---- affine fields --------------------------------------------------------------------

  /** Value `a` at the particle and gradient `b` everywhere. */
  function Affine(f: V3, a: real, b: V3, i: nat, j: nat, k: nat): real {
    a + b.x * D(i, f.x) + b.y * D(j, f.y) + b.z * D(k, f.z)
  }

  ghost predicate IsAffine(f: V3, h: Field, a: real, b: V3) {
    forall i: nat, j: nat, k: nat :: i < 3 && j < 3 && k < 3 ==> h(i, j, k) == Affine(f, a, b, i, j, k)
  }

  lemma Sub(w: real, x: real, y: real)
    requires x == y
    ensures w * x == w * y
  {
  }

  lemma AxisSame(f: real, a: real, b: real, c: real, x: real, y: real, z: real)
    requires a == x && b == y && c == z
    ensures Axis(f, a, b, c) == Axis(f, x, y, z)
  {
  }

  /** Three values that lie on a line average to the line's value at the particle. */
  lemma OnALine(f: real, x: real, y: real, z: real, g: real, b: real)
    requires x == g + b * D(0, f) && y == g + b * D(1, f) && z == g + b * D(2, f)
    ensures Axis(f, x, y, z) == g
  {
    hide W, D, Axis;
    AxisAffine(f, g, b);
    AxisSame(f, x, y, z, g + b * D(0, f), g + b * D(1, f), g + b * D(2, f));
  }

  /** And scaled by their own distance, to a quarter of its slope. */
  lemma OnASwing(f: real, x: real, y: real, z: real, g: real, b: real)
    requires x == D(0, f) * (g + b * D(0, f)) && y == D(1, f) * (g + b * D(1, f)) && z == D(2, f) * (g + b * D(2, f))
    ensures Axis(f, x, y, z) == 0.25 * b
  {
    hide W, D, Axis;
    AxisFirst(f, g, b);
    AxisSame(f, x, y, z, D(0, f) * (g + b * D(0, f)), D(1, f) * (g + b * D(1, f)), D(2, f) * (g + b * D(2, f)));
  }

  lemma AffineRow(f: V3, h: Field, a: real, b: V3, i: nat, j: nat)
    requires IsAffine(f, h, a, b) && i < 3 && j < 3
    ensures Axis(f.z, h(i, j, 0), h(i, j, 1), h(i, j, 2)) == a + b.x * D(i, f.x) + b.y * D(j, f.y)
  {
    hide W, D, Axis;
    OnALine(f.z, h(i, j, 0), h(i, j, 1), h(i, j, 2), a + b.x * D(i, f.x) + b.y * D(j, f.y), b.z);
  }

  lemma AffinePlane(f: V3, h: Field, a: real, b: V3, i: nat)
    requires IsAffine(f, h, a, b) && i < 3
    ensures Plane(f, h, i) == W(i, f.x) * (a + b.x * D(i, f.x))
  {
    hide W, D, Axis, Plane, IsAffine;
    AffineRow(f, h, a, b, i, 0);
    AffineRow(f, h, a, b, i, 1);
    AffineRow(f, h, a, b, i, 2);
    var g := a + b.x * D(i, f.x);
    var r0, r1, r2 := g + b.y * D(0, f.y), g + b.y * D(1, f.y), g + b.y * D(2, f.y);
    PlaneFactors(f, h, i, r0, r1, r2);
    OnALine(f.y, r0, r1, r2, g, b.y);
    Sub(W(i, f.x), Axis(f.y, r0, r1, r2), g);
  }

  lemma CubeFactors(f: V3, h: Field, a: real, b: real, c: real)
    requires Plane(f, h, 0) == W(0, f.x) * a && Plane(f, h, 1) == W(1, f.x) * b && Plane(f, h, 2) == W(2, f.x) * c
    ensures Cube(f, h) == Axis(f.x, a, b, c)
  {
    hide W, Plane;
  }

  /** The weighted sum of an affine field is its value at the particle. */
  lemma AffineValue(f: V3, h: Field, a: real, b: V3)
    requires IsAffine(f, h, a, b)
    ensures Cube(f, h) == a
  {
    hide W, D, Axis, Plane, IsAffine, Cube;
    AffinePlane(f, h, a, b, 0);
    AffinePlane(f, h, a, b, 1);
    AffinePlane(f, h, a, b, 2);
    var p0, p1, p2 := a + b.x * D(0, f.x), a + b.x * D(1, f.x), a + b.x * D(2, f.x);
    CubeFactors(f, h, p0, p1, p2);
    OnALine(f.x, p0, p1, p2, a, b.x);
  }

  // ---- first moments of affine fields ------------------------------------------------------

  datatype Dir = X | Y | Z

  function Along(f: V3, d: Dir, i: nat, j: nat, k: nat): real {
    match d case X => D(i, f.x) case Y => D(j, f.y) case Z => D(k, f.z)
  }

  function Part(v: V3, d: Dir): real { match d case X => v.x case Y => v.y case Z => v.z }

  ghost predicate IsMoment(f: V3, h: Field, d: Dir, a: real, b: V3) {
    forall i: nat, j: nat, k: nat :: i < 3 && j < 3 && k < 3 ==> h(i, j, k) == Along(f, d, i, j, k) * Affine(f, a, b, i, j, k)
  }

  function Inner(f: V3, a: real, b: V3, i: nat, j: nat): real { a + b.x * D(i, f.x) + b.y * D(j, f.y) }

  lemma MomentPoint(f: V3, h: Field, d: Dir, a: real, b: V3, i: nat, j: nat, k: nat)
    requires IsMoment(f, h, d, a, b) && i < 3 && j < 3 && k < 3
    ensures h(i, j, k) == Along(f, d, i, j, k) * (Inner(f, a, b, i, j) + b.z * D(k, f.z))
  {
    hide D, Along;
    Sub(Along(f, d, i, j, k), Affine(f, a, b, i, j, k), Inner(f, a, b, i, j) + b.z * D(k, f.z));
  }

  /** Across a row the distance along X or Y is the same at every node. */
  lemma MomentRowAcross(f: V3, h: Field, d: Dir, a: real, b: V3, i: nat, j: nat, s: real)
    requires IsMoment(f, h, d, a, b) && i < 3 && j < 3 && d != Z && s == (if d == X then D(i, f.x) else D(j, f.y))
    ensures Axis(f.z, h(i, j, 0), h(i, j, 1), h(i, j, 2)) == s * Inner(f, a, b, i, j)
  {
    hide W, D, Axis, Inner, IsMoment;
    var g := Inner(f, a, b, i, j);
    var p0, p1, p2 := g + b.z * D(0, f.z), g + b.z * D(1, f.z), g + b.z * D(2, f.z);
    OnALine(f.z, p0, p1, p2, g, b.z);
    MomentPoint(f, h, d, a, b, i, j, 0);
    MomentPoint(f, h, d, a, b, i, j, 1);
    MomentPoint(f, h, d, a, b, i, j, 2);
    Scaled(f.z, h(i, j, 0), h(i, j, 1), h(i, j, 2), s, p0, p1, p2, g);
  }

  lemma MomentRowAlong(f: V3, h: Field, a: real, b: V3, i: nat, j: nat)
    requires IsMoment(f, h, Z, a, b) && i < 3 && j < 3
    ensures Axis(f.z, h(i, j, 0), h(i, j, 1), h(i, j, 2)) == 0.25 * b.z
  {
    hide W, D, Axis, Inner, IsMoment;
    MomentPoint(f, h, Z, a, b, i, j, 0);
    MomentPoint(f, h, Z, a, b, i, j, 1);
    MomentPoint(f, h, Z, a, b, i, j, 2);
    OnASwing(f.z, h(i, j, 0), h(i, j, 1), h(i, j, 2), Inner(f, a, b, i, j), b.z);
  }

  /** A common factor comes out of an average. */
  lemma Scaled(f: real, x: real, y: real, z: real, s: real, a: real, b: real, c: real, m: real)
    requires x == s * a && y == s * b && z == s * c && Axis(f, a, b, c) == m
    ensures Axis(f, x, y, z) == s * m
  {
    hide W, Axis;
    AxisScale(f, s, a, b, c);
    AxisSame(f, x, y, z, s * a, s * b, s * c);
    Sub(s, Axis(f, a, b, c), m);
  }

  lemma MomentPlaneX(f: V3, h: Field, a: real, b: V3, i: nat)
    requires IsMoment(f, h, X, a, b) && i < 3
    ensures Plane(f, h, i) == W(i, f.x) * (D(i, f.x) * (a + b.x * D(i, f.x)))
  {
    hide W, D, Axis, Plane, IsMoment;
    var s, g := D(i, f.x), a + b.x * D(i, f.x);
    var r0, r1, r2 := Inner(f, a, b, i, 0), Inner(f, a, b, i, 1), Inner(f, a, b, i, 2);
    MomentRowAcross(f, h, X, a, b, i, 0, s);
    MomentRowAcross(f, h, X, a, b, i, 1, s);
    MomentRowAcross(f, h, X, a, b, i, 2, s);
    PlaneFactors(f, h, i, s * r0, s * r1, s * r2);
    OnALine(f.y, r0, r1, r2, g, b.y);
    hide Inner;
    Scaled(f.y, s * r0, s * r1, s * r2, s, r0, r1, r2, g);
    Sub(W(i, f.x), Axis(f.y, s * r0, s * r1, s * r2), s * g);
  }

  lemma MomentPlaneY(f: V3, h: Field, a: real, b: V3, i: nat)
    requires IsMoment(f, h, Y, a, b) && i < 3
    ensures Plane(f, h, i) == W(i, f.x) * (0.25 * b.y)
  {
    hide W, D, Axis, Plane, IsMoment;
    var g := a + b.x * D(i, f.x);
    var d0, d1, d2 := D(0, f.y), D(1, f.y), D(2, f.y);
    var r0, r1, r2 := Inner(f, a, b, i, 0), Inner(f, a, b, i, 1), Inner(f, a, b, i, 2);
    MomentRowAcross(f, h, Y, a, b, i, 0, d0);
    MomentRowAcross(f, h, Y, a, b, i, 1, d1);
    MomentRowAcross(f, h, Y, a, b, i, 2, d2);
    PlaneFactors(f, h, i, d0 * r0, d1 * r1, d2 * r2);
    Sub(d0, r0, g + b.y * d0);
    Sub(d1, r1, g + b.y * d1);
    Sub(d2, r2, g + b.y * d2);
    hide Inner;
    OnASwing(f.y, d0 * r0, d1 * r1, d2 * r2, g, b.y);
    Sub(W(i, f.x), Axis(f.y, d0 * r0, d1 * r1, d2 * r2), 0.25 * b.y);
  }

  lemma MomentPlaneZ(f: V3, h: Field, a: real, b: V3, i: nat)
    requires IsMoment(f, h, Z, a, b) && i < 3
    ensures Plane(f, h, i) == W(i, f.x) * (0.25 * b.z)
  {
    hide W, D, Axis, Plane, IsMoment;
    MomentRowAlong(f, h, a, b, i, 0);
    MomentRowAlong(f, h, a, b, i, 1);
    MomentRowAlong(f, h, a, b, i, 2);
    var q := 0.25 * b.z;
    PlaneFactors(f, h, i, q, q, q);
    OnALine(f.y, q, q, q, q, 0.0);
    Sub(W(i, f.x), Axis(f.y, q, q, q), q);
  }

  lemma AffineMomentX(f: V3, h: Field, a: real, b: V3)
    requires IsMoment(f, h, X, a, b)
    ensures Cube(f, h) == 0.25 * b.x
  {
    hide W, D, Axis, Plane, IsMoment, Cube;
    MomentPlaneX(f, h, a, b, 0);
    MomentPlaneX(f, h, a, b, 1);
    MomentPlaneX(f, h, a, b, 2);
    var m0, m1, m2 := D(0, f.x) * (a + b.x * D(0, f.x)), D(1, f.x) * (a + b.x * D(1, f.x)), D(2, f.x) * (a + b.x * D(2, f.x));
    CubeFactors(f, h, m0, m1, m2);
    OnASwing(f.x, m0, m1, m2, a, b.x);
  }

  lemma AffineMomentY(f: V3, h: Field, a: real, b: V3)
    requires IsMoment(f, h, Y, a, b)
    ensures Cube(f, h) == 0.25 * b.y
  {
    hide W, D, Axis, Plane, IsMoment, Cube;
    MomentPlaneY(f, h, a, b, 0);
    MomentPlaneY(f, h, a, b, 1);
    MomentPlaneY(f, h, a, b, 2);
    var q := 0.25 * b.y;
    CubeFactors(f, h, q, q, q);
    OnALine(f.x, q, q, q, q, 0.0);
  }

  lemma AffineMomentZ(f: V3, h: Field, a: real, b: V3)
    requires IsMoment(f, h, Z, a, b)
    ensures Cube(f, h) == 0.25 * b.z
  {
    hide W, D, Axis, Plane, IsMoment, Cube;
    MomentPlaneZ(f, h, a, b, 0);
    MomentPlaneZ(f, h, a, b, 1);
    MomentPlaneZ(f, h, a, b, 2);
    var q := 0.25 * b.z;
    CubeFactors(f, h, q, q, q);
    OnALine(f.x, q, q, q, q, 0.0);
  }

  /** A quarter of the gradient is the first moment of an affine field. */
  lemma AffineMoment(f: V3, h: Field, d: Dir, a: real, b: V3)
    requires IsMoment(f, h, d, a, b)
    ensures Cube(f, h) == 0.25 * Part(b, d)
  {
    hide W, D, Axis, Plane, IsMoment, Cube;
    match d
    case X => AffineMomentX(f, h, a, b);
    case Y => AffineMomentY(f, h, a, b);
    case Z => AffineMomentZ(f, h, a, b);
  }
}
