/** The baked collision grid: every build part's oriented boxes rasterised into one
  * signed-distance grid, each box only near its own bounding box. */
module BakedGrid {
  import opened Stencil
  import opened Transfers
  import opened FluidFlow

  const SDF_FAR: real := 4.0

  datatype Box = Box(c: V3, h: V3, ax: V3, ay: V3, az: V3)

  function Sq(a: real): real { a * a }

  /** The length of a vector. */
  ghost predicate IsHypot(hypot: (real, real, real) -> real) {
    forall a: real, b: real, c: real :: hypot(a, b, c) >= 0.0 && Sq(hypot(a, b, c)) == Sq(a) + Sq(b) + Sq(c)
  }

  /** Only the zero vector has none. */
  lemma HypotZero(hypot: (real, real, real) -> real, a: real, b: real, c: real)
    requires IsHypot(hypot)
    ensures hypot(a, b, c) >= 0.0 && (hypot(a, b, c) == 0.0 <==> a == 0.0 && b == 0.0 && c == 0.0)
  {
    hide Sq;
    SquareSign(a);
    SquareSign(b);
    SquareSign(c);
    SquareSign(hypot(a, b, c));
  }

  lemma SquareSign(a: real)
    ensures Sq(a) >= 0.0 && (Sq(a) == 0.0 <==> a == 0.0)
  {
    hide Sq;
    SquareZero();
    if a > 0.0 { SquareGrows(a); }
    if a < 0.0 {
      SquareGrows(-a);
      SameSquare(a);
    }
  }

  lemma SquareZero()
    ensures Sq(0.0) == 0.0
  {
  }

  lemma SquareGrows(m: real)
    requires m > 0.0
    ensures Sq(m) > 0.0
  {
    hide Sq, Times;
    ProductGrows(m, m);
    SquareIs(m);
  }

  function Times(a: real, b: real): real { a * b }

  lemma SquareIs(m: real)
    ensures Sq(m) == Times(m, m)
  {
  }

  lemma ProductGrows(a: real, b: real)
    requires a > 0.0 && b > 0.0
    ensures Times(a, b) > 0.0
  {
  }

  lemma SameSquare(a: real)
    ensures Sq(-a) == Sq(a)
  {
  }

  function RMax(a: real, b: real): real { if a >= b then a else b }

  function RMin(a: real, b: real): real { if a <= b then a else b }

  function Abs(a: real): real { if a >= 0.0 then a else -a }

  function Minus(a: V3, b: V3): V3 { V3(a.x - b.x, a.y - b.y, a.z - b.z) }

  function Plus(a: V3, b: V3, s: real): V3 { V3(a.x + b.x * s, a.y + b.y * s, a.z + b.z * s) }

  /** A product of two rows or two columns. */
  function D3(a: real, b: real, c: real, d: real, e: real, f: real): real { a * d + b * e + c * f }

  /** The axes of a rotation: orthonormal as rows and as columns. */
  ghost predicate Orthonormal(b: Box) {
    && D3(b.ax.x, b.ax.y, b.ax.z, b.ax.x, b.ax.y, b.ax.z) == 1.0
    && D3(b.ax.x, b.ax.y, b.ax.z, b.ay.x, b.ay.y, b.ay.z) == 0.0
    && D3(b.ax.x, b.ax.y, b.ax.z, b.az.x, b.az.y, b.az.z) == 0.0
    && D3(b.ay.x, b.ay.y, b.ay.z, b.ay.x, b.ay.y, b.ay.z) == 1.0
    && D3(b.ay.x, b.ay.y, b.ay.z, b.az.x, b.az.y, b.az.z) == 0.0
    && D3(b.az.x, b.az.y, b.az.z, b.az.x, b.az.y, b.az.z) == 1.0
    && D3(b.ax.x, b.ay.x, b.az.x, b.ax.x, b.ay.x, b.az.x) == 1.0
    && D3(b.ax.x, b.ay.x, b.az.x, b.ax.y, b.ay.y, b.az.y) == 0.0
    && D3(b.ax.x, b.ay.x, b.az.x, b.ax.z, b.ay.z, b.az.z) == 0.0
    && D3(b.ax.y, b.ay.y, b.az.y, b.ax.y, b.ay.y, b.az.y) == 1.0
    && D3(b.ax.y, b.ay.y, b.az.y, b.ax.z, b.ay.z, b.az.z) == 0.0
    && D3(b.ax.z, b.ay.z, b.az.z, b.ax.z, b.ay.z, b.az.z) == 1.0
  }

  // ---- a part's axes really are those of a rotation ---------------------------------------

  datatype Quat = Quat(x: real, y: real, z: real, w: real)

  function Cross(a: V3, b: V3): V3 { V3(a.y * b.z - a.z * b.y, a.z * b.x - a.x * b.z, a.x * b.y - a.y * b.x) }

  /** A vector turned by a unit quaternion. */
  function Turned(q: Quat, v: V3): V3 {
    var u := V3(q.x, q.y, q.z);
    var t := Cross(u, v);
    var t2 := V3(2.0 * t.x, 2.0 * t.y, 2.0 * t.z);
    var d := Cross(u, t2);
    V3(v.x + q.w * t2.x + d.x, v.y + q.w * t2.y + d.y, v.z + q.w * t2.z + d.z)
  }

  predicate Unit(q: Quat) { q.x * q.x + q.y * q.y + q.z * q.z + q.w * q.w == 1.0 }

  function PartBox(c: V3, h: V3, q: Quat): Box {
    Box(c, h, Turned(q, V3(1.0, 0.0, 0.0)), Turned(q, V3(0.0, 1.0, 0.0)), Turned(q, V3(0.0, 0.0, 1.0)))
  }

  lemma D3Same(a: real, b: real, c: real, d: real, e: real, f: real, p: real, q: real, r: real, s: real, t: real, u: real)
    requires a == p && b == q && c == r && d == s && e == t && f == u
    ensures D3(a, b, c, d, e, f) == D3(p, q, r, s, t, u)
  {
  }

  /** The axes, written so that their products are sums of four squares. */
  function AxisX(x: real, y: real, z: real, w: real): V3 {
    V3(w * w + x * x - y * y - z * z, 2.0 * (x * y + w * z), 2.0 * (x * z - w * y))
  }

  function AxisY(x: real, y: real, z: real, w: real): V3 {
    V3(2.0 * (x * y - w * z), w * w - x * x + y * y - z * z, 2.0 * (y * z + w * x))
  }

  function AxisZ(x: real, y: real, z: real, w: real): V3 {
    V3(2.0 * (x * z + w * y), 2.0 * (y * z - w * x), w * w - x * x - y * y + z * z)
  }

  ghost predicate TurnedBy(b: Box, x: real, y: real, z: real, w: real) {
    b.ax == AxisX(x, y, z, w) && b.ay == AxisY(x, y, z, w) && b.az == AxisZ(x, y, z, w)
  }

  lemma TurnX(q: Quat)
    requires Unit(q)
    ensures Turned(q, V3(1.0, 0.0, 0.0)) == AxisX(q.x, q.y, q.z, q.w)
  {
    var u := V3(q.x, q.y, q.z);
    assert Cross(u, V3(1.0, 0.0, 0.0)) == V3(0.0, q.z, -q.y);
  }

  lemma TurnY(q: Quat)
    requires Unit(q)
    ensures Turned(q, V3(0.0, 1.0, 0.0)) == AxisY(q.x, q.y, q.z, q.w)
  {
    var u := V3(q.x, q.y, q.z);
    assert Cross(u, V3(0.0, 1.0, 0.0)) == V3(-q.z, 0.0, q.x);
  }

  lemma TurnZ(q: Quat)
    requires Unit(q)
    ensures Turned(q, V3(0.0, 0.0, 1.0)) == AxisZ(q.x, q.y, q.z, q.w)
  {
    var u := V3(q.x, q.y, q.z);
    assert Cross(u, V3(0.0, 0.0, 1.0)) == V3(q.y, -q.x, 0.0);
  }

  lemma TurnedAxes(c: V3, h: V3, q: Quat)
    requires Unit(q)
    ensures TurnedBy(PartBox(c, h, q), q.x, q.y, q.z, q.w)
  {
    hide Turned, Unit, AxisX, AxisY, AxisZ;
    TurnX(q);
    TurnY(q);
    TurnZ(q);
  }

  lemma FourSquaresRows(x: real, y: real, z: real, w: real)
    ensures D3(w * w + x * x - y * y - z * z, 2.0 * (x * y + w * z), 2.0 * (x * z - w * y), w * w + x * x - y * y - z * z, 2.0 * (x * y + w * z), 2.0 * (x * z - w * y)) == (x * x + y * y + z * z + w * w) * (x * x + y * y + z * z + w * w)
    ensures D3(w * w + x * x - y * y - z * z, 2.0 * (x * y + w * z), 2.0 * (x * z - w * y), 2.0 * (x * y - w * z), w * w - x * x + y * y - z * z, 2.0 * (y * z + w * x)) == 0.0
    ensures D3(w * w + x * x - y * y - z * z, 2.0 * (x * y + w * z), 2.0 * (x * z - w * y), 2.0 * (x * z + w * y), 2.0 * (y * z - w * x), w * w - x * x - y * y + z * z) == 0.0
    ensures D3(2.0 * (x * y - w * z), w * w - x * x + y * y - z * z, 2.0 * (y * z + w * x), 2.0 * (x * y - w * z), w * w - x * x + y * y - z * z, 2.0 * (y * z + w * x)) == (x * x + y * y + z * z + w * w) * (x * x + y * y + z * z + w * w)
    ensures D3(2.0 * (x * y - w * z), w * w - x * x + y * y - z * z, 2.0 * (y * z + w * x), 2.0 * (x * z + w * y), 2.0 * (y * z - w * x), w * w - x * x - y * y + z * z) == 0.0
    ensures D3(2.0 * (x * z + w * y), 2.0 * (y * z - w * x), w * w - x * x - y * y + z * z, 2.0 * (x * z + w * y), 2.0 * (y * z - w * x), w * w - x * x - y * y + z * z) == (x * x + y * y + z * z + w * w) * (x * x + y * y + z * z + w * w)
  {
  }

  lemma FourSquaresColumns(x: real, y: real, z: real, w: real)
    ensures D3(w * w + x * x - y * y - z * z, 2.0 * (x * y - w * z), 2.0 * (x * z + w * y), w * w + x * x - y * y - z * z, 2.0 * (x * y - w * z), 2.0 * (x * z + w * y)) == (x * x + y * y + z * z + w * w) * (x * x + y * y + z * z + w * w)
    ensures D3(w * w + x * x - y * y - z * z, 2.0 * (x * y - w * z), 2.0 * (x * z + w * y), 2.0 * (x * y + w * z), w * w - x * x + y * y - z * z, 2.0 * (y * z - w * x)) == 0.0
    ensures D3(w * w + x * x - y * y - z * z, 2.0 * (x * y - w * z), 2.0 * (x * z + w * y), 2.0 * (x * z - w * y), 2.0 * (y * z + w * x), w * w - x * x - y * y + z * z) == 0.0
    ensures D3(2.0 * (x * y + w * z), w * w - x * x + y * y - z * z, 2.0 * (y * z - w * x), 2.0 * (x * y + w * z), w * w - x * x + y * y - z * z, 2.0 * (y * z - w * x)) == (x * x + y * y + z * z + w * w) * (x * x + y * y + z * z + w * w)
    ensures D3(2.0 * (x * y + w * z), w * w - x * x + y * y - z * z, 2.0 * (y * z - w * x), 2.0 * (x * z - w * y), 2.0 * (y * z + w * x), w * w - x * x - y * y + z * z) == 0.0
    ensures D3(2.0 * (x * z - w * y), 2.0 * (y * z + w * x), w * w - x * x - y * y + z * z, 2.0 * (x * z - w * y), 2.0 * (y * z + w * x), w * w - x * x - y * y + z * z) == (x * x + y * y + z * z + w * w) * (x * x + y * y + z * z + w * w)
  {
  }

  lemma RowsOrthonormal(b: Box, x: real, y: real, z: real, w: real)
    requires TurnedBy(b, x, y, z, w) && (x * x + y * y + z * z + w * w) * (x * x + y * y + z * z + w * w) == 1.0
    ensures D3(b.ax.x, b.ax.y, b.ax.z, b.ax.x, b.ax.y, b.ax.z) == 1.0
    ensures D3(b.ax.x, b.ax.y, b.ax.z, b.ay.x, b.ay.y, b.ay.z) == 0.0
    ensures D3(b.ax.x, b.ax.y, b.ax.z, b.az.x, b.az.y, b.az.z) == 0.0
    ensures D3(b.ay.x, b.ay.y, b.ay.z, b.ay.x, b.ay.y, b.ay.z) == 1.0
    ensures D3(b.ay.x, b.ay.y, b.ay.z, b.az.x, b.az.y, b.az.z) == 0.0
    ensures D3(b.az.x, b.az.y, b.az.z, b.az.x, b.az.y, b.az.z) == 1.0
  {
    hide D3;
    FourSquaresRows(x, y, z, w);
    D3Same(b.ax.x, b.ax.y, b.ax.z, b.ax.x, b.ax.y, b.ax.z,
           w * w + x * x - y * y - z * z, 2.0 * (x * y + w * z), 2.0 * (x * z - w * y), w * w + x * x - y * y - z * z, 2.0 * (x * y + w * z), 2.0 * (x * z - w * y));
    D3Same(b.ax.x, b.ax.y, b.ax.z, b.ay.x, b.ay.y, b.ay.z,
           w * w + x * x - y * y - z * z, 2.0 * (x * y + w * z), 2.0 * (x * z - w * y), 2.0 * (x * y - w * z), w * w - x * x + y * y - z * z, 2.0 * (y * z + w * x));
    D3Same(b.ax.x, b.ax.y, b.ax.z, b.az.x, b.az.y, b.az.z,
           w * w + x * x - y * y - z * z, 2.0 * (x * y + w * z), 2.0 * (x * z - w * y), 2.0 * (x * z + w * y), 2.0 * (y * z - w * x), w * w - x * x - y * y + z * z);
    D3Same(b.ay.x, b.ay.y, b.ay.z, b.ay.x, b.ay.y, b.ay.z,
           2.0 * (x * y - w * z), w * w - x * x + y * y - z * z, 2.0 * (y * z + w * x), 2.0 * (x * y - w * z), w * w - x * x + y * y - z * z, 2.0 * (y * z + w * x));
    D3Same(b.ay.x, b.ay.y, b.ay.z, b.az.x, b.az.y, b.az.z,
           2.0 * (x * y - w * z), w * w - x * x + y * y - z * z, 2.0 * (y * z + w * x), 2.0 * (x * z + w * y), 2.0 * (y * z - w * x), w * w - x * x - y * y + z * z);
    D3Same(b.az.x, b.az.y, b.az.z, b.az.x, b.az.y, b.az.z,
           2.0 * (x * z + w * y), 2.0 * (y * z - w * x), w * w - x * x - y * y + z * z, 2.0 * (x * z + w * y), 2.0 * (y * z - w * x), w * w - x * x - y * y + z * z);
  }

  lemma ColumnsOrthonormal(b: Box, x: real, y: real, z: real, w: real)
    requires TurnedBy(b, x, y, z, w) && (x * x + y * y + z * z + w * w) * (x * x + y * y + z * z + w * w) == 1.0
    ensures D3(b.ax.x, b.ay.x, b.az.x, b.ax.x, b.ay.x, b.az.x) == 1.0
    ensures D3(b.ax.x, b.ay.x, b.az.x, b.ax.y, b.ay.y, b.az.y) == 0.0
    ensures D3(b.ax.x, b.ay.x, b.az.x, b.ax.z, b.ay.z, b.az.z) == 0.0
    ensures D3(b.ax.y, b.ay.y, b.az.y, b.ax.y, b.ay.y, b.az.y) == 1.0
    ensures D3(b.ax.y, b.ay.y, b.az.y, b.ax.z, b.ay.z, b.az.z) == 0.0
    ensures D3(b.ax.z, b.ay.z, b.az.z, b.ax.z, b.ay.z, b.az.z) == 1.0
  {
    hide D3;
    FourSquaresColumns(x, y, z, w);
    D3Same(b.ax.x, b.ay.x, b.az.x, b.ax.x, b.ay.x, b.az.x,
           w * w + x * x - y * y - z * z, 2.0 * (x * y - w * z), 2.0 * (x * z + w * y), w * w + x * x - y * y - z * z, 2.0 * (x * y - w * z), 2.0 * (x * z + w * y));
    D3Same(b.ax.x, b.ay.x, b.az.x, b.ax.y, b.ay.y, b.az.y,
           w * w + x * x - y * y - z * z, 2.0 * (x * y - w * z), 2.0 * (x * z + w * y), 2.0 * (x * y + w * z), w * w - x * x + y * y - z * z, 2.0 * (y * z - w * x));
    D3Same(b.ax.x, b.ay.x, b.az.x, b.ax.z, b.ay.z, b.az.z,
           w * w + x * x - y * y - z * z, 2.0 * (x * y - w * z), 2.0 * (x * z + w * y), 2.0 * (x * z - w * y), 2.0 * (y * z + w * x), w * w - x * x - y * y + z * z);
    D3Same(b.ax.y, b.ay.y, b.az.y, b.ax.y, b.ay.y, b.az.y,
           2.0 * (x * y + w * z), w * w - x * x + y * y - z * z, 2.0 * (y * z - w * x), 2.0 * (x * y + w * z), w * w - x * x + y * y - z * z, 2.0 * (y * z - w * x));
    D3Same(b.ax.y, b.ay.y, b.az.y, b.ax.z, b.ay.z, b.az.z,
           2.0 * (x * y + w * z), w * w - x * x + y * y - z * z, 2.0 * (y * z - w * x), 2.0 * (x * z - w * y), 2.0 * (y * z + w * x), w * w - x * x - y * y + z * z);
    D3Same(b.ax.z, b.ay.z, b.az.z, b.ax.z, b.ay.z, b.az.z,
           2.0 * (x * z - w * y), 2.0 * (y * z + w * x), w * w - x * x - y * y + z * z, 2.0 * (x * z - w * y), 2.0 * (y * z + w * x), w * w - x * x - y * y + z * z);
  }

  /** Every box a part adds has orthonormal axes. */
  lemma PartBoxOrthonormal(c: V3, h: V3, q: Quat)
    requires Unit(q)
    ensures Orthonormal(PartBox(c, h, q))
  {
    hide PartBox, TurnedBy, D3, Unit;
    var b := PartBox(c, h, q);
    TurnedAxes(c, h, q);
    UnitSquared(q);
    RowsOrthonormal(b, q.x, q.y, q.z, q.w);
    ColumnsOrthonormal(b, q.x, q.y, q.z, q.w);
  }

  lemma UnitSquared(q: Quat)
    requires Unit(q)
    ensures (q.x * q.x + q.y * q.y + q.z * q.z + q.w * q.w) * (q.x * q.x + q.y * q.y + q.z * q.z + q.w * q.w) == 1.0
  {
    Squared(q.x * q.x + q.y * q.y + q.z * q.z + q.w * q.w);
  }

  lemma Squared(n: real)
    requires n == 1.0
    ensures n * n == 1.0
  {
  }

  // ---- the inflated box ----------------------------------------------------------------

  /** Thin sides grow to half a cell and a little. */
  function Inflated(h: V3): V3 { V3(RMax(h.x, 0.5) + 0.05, RMax(h.y, 0.5) + 0.05, RMax(h.z, 0.5) + 0.05) }

  /** A deck thinner than a cell grows downward, so that its top stays where it was. */
  function Centre(b: Box): V3 { if b.h.y < 0.5 then Plus(b.c, b.ay, -(0.5 - b.h.y)) else b.c }

  function Place(n: Node): V3 { V3(ORIGIN + n.x as real, OY + n.y as real, ORIGIN + n.z as real) }

  function Rel(b: Box, n: Node): V3 { Minus(Place(n), Centre(b)) }

  /** How far outside each pair of faces; negative inside. */
  function Outside(b: Box, n: Node): V3 {
    V3(Abs(Dot(Rel(b, n), b.ax)) - Inflated(b.h).x, Abs(Dot(Rel(b, n), b.ay)) - Inflated(b.h).y, Abs(Dot(Rel(b, n), b.az)) - Inflated(b.h).z)
  }

  predicate StrictlyInside(b: Box, n: Node) {
    var l := Outside(b, n);
    l.x < 0.0 && l.y < 0.0 && l.z < 0.0
  }

  function Distance(b: Box, n: Node, hypot: (real, real, real) -> real): real {
    var l := Outside(b, n);
    hypot(RMax(l.x, 0.0), RMax(l.y, 0.0), RMax(l.z, 0.0)) + RMin(RMax(l.x, RMax(l.y, l.z)), 0.0)
  }

  lemma NegativeInside(b: Box, n: Node, hypot: (real, real, real) -> real)
    requires IsHypot(hypot)
    ensures Distance(b, n, hypot) < 0.0 <==> StrictlyInside(b, n)
  {
    hide Outside, IsHypot;
    var l := Outside(b, n);
    HypotZero(hypot, RMax(l.x, 0.0), RMax(l.y, 0.0), RMax(l.z, 0.0));
  }

  // ---- the bounding box scan ---------------------------------------------------------------

  /** Half extents of the bounding box. */
  function Extent(b: Box): V3 {
    var h := Inflated(b.h);
    V3(Abs(b.ax.x) * h.x + Abs(b.ay.x) * h.y + Abs(b.az.x) * h.z,
       Abs(b.ax.y) * h.x + Abs(b.ay.y) * h.y + Abs(b.az.y) * h.z,
       Abs(b.ax.z) * h.x + Abs(b.ay.z) * h.y + Abs(b.az.z) * h.z)
  }

  function IMax(a: int, b: int): int { if a >= b then a else b }

  function IMin(a: int, b: int): int { if a <= b then a else b }

  function Ceil(a: real): int { -((-a).Floor) }

  function Low(c: real, e: real, origin: real): int { IMax(0, (c - e - origin).Floor - 1) }

  function High(c: real, e: real, origin: real, cells: nat): int { IMin(cells - 1, Ceil(c + e - origin) + 1) }

  predicate Scanned(b: Box, n: Node) {
    var c, e := Centre(b), Extent(b);
    && Low(c.x, e.x, ORIGIN) <= n.x <= High(c.x, e.x, ORIGIN, GX)
    && Low(c.y, e.y, OY) <= n.y <= High(c.y, e.y, OY, GY)
    && Low(c.z, e.z, ORIGIN) <= n.z <= High(c.z, e.z, ORIGIN, GZ)
  }

  lemma ScanCovers(n: int, c: real, e: real, origin: real, cells: nat)
    requires 0 <= n < cells && -e <= origin + n as real - c <= e
    ensures Low(c, e, origin) <= n <= High(c, e, origin, cells)
  {
  }

  lemma AbsProduct(a: real, p: real, h: real)
    requires -h <= a <= h
    ensures -(Abs(p) * h) <= a * p <= Abs(p) * h
  {
    if p >= 0.0 { Mono(a, h, p); Mono(-h, a, p); } else { Mono(a, h, -p); Mono(-h, a, -p); }
  }

  lemma Mono(a: real, b: real, s: real)
    requires a <= b && s >= 0.0
    ensures a * s <= b * s
  {
    Positive(b - a, s);
    assert (b - a) * s == b * s - a * s;
  }

  lemma Positive(a: real, b: real)
    requires a >= 0.0 && b >= 0.0
    ensures a * b >= 0.0
  {
  }

  /** Inside the box along every axis, so inside its extent along this one. */
  lemma WithinExtent(r: real, u: real, v: real, w: real, p: real, q: real, s: real, h: V3)
    requires r == u * p + v * q + w * s
    requires -h.x <= u <= h.x && -h.y <= v <= h.y && -h.z <= w <= h.z
    ensures -(Abs(p) * h.x + Abs(q) * h.y + Abs(s) * h.z) <= r <= Abs(p) * h.x + Abs(q) * h.y + Abs(s) * h.z
  {
    hide Abs;
    AbsProduct(u, p, h.x);
    AbsProduct(v, q, h.y);
    AbsProduct(w, s, h.z);
  }

  lemma AbsBound(a: real)
    ensures -Abs(a) <= a <= Abs(a)
  {
  }

  lemma RegroupX(r: V3, ax: V3, ay: V3, az: V3)
    ensures Dot(r, ax) * ax.x + Dot(r, ay) * ay.x + Dot(r, az) * az.x
         == r.x * D3(ax.x, ay.x, az.x, ax.x, ay.x, az.x) + r.y * D3(ax.x, ay.x, az.x, ax.y, ay.y, az.y) + r.z * D3(ax.x, ay.x, az.x, ax.z, ay.z, az.z)
  {
  }

  lemma RebuildX(r: V3, ax: V3, ay: V3, az: V3)
    requires D3(ax.x, ay.x, az.x, ax.x, ay.x, az.x) == 1.0
    requires D3(ax.x, ay.x, az.x, ax.y, ay.y, az.y) == 0.0
    requires D3(ax.x, ay.x, az.x, ax.z, ay.z, az.z) == 0.0
    ensures Dot(r, ax) * ax.x + Dot(r, ay) * ay.x + Dot(r, az) * az.x == r.x
  {
    hide Dot, D3;
    RegroupX(r, ax, ay, az);
    Sub(r.x, D3(ax.x, ay.x, az.x, ax.x, ay.x, az.x), 1.0);
    Sub(r.y, D3(ax.x, ay.x, az.x, ax.y, ay.y, az.y), 0.0);
    Sub(r.z, D3(ax.x, ay.x, az.x, ax.z, ay.z, az.z), 0.0);
  }

  lemma RegroupY(r: V3, ax: V3, ay: V3, az: V3)
    ensures Dot(r, ax) * ax.y + Dot(r, ay) * ay.y + Dot(r, az) * az.y
         == r.x * D3(ax.x, ay.x, az.x, ax.y, ay.y, az.y) + r.y * D3(ax.y, ay.y, az.y, ax.y, ay.y, az.y) + r.z * D3(ax.y, ay.y, az.y, ax.z, ay.z, az.z)
  {
  }

  lemma RebuildY(r: V3, ax: V3, ay: V3, az: V3)
    requires D3(ax.x, ay.x, az.x, ax.y, ay.y, az.y) == 0.0
    requires D3(ax.y, ay.y, az.y, ax.y, ay.y, az.y) == 1.0
    requires D3(ax.y, ay.y, az.y, ax.z, ay.z, az.z) == 0.0
    ensures Dot(r, ax) * ax.y + Dot(r, ay) * ay.y + Dot(r, az) * az.y == r.y
  {
    hide Dot, D3;
    RegroupY(r, ax, ay, az);
    Sub(r.x, D3(ax.x, ay.x, az.x, ax.y, ay.y, az.y), 0.0);
    Sub(r.y, D3(ax.y, ay.y, az.y, ax.y, ay.y, az.y), 1.0);
    Sub(r.z, D3(ax.y, ay.y, az.y, ax.z, ay.z, az.z), 0.0);
  }

  lemma RegroupZ(r: V3, ax: V3, ay: V3, az: V3)
    ensures Dot(r, ax) * ax.z + Dot(r, ay) * ay.z + Dot(r, az) * az.z
         == r.x * D3(ax.x, ay.x, az.x, ax.z, ay.z, az.z) + r.y * D3(ax.y, ay.y, az.y, ax.z, ay.z, az.z) + r.z * D3(ax.z, ay.z, az.z, ax.z, ay.z, az.z)
  {
  }

  lemma RebuildZ(r: V3, ax: V3, ay: V3, az: V3)
    requires D3(ax.x, ay.x, az.x, ax.z, ay.z, az.z) == 0.0
    requires D3(ax.y, ay.y, az.y, ax.z, ay.z, az.z) == 0.0
    requires D3(ax.z, ay.z, az.z, ax.z, ay.z, az.z) == 1.0
    ensures Dot(r, ax) * ax.z + Dot(r, ay) * ay.z + Dot(r, az) * az.z == r.z
  {
    hide Dot, D3;
    RegroupZ(r, ax, ay, az);
    Sub(r.x, D3(ax.x, ay.x, az.x, ax.z, ay.z, az.z), 0.0);
    Sub(r.y, D3(ax.y, ay.y, az.y, ax.z, ay.z, az.z), 0.0);
    Sub(r.z, D3(ax.z, ay.z, az.z, ax.z, ay.z, az.z), 1.0);
  }

  lemma FaceBounds(b: Box, n: Node)
    requires StrictlyInside(b, n)
    ensures var r, h := Rel(b, n), Inflated(b.h);
            -h.x <= Dot(r, b.ax) <= h.x && -h.y <= Dot(r, b.ay) <= h.y && -h.z <= Dot(r, b.az) <= h.z
  {
    hide Inflated, Rel, Dot, Abs;
    AbsBound(Dot(Rel(b, n), b.ax));
    AbsBound(Dot(Rel(b, n), b.ay));
    AbsBound(Dot(Rel(b, n), b.az));
  }

  /** A vector is the sum of its projections on the box's axes. */
  lemma Coordinates(b: Box, r: V3)
    requires Orthonormal(b)
    ensures Dot(r, b.ax) * b.ax.x + Dot(r, b.ay) * b.ay.x + Dot(r, b.az) * b.az.x == r.x
    ensures Dot(r, b.ax) * b.ax.y + Dot(r, b.ay) * b.ay.y + Dot(r, b.az) * b.az.y == r.y
    ensures Dot(r, b.ax) * b.ax.z + Dot(r, b.ay) * b.ay.z + Dot(r, b.az) * b.az.z == r.z
  {
    hide Dot, D3;
    RebuildX(r, b.ax, b.ay, b.az);
    RebuildY(r, b.ax, b.ay, b.az);
    RebuildZ(r, b.ax, b.ay, b.az);
  }

  lemma SpansX(b: Box, n: Node)
    requires Orthonormal(b) && StrictlyInside(b, n)
    ensures -Extent(b).x <= Rel(b, n).x <= Extent(b).x
  {
    hide Inflated, Rel, Centre, Dot, Abs, Orthonormal, StrictlyInside;
    var r := Rel(b, n);
    Coordinates(b, r);
    FaceBounds(b, n);
    WithinExtent(r.x, Dot(r, b.ax), Dot(r, b.ay), Dot(r, b.az), b.ax.x, b.ay.x, b.az.x, Inflated(b.h));
  }

  lemma SpansY(b: Box, n: Node)
    requires Orthonormal(b) && StrictlyInside(b, n)
    ensures -Extent(b).y <= Rel(b, n).y <= Extent(b).y
  {
    hide Inflated, Rel, Centre, Dot, Abs, Orthonormal, StrictlyInside;
    var r := Rel(b, n);
    Coordinates(b, r);
    FaceBounds(b, n);
    WithinExtent(r.y, Dot(r, b.ax), Dot(r, b.ay), Dot(r, b.az), b.ax.y, b.ay.y, b.az.y, Inflated(b.h));
  }

  lemma SpansZ(b: Box, n: Node)
    requires Orthonormal(b) && StrictlyInside(b, n)
    ensures -Extent(b).z <= Rel(b, n).z <= Extent(b).z
  {
    hide Inflated, Rel, Centre, Dot, Abs, Orthonormal, StrictlyInside;
    var r := Rel(b, n);
    Coordinates(b, r);
    FaceBounds(b, n);
    WithinExtent(r.z, Dot(r, b.ax), Dot(r, b.ay), Dot(r, b.az), b.ax.z, b.ay.z, b.az.z, Inflated(b.h));
  }

  /** The clipped bounding-box scan misses no node that is inside the box. */
  lemma InsideIsScanned(b: Box, n: Node)
    requires Orthonormal(b) && OnGrid(n) && StrictlyInside(b, n)
    ensures Scanned(b, n)
  {
    hide Orthonormal, StrictlyInside, Extent, Centre, Low, High;
    SpansX(b, n);
    SpansY(b, n);
    SpansZ(b, n);
    var c, e := Centre(b), Extent(b);
    ScanCovers(n.x, c.x, e.x, ORIGIN, GX);
    ScanCovers(n.y, c.y, e.y, OY, GY);
    ScanCovers(n.z, c.z, e.z, ORIGIN, GZ);
  }

  // ---- the baked value of one node -----------------------------------------------------------

  function Stamp(v: real, b: Box, n: Node, hypot: (real, real, real) -> real): real {
    if Scanned(b, n) && Distance(b, n, hypot) < v then Distance(b, n, hypot) else v
  }

  /** The least distance to any box that scans the node, or far. */
  function Cell(boxes: seq<Box>, n: Node, hypot: (real, real, real) -> real): real {
    if boxes == [] then SDF_FAR else Stamp(Cell(boxes[..|boxes| - 1], n, hypot), boxes[|boxes| - 1], n, hypot)
  }

  /** The index agrees with brute force: a node's value is negative if and only if
    * the node lies strictly inside some inflated box. */
  lemma {:induction false} BakedIffInside(boxes: seq<Box>, n: Node, hypot: (real, real, real) -> real)
    requires IsHypot(hypot) && OnGrid(n) && forall b :: b in boxes ==> Orthonormal(b)
    ensures Cell(boxes, n, hypot) < 0.0 <==> exists b :: b in boxes && StrictlyInside(b, n)
    decreases |boxes|
  {
    hide IsHypot, Orthonormal, StrictlyInside, Distance, Scanned;
    if boxes != [] {
      var front, b := boxes[..|boxes| - 1], boxes[|boxes| - 1];
      assert boxes == front + [b];
      BakedIffInside(front, n, hypot);
      NegativeInside(b, n, hypot);
      if StrictlyInside(b, n) { InsideIsScanned(b, n); }
    }
  }

  // ---- the bake itself ---------------------------------------------------------------------------

  lemma NodeIndexOf(at: int)
    requires 0 <= at < CELLS
    ensures OnGrid(NodeOf(at)) && NodeIndex(NodeOf(at)) == at
  {
    assert at / GX == at / (GX * GY) * GY + at / GX % GY;
  }

  lemma SameNode(n: Node, at: int)
    requires OnGrid(n) && 0 <= at < CELLS
    ensures 0 <= NodeIndex(n) < CELLS && (NodeOf(at) == n <==> at == NodeIndex(n))
  {
    hide NodeOf, NodeIndex;
    NodeIndexOf(at);
    NodeOfIndex(n);
    NodeIndexInjective(n, n);
  }

  /** One node of one box's scan. */
  method StampNode(g: array<real>, b: Box, n: Node, hypot: (real, real, real) -> real)
    requires g.Length == CELLS && OnGrid(n) && Scanned(b, n)
    modifies g
    ensures forall at :: 0 <= at < CELLS ==>
              g[at] == if NodeOf(at) == n then Stamp(old(g[at]), b, n, hypot) else old(g[at])
  {
    hide NodeOf, NodeIndex, Distance, Scanned;
    forall at | 0 <= at < CELLS
      ensures 0 <= NodeIndex(n) < CELLS && (NodeOf(at) == n <==> at == NodeIndex(n))
    {
      SameNode(n, at);
    }
    NodeIndexInjective(n, n);
    var idx, d := NodeIndex(n), Distance(b, n, hypot);
    if d < g[idx] { g[idx] := d; }
  }

  method StampRow(g: array<real>, b: Box, y: int, z: int, hypot: (real, real, real) -> real)
    requires g.Length == CELLS && 0 <= y < GY && 0 <= z < GZ
    requires Low(Centre(b).y, Extent(b).y, OY) <= y <= High(Centre(b).y, Extent(b).y, OY, GY)
    requires Low(Centre(b).z, Extent(b).z, ORIGIN) <= z <= High(Centre(b).z, Extent(b).z, ORIGIN, GZ)
    modifies g
    ensures forall at :: 0 <= at < CELLS ==>
              g[at] == if NodeOf(at).y == y && NodeOf(at).z == z then Stamp(old(g[at]), b, NodeOf(at), hypot) else old(g[at])
  {
    hide NodeOf, Distance, Centre, Extent, Low, High;
    var c, e := Centre(b), Extent(b);
    var i, i1 := Low(c.x, e.x, ORIGIN), High(c.x, e.x, ORIGIN, GX);
    LowHigh(c.x, e.x, ORIGIN, GX);
    ghost var g0 := g[..];
    while i <= i1
      invariant Low(c.x, e.x, ORIGIN) <= i
      invariant forall at :: 0 <= at < CELLS ==>
                  g[at] == if NodeOf(at).y == y && NodeOf(at).z == z && NodeOf(at).x < i then Stamp(g0[at], b, NodeOf(at), hypot) else g0[at]
      decreases i1 - i
    {
      StampNode(g, b, Node(i, y, z), hypot);
      i := i + 1;
    }
  }

  lemma LowHigh(c: real, e: real, origin: real, cells: nat)
    ensures 0 <= Low(c, e, origin) && High(c, e, origin, cells) <= cells - 1
  {
  }

  method StampPlane(g: array<real>, b: Box, z: int, hypot: (real, real, real) -> real)
    requires g.Length == CELLS && 0 <= z < GZ
    requires Low(Centre(b).z, Extent(b).z, ORIGIN) <= z <= High(Centre(b).z, Extent(b).z, ORIGIN, GZ)
    modifies g
    ensures forall at :: 0 <= at < CELLS ==>
              g[at] == if NodeOf(at).z == z then Stamp(old(g[at]), b, NodeOf(at), hypot) else old(g[at])
  {
    hide NodeOf, Distance, Centre, Extent, Low, High;
    var c, e := Centre(b), Extent(b);
    var j, j1 := Low(c.y, e.y, OY), High(c.y, e.y, OY, GY);
    LowHigh(c.y, e.y, OY, GY);
    ghost var g0 := g[..];
    while j <= j1
      invariant Low(c.y, e.y, OY) <= j
      invariant forall at :: 0 <= at < CELLS ==>
                  g[at] == if NodeOf(at).z == z && NodeOf(at).y < j then Stamp(g0[at], b, NodeOf(at), hypot) else g0[at]
      decreases j1 - j
    {
      StampRow(g, b, j, z, hypot);
      j := j + 1;
    }
  }

  method StampBox(g: array<real>, b: Box, hypot: (real, real, real) -> real)
    requires g.Length == CELLS
    modifies g
    ensures forall at :: 0 <= at < CELLS ==> g[at] == Stamp(old(g[at]), b, NodeOf(at), hypot)
  {
    hide NodeOf, Distance, Centre, Extent, Low, High;
    var c, e := Centre(b), Extent(b);
    var k, k1 := Low(c.z, e.z, ORIGIN), High(c.z, e.z, ORIGIN, GZ);
    LowHigh(c.z, e.z, ORIGIN, GZ);
    ghost var g0 := g[..];
    while k <= k1
      invariant Low(c.z, e.z, ORIGIN) <= k
      invariant forall at :: 0 <= at < CELLS ==>
                  g[at] == if NodeOf(at).z < k then Stamp(g0[at], b, NodeOf(at), hypot) else g0[at]
      decreases k1 - k
    {
      StampPlane(g, b, k, hypot);
      k := k + 1;
    }
  }

  /** Rasterise every box, however many: afterwards a node reads negative exactly if
    * it lies strictly inside one of them. */
  method Bake(boxes: seq<Box>, g: array<real>, hypot: (real, real, real) -> real)
    requires g.Length == CELLS && IsHypot(hypot) && forall b :: b in boxes ==> Orthonormal(b)
    modifies g
    ensures forall at :: 0 <= at < CELLS ==> g[at] == Cell(boxes, NodeOf(at), hypot)
    ensures forall at :: 0 <= at < CELLS ==> (g[at] < 0.0 <==> exists b :: b in boxes && StrictlyInside(b, NodeOf(at)))
  {
    hide NodeOf, Stamp, StrictlyInside, Orthonormal, IsHypot;
    var i := 0;
    while i < CELLS
      invariant 0 <= i <= CELLS
      invariant forall at :: 0 <= at < i ==> g[at] == SDF_FAR
    {
      g[i] := SDF_FAR;
      i := i + 1;
    }
    for t := 0 to |boxes|
      invariant forall at :: 0 <= at < CELLS ==> g[at] == Cell(boxes[..t], NodeOf(at), hypot)
    {
      StampBox(g, boxes[t], hypot);
      CellMore(boxes, t, hypot);
    }
    assert boxes[..|boxes|] == boxes;
    BakedEverywhere(boxes, hypot);
  }

  lemma CellMore(boxes: seq<Box>, t: nat, hypot: (real, real, real) -> real)
    requires t < |boxes|
    ensures forall at :: 0 <= at < CELLS ==> Cell(boxes[..t + 1], NodeOf(at), hypot) == Stamp(Cell(boxes[..t], NodeOf(at), hypot), boxes[t], NodeOf(at), hypot)
  {
    hide NodeOf, Stamp;
    assert boxes[..t + 1][..t] == boxes[..t];
  }

  lemma BakedEverywhere(boxes: seq<Box>, hypot: (real, real, real) -> real)
    requires IsHypot(hypot) && forall b :: b in boxes ==> Orthonormal(b)
    ensures forall at :: 0 <= at < CELLS ==> (Cell(boxes, NodeOf(at), hypot) < 0.0 <==> exists b :: b in boxes && StrictlyInside(b, NodeOf(at)))
  {
    hide NodeOf, Stamp, StrictlyInside, Orthonormal, IsHypot;
    forall at | 0 <= at < CELLS
      ensures Cell(boxes, NodeOf(at), hypot) < 0.0 <==> exists b :: b in boxes && StrictlyInside(b, NodeOf(at))
    {
      NodeIndexOf(at);
      BakedIffInside(boxes, NodeOf(at), hypot);
    }
  }
}
