/** How large the baked boxes are, and how far from a box its distance says a node is. */
module BakedDistance {
  import opened Stencil
  import opened Transfers
  import opened BakedGrid

  // ---- the inflated box, written out ----------------------------------------------------------

  /** How far along one of the box's own axes a point lies from its own centre. */
  function Coordinate(b: Box, x: V3, axis: V3): real { Dot(Minus(x, b.c), axis) }

  /** Half a cell and a twentieth, or a twentieth more than the side. */
  predicate WithinSide(t: real, h: real) { if h < 0.5 then -0.55 < t < 0.55 else -h - 0.05 < t < h + 0.05 }

  /** The part's own box with a twentieth of a cell around it; where it is thinner than a
    * cell it is one cell and a tenth thick, and upright that grows downward only. */
  predicate Holds(b: Box, x: V3) {
    && WithinSide(Coordinate(b, x, b.ax), b.h.x)
    && (if b.h.y < 0.5 then b.h.y - 1.05 else -b.h.y - 0.05) < Coordinate(b, x, b.ay) < b.h.y + 0.05
    && WithinSide(Coordinate(b, x, b.az), b.h.z)
  }

  lemma DotMinus(x: V3, c: V3, y: V3, s: real, a: V3)
    ensures Dot(Minus(x, Plus(c, y, s)), a) == Dot(Minus(x, c), a) - Dot(y, a) * s
  {
  }

  /** Lowering the centre moves it along the upright axis alone. */
  lemma CentreIs(b: Box, x: V3)
    requires Orthonormal(b)
    ensures var drop := if b.h.y < 0.5 then 0.5 - b.h.y else 0.0;
            && Dot(Minus(x, Centre(b)), b.ax) == Coordinate(b, x, b.ax)
            && Dot(Minus(x, Centre(b)), b.ay) == Coordinate(b, x, b.ay) + drop
            && Dot(Minus(x, Centre(b)), b.az) == Coordinate(b, x, b.az)
  {
    hide Minus, Plus;
    assert Dot(b.ay, b.ay) == 1.0;
    assert Dot(b.ay, b.ax) == 0.0 && Dot(b.ay, b.az) == 0.0 by { Sides(b); }
    if b.h.y < 0.5 {
      DotMinus(x, b.c, b.ay, -(0.5 - b.h.y), b.ax);
      DotMinus(x, b.c, b.ay, -(0.5 - b.h.y), b.ay);
      DotMinus(x, b.c, b.ay, -(0.5 - b.h.y), b.az);
    }
  }

  lemma Sides(b: Box)
    requires Orthonormal(b)
    ensures Dot(b.ay, b.ax) == 0.0 && Dot(b.ay, b.az) == 0.0
  {
    assert D3(b.ax.x, b.ax.y, b.ax.z, b.ay.x, b.ay.y, b.ay.z) == 0.0;
  }

  /** What the bake takes for inside is just that. */
  lemma InsideIsHeld(b: Box, n: Node)
    requires Orthonormal(b)
    ensures StrictlyInside(b, n) <==> Holds(b, Place(n))
  {
    hide Orthonormal, Place, Minus, Centre, Coordinate, Dot;
    CentreIs(b, Place(n));
  }

  /** A part's own box is inside, top and all; and no inflated box is so thin that a cell
    * fits beside it unnoticed. */
  lemma OwnBoxIsHeld(b: Box, x: V3)
    requires b.h.x >= 0.0 && b.h.y >= 0.0 && b.h.z >= 0.0
    requires -b.h.x <= Coordinate(b, x, b.ax) <= b.h.x && -b.h.y <= Coordinate(b, x, b.ay) <= b.h.y && -b.h.z <= Coordinate(b, x, b.az) <= b.h.z
    ensures Holds(b, x)
  {
  }

  /** For any parts: a node reads negative exactly if one of their boxes holds it. */
  lemma BakedIffHeld(boxes: seq<Box>, n: Node, hypot: (real, real, real) -> real)
    requires IsHypot(hypot) && OnGrid(n) && forall b :: b in boxes ==> Orthonormal(b)
    ensures Cell(boxes, n, hypot) < 0.0 <==> exists b :: b in boxes && Holds(b, Place(n))
  {
    hide IsHypot, Orthonormal, Holds, StrictlyInside, Cell;
    BakedIffInside(boxes, n, hypot);
    forall b | b in boxes
      ensures StrictlyInside(b, n) <==> Holds(b, Place(n))
    {
      InsideIsHeld(b, n);
    }
  }

  // ---- how far away ------------------------------------------------------------------------------

  /** The node's place along the box's axes, from the inflated box's centre. */
  function Local(b: Box, n: Node): V3 { V3(Dot(Rel(b, n), b.ax), Dot(Rel(b, n), b.ay), Dot(Rel(b, n), b.az)) }

  /** A point of the inflated box, given along its axes. */
  predicate InBox(h: V3, z: V3) { -h.x <= z.x <= h.x && -h.y <= z.y <= h.y && -h.z <= z.z <= h.z }

  /** The square of how far apart two points are. */
  function Apart2(y: V3, z: V3): real { Sq(y.x - z.x) + Sq(y.y - z.y) + Sq(y.z - z.z) }

  function Nearest1(t: real, h: real): real { if t < -h then -h else if t > h then h else t }

  function Nearest(y: V3, h: V3): V3 { V3(Nearest1(y.x, h.x), Nearest1(y.y, h.y), Nearest1(y.z, h.z)) }

  lemma SquareMono(a: real, b: real)
    requires 0.0 <= a <= b
    ensures a * a <= b * b
  {
  }

  lemma SquareOfAbs(a: real)
    ensures a * a == Abs(a) * Abs(a)
  {
  }

  /** Along one axis: what sticks out is the gap to the nearest point, and no gap is less. */
  lemma OneAxis(t: real, h: real, z: real)
    requires h >= 0.0 && -h <= z <= h
    ensures var o := RMax(Abs(t) - h, 0.0);
            Sq(o) <= Sq(t - z) && Sq(o) == Sq(t - Nearest1(t, h)) && -h <= Nearest1(t, h) <= h
  {
    var o := RMax(Abs(t) - h, 0.0);
    SquareOfAbs(t - z);
    SquareMono(o, Abs(t - z));
    SquareOfAbs(t - Nearest1(t, h));
    assert Abs(t - Nearest1(t, h)) == o;
  }

  /** Outside, the distance is that to the nearest point of the inflated box. */
  lemma OutsideNearest(b: Box, n: Node, hypot: (real, real, real) -> real, z: V3)
    requires IsHypot(hypot) && !StrictlyInside(b, n) && InBox(Inflated(b.h), z)
    ensures var d, y := Distance(b, n, hypot), Local(b, n);
            && d >= 0.0 && Sq(d) <= Apart2(y, z)
            && InBox(Inflated(b.h), Nearest(y, Inflated(b.h))) && Sq(d) == Apart2(y, Nearest(y, Inflated(b.h)))
  {
    hide Rel, Dot, Sq, IsHypot, Inflated, Nearest1;
    InflatedThick(b.h);
    var y, h, l := Local(b, n), Inflated(b.h), Outside(b, n);
    OneAxis(y.x, h.x, z.x);
    OneAxis(y.y, h.y, z.y);
    OneAxis(y.z, h.z, z.z);
    assert Distance(b, n, hypot) == hypot(RMax(l.x, 0.0), RMax(l.y, 0.0), RMax(l.z, 0.0));
    Length(hypot, RMax(l.x, 0.0), RMax(l.y, 0.0), RMax(l.z, 0.0));
  }

  lemma InflatedThick(h: V3)
    ensures var i := Inflated(h); i.x >= 0.55 && i.y >= 0.55 && i.z >= 0.55
  {
  }

  lemma Length(hypot: (real, real, real) -> real, a: real, b: real, c: real)
    requires IsHypot(hypot)
    ensures hypot(a, b, c) >= 0.0 && Sq(hypot(a, b, c)) == Sq(a) + Sq(b) + Sq(c)
  {
  }

  /** How deep behind the nearer face of one pair. */
  function Depth(t: real, h: real): real { h - Abs(t) }

  /** Inside, it is minus the depth behind the nearest face. */
  lemma InsideDepth(b: Box, n: Node, hypot: (real, real, real) -> real)
    requires IsHypot(hypot) && StrictlyInside(b, n)
    ensures var d, y, h := Distance(b, n, hypot), Local(b, n), Inflated(b.h);
            && -d <= Depth(y.x, h.x) && -d <= Depth(y.y, h.y) && -d <= Depth(y.z, h.z)
            && (-d == Depth(y.x, h.x) || -d == Depth(y.y, h.y) || -d == Depth(y.z, h.z))
  {
    hide Rel, Dot, IsHypot;
    HypotZero(hypot, 0.0, 0.0, 0.0);
  }

  // ---- how much is scanned ------------------------------------------------------------------------

  /** A box touches every node within a cell of its bounding box, and none two cells away. */
  lemma ScannedIsNear(n: int, c: real, e: real, origin: real, cells: nat)
    requires 0 <= n < cells
    ensures var t := origin + n as real - c;
            && (-e - 1.0 <= t <= e + 1.0 ==> Low(c, e, origin) <= n <= High(c, e, origin, cells))
            && (Low(c, e, origin) <= n <= High(c, e, origin, cells) ==> -e - 2.0 < t < e + 2.0)
  {
  }

  /** A node's value is the least distance to a box that scans it, and four if that is less
    * or there is none. */
  lemma {:induction false} CellIsLeast(boxes: seq<Box>, n: Node, hypot: (real, real, real) -> real)
    ensures var v := Cell(boxes, n, hypot);
            && v <= 4.0 && (forall b :: b in boxes && Scanned(b, n) ==> v <= Distance(b, n, hypot))
            && (v == 4.0 || exists b :: b in boxes && Scanned(b, n) && v == Distance(b, n, hypot))
    decreases |boxes|
  {
    hide Scanned, Distance;
    if boxes != [] {
      var front, b := boxes[..|boxes| - 1], boxes[|boxes| - 1];
      assert boxes == front + [b];
      CellIsLeast(front, n, hypot);
    }
  }
}
