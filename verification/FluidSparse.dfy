/** How far an affine flow strays where the grid is nearly empty: the lightest nodes keep
  * momentum instead of velocity, and each costs at most its own small share. */
module FluidSparse {
  import opened Stencil
  import opened Transfers
  import opened Fluid
  import opened FluidFlow
  import opened FixedPoint

  // ---- sums over the stencil, unweighted --------------------------------------------------

  function RowSum(b: Field, i: nat, j: nat): real { b(i, j, 0) + b(i, j, 1) + b(i, j, 2) }

  function PlaneSum(b: Field, i: nat): real { RowSum(b, i, 0) + RowSum(b, i, 1) + RowSum(b, i, 2) }

  function CubeSum(b: Field): real { PlaneSum(b, 0) + PlaneSum(b, 1) + PlaneSum(b, 2) }

  predicate Near(x: real, y: real, e: real) { -e <= x - y <= e }

  function Share(f: V3, h: Field, i: nat, j: nat, k: nat): real
    requires i < 3 && j < 3 && k < 3
  {
    Times(Wt(f, i, j, k), h(i, j, k))
  }

  function Times(w: real, x: real): real { w * x }

  lemma RowShares(f: V3, h: Field, i: nat, j: nat)
    requires i < 3 && j < 3
    ensures Row(f, h, i, j) == Share(f, h, i, j, 0) + Share(f, h, i, j, 1) + Share(f, h, i, j, 2)
  {
    hide Wt;
  }

  lemma ShareIs(f: V3, h: Field, i: nat, j: nat, k: nat, v: real)
    requires i < 3 && j < 3 && k < 3 && h(i, j, k) == v
    ensures Share(f, h, i, j, k) == Times(Wt(f, i, j, k), v)
  {
    hide Wt, Times;
  }

  /** Node by node, the weighted values differ by no more than `b`. */
  ghost predicate NodesNear(f: V3, h: Field, a: Field, b: Field) {
    forall i: nat, j: nat, k: nat :: i < 3 && j < 3 && k < 3 ==> Near(Share(f, h, i, j, k), Share(f, a, i, j, k), b(i, j, k))
  }

  lemma ThreeNear(x0: real, x1: real, x2: real, y0: real, y1: real, y2: real, e0: real, e1: real, e2: real)
    requires Near(x0, y0, e0) && Near(x1, y1, e1) && Near(x2, y2, e2)
    ensures Near(x0 + x1 + x2, y0 + y1 + y2, e0 + e1 + e2)
  {
  }

  lemma RowNear(f: V3, h: Field, a: Field, b: Field, i: nat, j: nat)
    requires NodesNear(f, h, a, b) && i < 3 && j < 3
    ensures Near(Row(f, h, i, j), Row(f, a, i, j), RowSum(b, i, j))
  {
    hide Share, Near, Row;
    RowShares(f, h, i, j);
    RowShares(f, a, i, j);
    ThreeNear(Share(f, h, i, j, 0), Share(f, h, i, j, 1), Share(f, h, i, j, 2), Share(f, a, i, j, 0), Share(f, a, i, j, 1), Share(f, a, i, j, 2),
              b(i, j, 0), b(i, j, 1), b(i, j, 2));
  }

  lemma PlaneNear(f: V3, h: Field, a: Field, b: Field, i: nat)
    requires NodesNear(f, h, a, b) && i < 3
    ensures Near(Plane(f, h, i), Plane(f, a, i), PlaneSum(b, i))
  {
    hide Row, RowSum, Near, NodesNear;
    RowNear(f, h, a, b, i, 0);
    RowNear(f, h, a, b, i, 1);
    RowNear(f, h, a, b, i, 2);
    ThreeNear(Row(f, h, i, 0), Row(f, h, i, 1), Row(f, h, i, 2), Row(f, a, i, 0), Row(f, a, i, 1), Row(f, a, i, 2),
              RowSum(b, i, 0), RowSum(b, i, 1), RowSum(b, i, 2));
  }

  lemma CubeNear(f: V3, h: Field, a: Field, b: Field)
    requires NodesNear(f, h, a, b)
    ensures Near(Cube(f, h), Cube(f, a), CubeSum(b))
  {
    hide Plane, PlaneSum, Near, NodesNear;
    PlaneNear(f, h, a, b, 0);
    PlaneNear(f, h, a, b, 1);
    PlaneNear(f, h, a, b, 2);
    ThreeNear(Plane(f, h, 0), Plane(f, h, 1), Plane(f, h, 2), Plane(f, a, 0), Plane(f, a, 1), Plane(f, a, 2),
              PlaneSum(b, 0), PlaneSum(b, 1), PlaneSum(b, 2));
  }

  // ---- a particle weighs on each of its nodes ------------------------------------------------

  lemma InRow(p: V3, h: Field, i: nat, j: nat, k: nat)
    requires i < 3 && j < 3 && k < 3
    ensures AddAt(p, h, i, j, k) in RowAdds(p, h, i, j, 3)
  {
    hide AddAt;
    assert RowAdds(p, h, i, j, 3) == RowAdds(p, h, i, j, 2) + [AddAt(p, h, i, j, 2)];
    assert RowAdds(p, h, i, j, 2) == RowAdds(p, h, i, j, 1) + [AddAt(p, h, i, j, 1)];
    assert RowAdds(p, h, i, j, 1) == RowAdds(p, h, i, j, 0) + [AddAt(p, h, i, j, 0)];
  }

  lemma InPlane(p: V3, h: Field, i: nat, j: nat, a: Add)
    requires i < 3 && j < 3 && a in RowAdds(p, h, i, j, 3)
    ensures a in PlaneAdds(p, h, i, 3)
  {
    hide RowAdds;
    assert PlaneAdds(p, h, i, 3) == PlaneAdds(p, h, i, 2) + RowAdds(p, h, i, 2, 3);
    assert PlaneAdds(p, h, i, 2) == PlaneAdds(p, h, i, 1) + RowAdds(p, h, i, 1, 3);
    assert PlaneAdds(p, h, i, 1) == PlaneAdds(p, h, i, 0) + RowAdds(p, h, i, 0, 3);
  }

  lemma InCube(p: V3, h: Field, i: nat, a: Add)
    requires i < 3 && a in PlaneAdds(p, h, i, 3)
    ensures a in CubeAdds(p, h, 3)
  {
    hide PlaneAdds;
    assert CubeAdds(p, h, 3) == CubeAdds(p, h, 2) + PlaneAdds(p, h, 2, 3);
    assert CubeAdds(p, h, 2) == CubeAdds(p, h, 1) + PlaneAdds(p, h, 1, 3);
    assert CubeAdds(p, h, 1) == CubeAdds(p, h, 0) + PlaneAdds(p, h, 0, 3);
  }

  lemma {:induction false} InScattered(ps: seq<Particle>, p: Particle, a: Add)
    requires p in ps && p.alive && a in CubeAdds(p.pos, MassField(p), 3)
    ensures a in Scattered(ps, Mass)
    decreases |ps|
  {
    hide CubeAdds;
    var before, last := ps[..|ps| - 1], ps[|ps| - 1];
    assert ps == before + [last];
    if p in before { InScattered(before, p, a); }
  }

  lemma {:induction false} HoldsEach(adds: seq<Add>, a: Add)
    requires Sound(adds, true) && a in adds
    ensures AtNode(adds, a.at) >= a.amount >= 0.0
    decreases |adds|
  {
    var before, last := adds[..|adds| - 1], adds[|adds| - 1];
    assert adds == before + [last];
    HoldsNothingNegative(before, a.at);
    if a in before { HoldsEach(before, a); }
  }

  lemma {:induction false} HoldsNothingNegative(adds: seq<Add>, at: int)
    requires Sound(adds, true)
    ensures AtNode(adds, at) >= 0.0
    decreases |adds|
  {
    if adds != [] { HoldsNothingNegative(adds[..|adds| - 1], at); }
  }

  function NodeMass(ps: seq<Particle>, p: V3, i: nat, j: nat, k: nat): real {
    AtNode(Scattered(ps, Mass), NodeIndex(NodeAt(p, i, j, k)))
  }

  /** A node of its stencil holds at least the particle's own share. */
  lemma OwnShare(ps: seq<Particle>, p: Particle, i: nat, j: nat, k: nat)
    requires AllInRange(ps) && p in ps && p.alive && i < 3 && j < 3 && k < 3
    ensures 0.0 <= Wt(Fx(p.pos), i, j, k) <= NodeMass(ps, p.pos, i, j, k)
  {
    hide Scattered, AtNode, Wt, Fx, NodeIndex, NodeAt, CubeAdds, PlaneAdds, RowAdds, Sound, AllInRange;
    var a := AddAt(p.pos, MassField(p), i, j, k);
    InRow(p.pos, MassField(p), i, j, k);
    InPlane(p.pos, MassField(p), i, j, a);
    InCube(p.pos, MassField(p), i, a);
    InScattered(ps, p, a);
    ScatteredSound(ps, Mass);
    HoldsEach(Scattered(ps, Mass), a);
    PositiveWeight(p.pos, i, j, k);
    OneTimes(Wt(Fx(p.pos), i, j, k));
  }

  lemma OneTimes(w: real)
    ensures w * 1.0 == w
  {
  }

  // ---- the error ---------------------------------------------------------------------------------

  /** One for every light node of the stencil. */
  function Light(ps: seq<Particle>, p: V3): Field {
    (i: nat, j: nat, k: nat) => if NodeMass(ps, p, i, j, k) > 0.0001 then 0.0 else 1.0
  }

  function LightNodes(ps: seq<Particle>, p: V3): real { CubeSum(Light(ps, p)) }

  /** A ten-thousandth of the fastest flow, for each light node. */
  function Cost(ps: seq<Particle>, p: V3, top: real): real { Times(LightNodes(ps, p), 0.0001 * top) }

  /** At none of the particle's nodes does any component of the flow exceed `top`. */
  ghost predicate FlowBelow(p: V3, u: V3, b: M3, top: real) {
    forall d: Dir, i: nat, j: nat, k: nat :: i < 3 && j < 3 && k < 3 ==> Near(Part(FlowAt(u, b, Coords(NodeAt(p, i, j, k))), d), 0.0, top)
  }

  /** What an ideal grid would hold. */
  function IdealField(p: V3, u: V3, b: M3, d: Dir): Field {
    (i: nat, j: nat, k: nat) => Part(FlowAt(u, b, Coords(NodeAt(p, i, j, k))), d)
  }

  /** A node's velocity is the flow there, or, where it is light, its mass times that. */
  lemma NodeOff(w: real, m: real, v: real, mom: real, top: real)
    requires 0.0 <= w <= m && Near(v, 0.0, top) && top >= 0.0 && mom == m * v
    ensures Near(Times(w, NodeVelocity(m, mom)), Times(w, v), if m > LIGHT then 0.0 else LIGHT * top)
  {
    if m > LIGHT {
      DivideBack(m, v);
      assert NodeVelocity(m, mom) == v;
      Sub(w, NodeVelocity(m, mom), v);
    } else {
      Sub(w, NodeVelocity(m, mom), m * v);
      var t := w * (1.0 - m);
      assert 0.0 <= t <= LIGHT by {
        assert 0.0 <= w * m by { MulPositive(w, m); }
        assert w * (1.0 - m) == w - w * m;
        MulPositive(w, 1.0 - m);
      }
      assert w * (m * v) - w * v == -(t * v) by { Regroup(w, m, v); }
      Squeezed(t, v, top);
    }
  }

  lemma Regroup(w: real, m: real, v: real)
    ensures w * (m * v) - w * v == -((w * (1.0 - m)) * v)
  {
    assert (w * (1.0 - m)) * v == w * ((1.0 - m) * v);
    assert (1.0 - m) * v == v - m * v;
    assert w * (v - m * v) == w * v - w * (m * v);
  }

  lemma Squeezed(t: real, v: real, top: real)
    requires 0.0 <= t <= LIGHT && Near(v, 0.0, top)
    ensures Near(t * v, 0.0, LIGHT * top) && Near(-(t * v), 0.0, LIGHT * top)
  {
    MulPositive(t, top - v);
    MulPositive(t, top + v);
    MulPositive(LIGHT - t, top);
    assert t * (top - v) == t * top - t * v && t * (top + v) == t * top + t * v;
    assert (LIGHT - t) * top == LIGHT * top - t * top;
  }

  /** The bound at each node, for the value itself or for the value times an arm of it. */
  function Off(ps: seq<Particle>, p: V3, e: real): Field {
    (i: nat, j: nat, k: nat) => Times(Light(ps, p)(i, j, k), e)
  }

  lemma SumScales(ps: seq<Particle>, p: V3, e: real)
    ensures CubeSum(Off(ps, p, e)) == Times(LightNodes(ps, p), e)
  {
    hide Light, Times, PlaneSum, Off;
    PlaneScales(ps, p, e, 0);
    PlaneScales(ps, p, e, 1);
    PlaneScales(ps, p, e, 2);
    Thrice(PlaneSum(Light(ps, p), 0), PlaneSum(Light(ps, p), 1), PlaneSum(Light(ps, p), 2), e);
  }

  lemma PlaneScales(ps: seq<Particle>, p: V3, e: real, i: nat)
    ensures PlaneSum(Off(ps, p, e), i) == Times(PlaneSum(Light(ps, p), i), e)
  {
    hide Light, Times, RowSum, Off;
    RowScales(ps, p, e, i, 0);
    RowScales(ps, p, e, i, 1);
    RowScales(ps, p, e, i, 2);
    Thrice(RowSum(Light(ps, p), i, 0), RowSum(Light(ps, p), i, 1), RowSum(Light(ps, p), i, 2), e);
  }

  lemma RowScales(ps: seq<Particle>, p: V3, e: real, i: nat, j: nat)
    ensures RowSum(Off(ps, p, e), i, j) == Times(RowSum(Light(ps, p), i, j), e)
  {
    hide Light, Times;
    Thrice(Light(ps, p)(i, j, 0), Light(ps, p)(i, j, 1), Light(ps, p)(i, j, 2), e);
  }

  lemma Thrice(x: real, y: real, z: real, e: real)
    ensures Times(x + y + z, e) == Times(x, e) + Times(y, e) + Times(z, e)
  {
  }

  /** Node by node the grid is off by no more than `LIGHT * top` where it is light. */
  lemma GridNear(ps: seq<Particle>, u: V3, b: M3, p: Particle, d: Dir, top: real)
    requires AllFollow(ps, u, b) && p in ps && p.alive && FlowBelow(p.pos, u, b, top) && top >= 0.0
    ensures NodesNear(Fx(p.pos), GridVelocity(ps, p.pos, d), IdealField(p.pos, u, b, d), Off(ps, p.pos, LIGHT * top))
  {
    hide NodeMass, FlowAt, Fx, Near, Share, GridVelocity, IdealField, Off, AllFollow, FlowBelow;
    forall i: nat, j: nat, k: nat | i < 3 && j < 3 && k < 3
      ensures Near(Share(Fx(p.pos), GridVelocity(ps, p.pos, d), i, j, k), Share(Fx(p.pos), IdealField(p.pos, u, b, d), i, j, k),
                   Off(ps, p.pos, LIGHT * top)(i, j, k))
    {
      NodeNear(ps, u, b, p, d, top, i, j, k);
    }
  }

  lemma NodeNear(ps: seq<Particle>, u: V3, b: M3, p: Particle, d: Dir, top: real, i: nat, j: nat, k: nat)
    requires AllFollow(ps, u, b) && p in ps && p.alive && FlowBelow(p.pos, u, b, top) && top >= 0.0 && i < 3 && j < 3 && k < 3
    ensures Near(Share(Fx(p.pos), GridVelocity(ps, p.pos, d), i, j, k), Share(Fx(p.pos), IdealField(p.pos, u, b, d), i, j, k),
                 Off(ps, p.pos, LIGHT * top)(i, j, k))
  {
    hide Scattered, AtNode, NodeIndex, NodeAt, FlowAt, Part, Coords, Wt, Fx, Near, NodeVelocity, Follows, InRange, OnGrid, Share, Times;
    assert AllInRange(ps) && InRange(p.pos);
    var n, m := NodeAt(p.pos, i, j, k), NodeMass(ps, p.pos, i, j, k);
    StencilOnGrid(p.pos, i, j, k);
    NodeCarriesTheFlow(ps, u, b, d, n);
    OwnShare(ps, p, i, j, k);
    var v := Part(FlowAt(u, b, Coords(n)), d);
    assert Near(v, 0.0, top);
    var mom := AtNode(Scattered(ps, Momentum(d)), NodeIndex(n));
    SameProduct(AtNode(Scattered(ps, Mass), NodeIndex(n)), Part(FlowAt(u, b, Coords(n)), d), m, v);
    assert GridVelocity(ps, p.pos, d)(i, j, k) == NodeVelocity(m, mom);
    ShareIs(Fx(p.pos), GridVelocity(ps, p.pos, d), i, j, k, NodeVelocity(m, mom));
    ShareIs(Fx(p.pos), IdealField(p.pos, u, b, d), i, j, k, v);
    NodeOff(Wt(Fx(p.pos), i, j, k), m, v, mom, top);
    OneOrNone(LIGHT * top);
    OffIs(ps, p.pos, LIGHT * top, i, j, k);
  }

  lemma SameProduct(x: real, y: real, m: real, v: real)
    requires x == m && y == v
    ensures x * y == m * v
  {
  }

  lemma OffIs(ps: seq<Particle>, p: V3, e: real, i: nat, j: nat, k: nat)
    ensures Off(ps, p, e)(i, j, k) == if NodeMass(ps, p, i, j, k) > LIGHT then 0.0 else e
  {
    hide NodeMass, Times;
    OneOrNone(e);
    var one := Light(ps, p)(i, j, k);
    assert one == if NodeMass(ps, p, i, j, k) > LIGHT then 0.0 else 1.0;
    assert Off(ps, p, e)(i, j, k) == Times(one, e);
  }

  lemma OneOrNone(e: real)
    ensures Times(1.0, e) == e && Times(0.0, e) == 0.0
  {
  }

  // ---- the same along an arm -----------------------------------------------------------------------

  lemma ArmShort(p: V3, x: Dir, i: nat, j: nat, k: nat)
    requires i < 3 && j < 3 && k < 3
    ensures -1.5 <= Along(Fx(p), x, i, j, k) <= 1.5
  {
    hide Base;
    OffsetRange(GridPos(p).x);
    OffsetRange(GridPos(p).y);
    OffsetRange(GridPos(p).z);
  }

  lemma ShareOfArm(f: V3, h: Field, x: Dir, i: nat, j: nat, k: nat)
    requires i < 3 && j < 3 && k < 3
    ensures Share(f, ArmField(f, h, x), i, j, k) == Times(Along(f, x, i, j, k), Share(f, h, i, j, k))
  {
    hide Wt, Along;
    Swapped(Wt(f, i, j, k), Along(f, x, i, j, k), h(i, j, k));
  }

  lemma Swapped(w: real, a: real, h: real)
    ensures Times(w, a * h) == Times(a, Times(w, h))
  {
    assert w * (a * h) == a * (w * h);
  }

  lemma ArmedNear(a: real, x: real, y: real, e: real)
    requires -1.5 <= a <= 1.5 && Near(x, y, e)
    ensures Near(Times(a, x), Times(a, y), 1.5 * e)
  {
    var t := x - y;
    assert a * x - a * y == a * t;
    if a >= 0.0 {
      MulPositive(a, e - t);
      MulPositive(a, e + t);
      MulPositive(1.5 - a, e);
      assert a * (e - t) == a * e - a * t && a * (e + t) == a * e + a * t && (1.5 - a) * e == 1.5 * e - a * e;
    } else {
      MulPositive(-a, e - t);
      MulPositive(-a, e + t);
      MulPositive(1.5 + a, e);
      assert -a * (e - t) == -(a * e) + a * t && -a * (e + t) == -(a * e) - a * t && (1.5 + a) * e == 1.5 * e + a * e;
    }
  }

  lemma ArmsNear(ps: seq<Particle>, p: V3, h: Field, a: Field, x: Dir, e: real)
    requires NodesNear(Fx(p), h, a, Off(ps, p, e))
    ensures NodesNear(Fx(p), ArmField(Fx(p), h, x), ArmField(Fx(p), a, x), Off(ps, p, 1.5 * e))
  {
    hide Share, Fx, Near, ArmField, Off, Along, Times;
    var f := Fx(p);
    forall i: nat, j: nat, k: nat | i < 3 && j < 3 && k < 3
      ensures Near(Share(f, ArmField(f, h, x), i, j, k), Share(f, ArmField(f, a, x), i, j, k), Off(ps, p, 1.5 * e)(i, j, k))
    {
      ArmShort(p, x, i, j, k);
      ShareOfArm(f, h, x, i, j, k);
      ShareOfArm(f, a, x, i, j, k);
      ArmedNear(Along(f, x, i, j, k), Share(f, h, i, j, k), Share(f, a, i, j, k), Off(ps, p, e)(i, j, k));
      OffIs(ps, p, e, i, j, k);
      OffIs(ps, p, 1.5 * e, i, j, k);
    }
  }

  lemma FourTimes(x: real, y: real, n: real, e: real)
    requires Near(x, y, Times(n, 1.5 * e))
    ensures Near(4.0 * x, 4.0 * y, 6.0 * Times(n, e))
  {
    assert n * (1.5 * e) == 1.5 * (n * e);
  }

  // ---- what comes back -------------------------------------------------------------------------------

  lemma ValueNear(ps: seq<Particle>, u: V3, b: M3, p: Particle, d: Dir, top: real)
    requires AllFollow(ps, u, b) && p in ps && p.alive && FlowBelow(p.pos, u, b, top) && top >= 0.0
    ensures Near(Cube(Fx(p.pos), GridVelocity(ps, p.pos, d)), Cube(Fx(p.pos), IdealField(p.pos, u, b, d)), Cost(ps, p.pos, top))
  {
    hide AllFollow, FlowBelow, NodesNear, Near, Cube, CubeSum, GridVelocity, IdealField, Off, Fx, Times;
    GridNear(ps, u, b, p, d, top);
    CubeNear(Fx(p.pos), GridVelocity(ps, p.pos, d), IdealField(p.pos, u, b, d), Off(ps, p.pos, LIGHT * top));
    SumScales(ps, p.pos, LIGHT * top);
  }

  lemma SlopeNear(ps: seq<Particle>, u: V3, b: M3, p: Particle, d: Dir, x: Dir, top: real)
    requires AllFollow(ps, u, b) && p in ps && p.alive && FlowBelow(p.pos, u, b, top) && top >= 0.0
    ensures Near(4.0 * Cube(Fx(p.pos), ArmField(Fx(p.pos), GridVelocity(ps, p.pos, d), x)),
                 4.0 * Cube(Fx(p.pos), ArmField(Fx(p.pos), IdealField(p.pos, u, b, d), x)), 6.0 * Cost(ps, p.pos, top))
  {
    hide AllFollow, FlowBelow, NodesNear, Near, Cube, CubeSum, GridVelocity, IdealField, Off, Fx, ArmField, Times;
    var f, h, a := Fx(p.pos), GridVelocity(ps, p.pos, d), IdealField(p.pos, u, b, d);
    GridNear(ps, u, b, p, d, top);
    ArmsNear(ps, p.pos, h, a, x, LIGHT * top);
    CubeNear(f, ArmField(f, h, x), ArmField(f, a, x), Off(ps, p.pos, 1.5 * (LIGHT * top)));
    SumScales(ps, p.pos, 1.5 * (LIGHT * top));
    FourTimes(Cube(f, ArmField(f, h, x)), Cube(f, ArmField(f, a, x)), LightNodes(ps, p.pos), LIGHT * top);
  }

  /** Velocities and gradients that differ by no more than this in any component. */
  ghost predicate FlowsNear(v: V3, c: M3, w: V3, b: M3, e: real) {
    && (forall d :: Near(Part(v, d), Part(w, d), e))
    && forall d, x :: Near(Part(RowOf(c, d), x), Part(RowOf(b, d), x), 6.0 * e)
  }

  lemma FewLightNodes(ps: seq<Particle>, p: V3)
    ensures 0.0 <= LightNodes(ps, p) <= 27.0
  {
    hide NodeMass;
  }

  /** Particles that move as one affine flow come back from the grid as that flow but for
    * the light nodes of their stencil: each costs at most a ten-thousandth of the fastest
    * flow there in velocity, and six times that in gradient. With none the flow is exact. */
  lemma LightNodesCost(ps: seq<Particle>, u: V3, b: M3, p: Particle, top: real)
    requires AllFollow(ps, u, b) && p in ps && p.alive && FlowBelow(p.pos, u, b, top) && top >= 0.0
    ensures var got := Gathered(p.pos, d => GridVelocity(ps, p.pos, d));
            FlowsNear(got.0, got.1, p.vel, p.C, Cost(ps, p.pos, top))
    ensures 0.0 <= LightNodes(ps, p.pos) <= 27.0
  {
    hide FlowBelow, Near, Cube, GridVelocity, FlowAt, Fx, ArmField, LightNodes, Cost, GridPos, NodeAt, Coords, InRange;
    var gv, ideal := d => GridVelocity(ps, p.pos, d), d => IdealField(p.pos, u, b, d);
    var got, e := Gathered(p.pos, gv), Cost(ps, p.pos, top);
    FewLightNodes(ps, p.pos);
    assert Follows(p, u, b);
    GatherReproducesAffine(p.pos, ideal, u, b);
    forall d
      ensures Near(Part(got.0, d), Part(p.vel, d), e)
    {
      ValueNear(ps, u, b, p, d, top);
      GatheredPart(p.pos, gv, d);
      GatheredPart(p.pos, ideal, d);
    }
    forall d, x
      ensures Near(Part(RowOf(got.1, d), x), Part(RowOf(p.C, d), x), 6.0 * e)
    {
      SlopeNear(ps, u, b, p, d, x, top);
      GatheredSlope(p.pos, gv, d, x);
      GatheredSlope(p.pos, ideal, d, x);
    }
  }

  lemma GatheredPart(p: V3, gv: Dir -> Field, d: Dir)
    ensures Part(Gathered(p, gv).0, d) == Cube(Fx(p), gv(d))
  {
    hide Cube, Fx;
  }

  lemma GatheredSlope(p: V3, gv: Dir -> Field, d: Dir, x: Dir)
    ensures Part(RowOf(Gathered(p, gv).1, d), x) == 4.0 * Cube(Fx(p), ArmField(Fx(p), gv(d), x))
  {
    hide Cube, Fx, ArmField;
  }
}
