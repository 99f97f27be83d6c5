/** Conservation and reproduction laws of the MLS-MPM transfers. */
module Fluid {
  import opened Stencil
  import opened Transfers

  // ---- what each kernel scatters ---------------------------------------------------

  function Dpos(f: V3, i: nat, j: nat, k: nat): V3 { V3(D(i, f.x), D(j, f.y), D(k, f.z)) }

  function RowOf(m: M3, d: Dir): V3 { match d case X => m.c0 case Y => m.c1 case Z => m.c2 }

  function MassField(p: Particle): Field { (i, j, k) => 1.0 }

  /** The affine momentum `v + C dpos`, one component. */
  function MomentumField(p: Particle, d: Dir): Field {
    (i: nat, j: nat, k: nat) => Part(p.vel, d) + Dot(RowOf(p.C, d), Dpos(Fx(p.pos), i, j, k))
  }

  /** The stress force `E dpos`, one component. */
  function StressField(p: Particle, e: M3, d: Dir): Field {
    (i: nat, j: nat, k: nat) => Dot(RowOf(e, d), Dpos(Fx(p.pos), i, j, k))
  }

  /** Pressure on the diagonal, viscosity on the symmetrised velocity gradient. */
  function Stress(c: M3, pressure: real, vis: real): M3 {
    M3(V3(-pressure + c.c0.x * 2.0 * vis, (c.c0.y + c.c1.x) * vis, (c.c0.z + c.c2.x) * vis),
       V3((c.c1.x + c.c0.y) * vis, -pressure + c.c1.y * 2.0 * vis, (c.c1.z + c.c2.y) * vis),
       V3((c.c2.x + c.c0.z) * vis, (c.c2.y + c.c1.z) * vis, -pressure + c.c2.z * 2.0 * vis))
  }

  function ScaleV(v: V3, s: real): V3 { V3(v.x * s, v.y * s, v.z * s) }

  function ScaleM(m: M3, s: real): M3 { M3(ScaleV(m.c0, s), ScaleV(m.c1, s), ScaleV(m.c2, s)) }

  datatype Channel = Mass | Momentum(d: Dir)

  function ChannelField(p: Particle, ch: Channel): Field {
    match ch case Mass => MassField(p) case Momentum(d) => MomentumField(p, d)
  }

  /** Every live particle's adds to one of the four grids, in slot order. */
  function Scattered(ps: seq<Particle>, ch: Channel): seq<Add> {
    if ps == [] then [] else
    var p := ps[|ps| - 1];
    Scattered(ps[..|ps| - 1], ch) + if p.alive then CubeAdds(p.pos, ChannelField(p, ch), 3) else []
  }

  function Alive(ps: seq<Particle>): nat {
    if ps == [] then 0 else Alive(ps[..|ps| - 1]) + if ps[|ps| - 1].alive then 1 else 0
  }

  function MomentumOf(ps: seq<Particle>, d: Dir): real {
    if ps == [] then 0.0
    else MomentumOf(ps[..|ps| - 1], d) + if ps[|ps| - 1].alive then Part(ps[|ps| - 1].vel, d) else 0.0
  }

  // ---- one particle ------------------------------------------------------------------

  lemma MomentumIsAffine(p: Particle, d: Dir)
    ensures IsAffine(Fx(p.pos), MomentumField(p, d), Part(p.vel, d), RowOf(p.C, d))
  {
    hide D, Fx;
  }

  /** One particle puts exactly one unit of mass on the grid. */
  lemma ParticleMass(p: Particle)
    ensures Cube(Fx(p.pos), MassField(p)) == 1.0
  {
    hide Cube, Fx;
    AffineValue(Fx(p.pos), MassField(p), 1.0, V3(0.0, 0.0, 0.0));
  }

  /** And exactly its own momentum, whatever its affine part. */
  lemma ParticleMomentum(p: Particle, d: Dir)
    ensures Cube(Fx(p.pos), MomentumField(p, d)) == Part(p.vel, d)
  {
    hide Cube, Fx, MomentumField, IsAffine;
    MomentumIsAffine(p, d);
    AffineValue(Fx(p.pos), MomentumField(p, d), Part(p.vel, d), RowOf(p.C, d));
  }

  /** Stress moves momentum about inside the stencil and adds none. */
  lemma StressAddsNoMomentum(p: Particle, e: M3, d: Dir)
    ensures Cube(Fx(p.pos), StressField(p, e, d)) == 0.0
    ensures Total(CubeAdds(p.pos, StressField(p, e, d), 3)) == 0.0
  {
    hide Cube, Fx, CubeAdds, Total;
    var f := Fx(p.pos);
    assert IsAffine(f, StressField(p, e, d), 0.0, RowOf(e, d)) by { StressIsAffine(p, e, d); }
    AffineValue(f, StressField(p, e, d), 0.0, RowOf(e, d));
    CubeTotal(p.pos, StressField(p, e, d));
  }

  lemma StressIsAffine(p: Particle, e: M3, d: Dir)
    ensures IsAffine(Fx(p.pos), StressField(p, e, d), 0.0, RowOf(e, d))
  {
    hide D, Fx;
  }

  /** Arm along `a` times force along `d`. */
  function TorqueField(p: Particle, e: M3, a: Dir, d: Dir): Field {
    (i: nat, j: nat, k: nat) => Part(Dpos(Fx(p.pos), i, j, k), a) * Dot(RowOf(e, d), Dpos(Fx(p.pos), i, j, k))
  }

  lemma TorqueIsMoment(p: Particle, e: M3, a: Dir, d: Dir)
    ensures IsMoment(Fx(p.pos), TorqueField(p, e, a, d), a, 0.0, RowOf(e, d))
  {
    hide D, Fx;
    forall i: nat, j: nat, k: nat | i < 3 && j < 3 && k < 3
      ensures TorqueField(p, e, a, d)(i, j, k) == Along(Fx(p.pos), a, i, j, k) * Affine(Fx(p.pos), 0.0, RowOf(e, d), i, j, k)
    {
      assert Part(Dpos(Fx(p.pos), i, j, k), a) == Along(Fx(p.pos), a, i, j, k);
      Sub(Along(Fx(p.pos), a, i, j, k), Dot(RowOf(e, d), Dpos(Fx(p.pos), i, j, k)), Affine(Fx(p.pos), 0.0, RowOf(e, d), i, j, k));
    }
  }

  lemma ParticleTorque(p: Particle, e: M3, a: Dir, d: Dir)
    ensures Cube(Fx(p.pos), TorqueField(p, e, a, d)) == 0.25 * Part(RowOf(e, d), a)
  {
    hide Cube, Fx, TorqueField, IsMoment;
    TorqueIsMoment(p, e, a, d);
    AffineMoment(Fx(p.pos), TorqueField(p, e, a, d), a, 0.0, RowOf(e, d));
  }

  /** The stress the kernel builds is symmetric, so it turns nothing either: about
    * any pair of axes the two moments cancel. */
  lemma StressAddsNoSpin(p: Particle, pressure: real, vis: real, coef: real, a: Dir, d: Dir)
    ensures var e := ScaleM(Stress(p.C, pressure, vis), coef);
            Cube(Fx(p.pos), TorqueField(p, e, a, d)) - Cube(Fx(p.pos), TorqueField(p, e, d, a)) == 0.0
  {
    hide Cube, Fx, TorqueField, Stress, ScaleM;
    var e := ScaleM(Stress(p.C, pressure, vis), coef);
    ParticleTorque(p, e, a, d);
    ParticleTorque(p, e, d, a);
    StressSymmetric(p.C, pressure, vis, coef, a, d);
  }

  lemma StressSymmetric(c: M3, pressure: real, vis: real, coef: real, a: Dir, d: Dir)
    ensures var e := ScaleM(Stress(c, pressure, vis), coef);
            Part(RowOf(e, d), a) == Part(RowOf(e, a), d)
  {
  }

  // ---- all particles ------------------------------------------------------------------

  /** Mass on the grid is the number of live particles, and momentum on the grid is
    * theirs, for any number of them anywhere in range. */
  lemma {:induction false} TransferConserves(ps: seq<Particle>, d: Dir)
    ensures Total(Scattered(ps, Mass)) == Alive(ps) as real
    ensures Total(Scattered(ps, Momentum(d))) == MomentumOf(ps, d)
    ensures |Scattered(ps, Mass)| == 27 * Alive(ps) == |Scattered(ps, Momentum(d))|
    decreases |ps|
  {
    hide Total, CubeAdds, Cube, Fx, MassField, MomentumField;
    if ps == [] {
      OneTotal(Add(0, 0.0));
    } else {
      var before, p := ps[..|ps| - 1], ps[|ps| - 1];
      TransferConserves(before, d);
      if p.alive {
        TotalMore(Scattered(before, Mass), CubeAdds(p.pos, MassField(p), 3));
        TotalMore(Scattered(before, Momentum(d)), CubeAdds(p.pos, MomentumField(p, d), 3));
        CubeTotal(p.pos, MassField(p));
        CubeTotal(p.pos, MomentumField(p, d));
        ParticleMass(p);
        ParticleMomentum(p, d);
      } else {
        assert Scattered(before, Mass) + [] == Scattered(before, Mass);
        assert Scattered(before, Momentum(d)) + [] == Scattered(before, Momentum(d));
      }
    }
  }

  // ---- grid to particle ------------------------------------------------------------------

  /** What the gather kernel reads back from grid velocities `gv`, per component. */
  function Gathered(p: V3, gv: Dir -> Field): (V3, M3) {
    (V3(Cube(Fx(p), gv(X)), Cube(Fx(p), gv(Y)), Cube(Fx(p), gv(Z))),
     M3(GatherRow(p, gv(X)), GatherRow(p, gv(Y)), GatherRow(p, gv(Z))))
  }

  function ArmField(f: V3, h: Field, d: Dir): Field {
    (i: nat, j: nat, k: nat) => Along(f, d, i, j, k) * h(i, j, k)
  }

  function GatherRow(p: V3, h: Field): V3 {
    var f := Fx(p);
    V3(4.0 * Cube(f, ArmField(f, h, X)), 4.0 * Cube(f, ArmField(f, h, Y)), 4.0 * Cube(f, ArmField(f, h, Z)))
  }

  /** A velocity field over the whole grid: `u` at the grid origin, gradient `b`. */
  function FlowAt(u: V3, b: M3, x: V3): V3 {
    V3(u.x + Dot(b.c0, x), u.y + Dot(b.c1, x), u.z + Dot(b.c2, x))
  }

  function Coords(n: Node): V3 { V3(n.x as real, n.y as real, n.z as real) }

  ghost predicate SeesFlow(p: V3, gv: Dir -> Field, u: V3, b: M3) {
    forall d: Dir, i: nat, j: nat, k: nat :: i < 3 && j < 3 && k < 3 ==>
      gv(d)(i, j, k) == Part(FlowAt(u, b, Coords(NodeAt(p, i, j, k))), d)
  }

  /** A node's place is the particle's own plus the arm to it. */
  lemma NodePlace(p: V3, i: nat, j: nat, k: nat)
    ensures Coords(NodeAt(p, i, j, k)) == V3(GridPos(p).x + D(i, Fx(p).x), GridPos(p).y + D(j, Fx(p).y), GridPos(p).z + D(k, Fx(p).z))
  {
  }

  lemma ShiftedDot(u: real, r: V3, x: V3, dx: real, dy: real, dz: real)
    ensures u + Dot(r, V3(x.x + dx, x.y + dy, x.z + dz)) == u + Dot(r, x) + r.x * dx + r.y * dy + r.z * dz
  {
  }

  lemma FlowPart(u: V3, b: M3, x: V3, d: Dir)
    ensures Part(FlowAt(u, b, x), d) == Part(u, d) + Dot(RowOf(b, d), x)
  {
    hide Dot;
  }

  lemma FlowPoint(p: V3, u: V3, b: M3, d: Dir, i: nat, j: nat, k: nat)
    ensures Part(FlowAt(u, b, Coords(NodeAt(p, i, j, k))), d) == Affine(Fx(p), Part(FlowAt(u, b, GridPos(p)), d), RowOf(b, d), i, j, k)
  {
    hide D, Fx, GridPos, FlowAt, Dot, RowOf, NodeAt, Coords, Part;
    NodePlace(p, i, j, k);
    FlowPart(u, b, Coords(NodeAt(p, i, j, k)), d);
    FlowPart(u, b, GridPos(p), d);
    var g, f := GridPos(p), Fx(p);
    var dx, dy, dz := D(i, f.x), D(j, f.y), D(k, f.z);
    assert Coords(NodeAt(p, i, j, k)) == V3(g.x + dx, g.y + dy, g.z + dz);
    ShiftedDot(Part(u, d), RowOf(b, d), g, dx, dy, dz);
    assert Part(FlowAt(u, b, Coords(NodeAt(p, i, j, k))), d) == Part(u, d) + Dot(RowOf(b, d), g) + RowOf(b, d).x * dx + RowOf(b, d).y * dy + RowOf(b, d).z * dz;
  }

  lemma FlowIsAffine(p: V3, gv: Dir -> Field, u: V3, b: M3, d: Dir)
    requires SeesFlow(p, gv, u, b)
    ensures IsAffine(Fx(p), gv(d), Part(FlowAt(u, b, GridPos(p)), d), RowOf(b, d))
  {
    hide Affine, Fx, GridPos, FlowAt, Part, RowOf, NodeAt, Coords;
    forall i: nat, j: nat, k: nat | i < 3 && j < 3 && k < 3
      ensures gv(d)(i, j, k) == Affine(Fx(p), Part(FlowAt(u, b, GridPos(p)), d), RowOf(b, d), i, j, k)
    {
      FlowPoint(p, u, b, d, i, j, k);
    }
  }

  lemma ArmIsMoment(f: V3, h: Field, d: Dir, a: real, b: V3)
    requires IsAffine(f, h, a, b)
    ensures IsMoment(f, ArmField(f, h, d), d, a, b)
  {
    hide Along, Affine;
  }

  lemma RowReproduced(p: V3, h: Field, a: real, b: V3)
    requires IsAffine(Fx(p), h, a, b)
    ensures GatherRow(p, h) == b
  {
    hide Cube, Fx, IsAffine, IsMoment, ArmField;
    ArmIsMoment(Fx(p), h, X, a, b);
    ArmIsMoment(Fx(p), h, Y, a, b);
    ArmIsMoment(Fx(p), h, Z, a, b);
    AffineMoment(Fx(p), ArmField(Fx(p), h, X), X, a, b);
    AffineMoment(Fx(p), ArmField(Fx(p), h, Y), Y, a, b);
    AffineMoment(Fx(p), ArmField(Fx(p), h, Z), Z, a, b);
  }

  /** Gathering from any affine flow gives back the flow at the particle and its
    * gradient, both exactly. */
  lemma GatherReproducesAffine(p: V3, gv: Dir -> Field, u: V3, b: M3)
    requires SeesFlow(p, gv, u, b)
    ensures Gathered(p, gv) == (FlowAt(u, b, GridPos(p)), b)
  {
    hide Cube, Fx, GridPos, IsAffine, GatherRow, FlowAt, SeesFlow;
    FlowIsAffine(p, gv, u, b, X);
    FlowIsAffine(p, gv, u, b, Y);
    FlowIsAffine(p, gv, u, b, Z);
    var v := FlowAt(u, b, GridPos(p));
    AffineValue(Fx(p), gv(X), v.x, b.c0);
    AffineValue(Fx(p), gv(Y), v.y, b.c1);
    AffineValue(Fx(p), gv(Z), v.z, b.c2);
    RowReproduced(p, gv(X), v.x, b.c0);
    RowReproduced(p, gv(Y), v.y, b.c1);
    RowReproduced(p, gv(Z), v.z, b.c2);
  }
}
