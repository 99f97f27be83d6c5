/** A whole transfer there and back: an affine flow of any number of particles
  * comes back from the grid unchanged. */
module FluidFlow {
  import opened Stencil
  import opened Transfers
  import opened Fluid

  function NodeOf(at: int): Node {
    Node(at % GX, at / GX % GY, at / (GX * GY))
  }

  lemma NodeOfIndex(n: Node)
    requires OnGrid(n)
    ensures NodeOf(NodeIndex(n)) == n
  {
    var at := NodeIndex(n);
    assert at / (GX * GY) == n.z;
    assert at % GX == n.x && at / GX == n.y + n.z * GY;
  }

  lemma StencilOnGrid(p: V3, i: nat, j: nat, k: nat)
    requires InRange(p) && i < 3 && j < 3 && k < 3
    ensures OnGrid(NodeAt(p, i, j, k))
  {
    hide Base;
  }

  /** What one grid cell holds after the adds. */
  function AtNode(adds: seq<Add>, at: int): real {
    if adds == [] then 0.0
    else AtNode(adds[..|adds| - 1], at) + if adds[|adds| - 1].at == at then adds[|adds| - 1].amount else 0.0
  }

  /** A particle that moves with the flow. */
  predicate Follows(p: Particle, u: V3, b: M3) {
    p.vel == FlowAt(u, b, GridPos(p.pos)) && p.C == b
  }

  function FlowIn(u: V3, b: M3, d: Dir, at: int): real { Part(FlowAt(u, b, Coords(NodeOf(at))), d) }

  /** Every momentum add is its mass add times the flow at that node. */
  ghost predicate InStep(mass: seq<Add>, mom: seq<Add>, u: V3, b: M3, d: Dir) {
    && |mass| == |mom|
    && forall t :: 0 <= t < |mass| ==> mom[t].at == mass[t].at && mom[t].amount == mass[t].amount * FlowIn(u, b, d, mass[t].at)
  }

  lemma AddInStep(p: Particle, u: V3, b: M3, d: Dir, i: nat, j: nat, k: nat)
    requires Follows(p, u, b) && InRange(p.pos) && i < 3 && j < 3 && k < 3
    ensures var a, m := AddAt(p.pos, MassField(p), i, j, k), AddAt(p.pos, MomentumField(p, d), i, j, k);
            m.at == a.at && m.amount == a.amount * FlowIn(u, b, d, a.at)
  {
    hide Fx, GridPos, FlowAt, NodeOf, NodeIndex, NodeAt, Coords, Wt, InRange, Part;
    var n := NodeAt(p.pos, i, j, k);
    StencilOnGrid(p.pos, i, j, k);
    NodeOfIndex(n);
    FlowPoint(p.pos, u, b, d, i, j, k);
    assert MomentumField(p, d)(i, j, k) == Part(FlowAt(u, b, Coords(n)), d);
    Sub(Wt(Fx(p.pos), i, j, k), MomentumField(p, d)(i, j, k), FlowIn(u, b, d, NodeIndex(n)));
  }

  lemma InStepMore(a: seq<Add>, m: seq<Add>, a': seq<Add>, m': seq<Add>, u: V3, b: M3, d: Dir)
    requires InStep(a, m, u, b, d) && InStep(a', m', u, b, d)
    ensures InStep(a + a', m + m', u, b, d)
  {
    hide FlowIn;
  }

  lemma {:induction false} RowInStep(p: Particle, u: V3, b: M3, d: Dir, i: nat, j: nat, k: nat)
    requires Follows(p, u, b) && InRange(p.pos) && i < 3 && j < 3 && k <= 3
    ensures InStep(RowAdds(p.pos, MassField(p), i, j, k), RowAdds(p.pos, MomentumField(p, d), i, j, k), u, b, d)
    decreases k
  {
    hide AddAt, FlowIn, MassField, MomentumField, Follows, InRange;
    if k > 0 {
      RowInStep(p, u, b, d, i, j, k - 1);
      AddInStep(p, u, b, d, i, j, k - 1);
      InStepMore(RowAdds(p.pos, MassField(p), i, j, k - 1), RowAdds(p.pos, MomentumField(p, d), i, j, k - 1),
                 [AddAt(p.pos, MassField(p), i, j, k - 1)], [AddAt(p.pos, MomentumField(p, d), i, j, k - 1)], u, b, d);
    }
  }

  lemma {:induction false} PlaneInStep(p: Particle, u: V3, b: M3, d: Dir, i: nat, j: nat)
    requires Follows(p, u, b) && InRange(p.pos) && i < 3 && j <= 3
    ensures InStep(PlaneAdds(p.pos, MassField(p), i, j), PlaneAdds(p.pos, MomentumField(p, d), i, j), u, b, d)
    decreases j
  {
    hide RowAdds, InStep, MassField, MomentumField, Follows, InRange;
    if j > 0 {
      PlaneInStep(p, u, b, d, i, j - 1);
      RowInStep(p, u, b, d, i, j - 1, 3);
      InStepMore(PlaneAdds(p.pos, MassField(p), i, j - 1), PlaneAdds(p.pos, MomentumField(p, d), i, j - 1),
                 RowAdds(p.pos, MassField(p), i, j - 1, 3), RowAdds(p.pos, MomentumField(p, d), i, j - 1, 3), u, b, d);
    } else {
      NoneInStep(u, b, d);
    }
  }

  lemma NoneInStep(u: V3, b: M3, d: Dir)
    ensures InStep([], [], u, b, d)
  {
  }

  lemma {:induction false} CubeInStep(p: Particle, u: V3, b: M3, d: Dir, i: nat)
    requires Follows(p, u, b) && InRange(p.pos) && i <= 3
    ensures InStep(CubeAdds(p.pos, MassField(p), i), CubeAdds(p.pos, MomentumField(p, d), i), u, b, d)
    decreases i
  {
    hide PlaneAdds, InStep, MassField, MomentumField, Follows, InRange;
    if i > 0 {
      CubeInStep(p, u, b, d, i - 1);
      PlaneInStep(p, u, b, d, i - 1, 3);
      InStepMore(CubeAdds(p.pos, MassField(p), i - 1), CubeAdds(p.pos, MomentumField(p, d), i - 1),
                 PlaneAdds(p.pos, MassField(p), i - 1, 3), PlaneAdds(p.pos, MomentumField(p, d), i - 1, 3), u, b, d);
    } else {
      NoneInStep(u, b, d);
    }
  }

  /** Every live particle is in range and moves with the flow. */
  ghost predicate AllFollow(ps: seq<Particle>, u: V3, b: M3) {
    forall t :: 0 <= t < |ps| && ps[t].alive ==> InRange(ps[t].pos) && Follows(ps[t], u, b)
  }

  lemma {:induction false} ScatteredInStep(ps: seq<Particle>, u: V3, b: M3, d: Dir)
    requires AllFollow(ps, u, b)
    ensures InStep(Scattered(ps, Mass), Scattered(ps, Momentum(d)), u, b, d)
    decreases |ps|
  {
    hide CubeAdds, InStep, MassField, MomentumField, Follows, InRange;
    if ps == [] {
      NoneInStep(u, b, d);
    } else {
      var before, p := ps[..|ps| - 1], ps[|ps| - 1];
      ScatteredInStep(before, u, b, d);
      if p.alive {
        CubeInStep(p, u, b, d, 3);
        InStepMore(Scattered(before, Mass), Scattered(before, Momentum(d)), CubeAdds(p.pos, MassField(p), 3), CubeAdds(p.pos, MomentumField(p, d), 3), u, b, d);
      } else {
        assert Scattered(before, Mass) + [] == Scattered(before, Mass);
        assert Scattered(before, Momentum(d)) + [] == Scattered(before, Momentum(d));
      }
    }
  }

  lemma {:induction false} NodesInStep(mass: seq<Add>, mom: seq<Add>, u: V3, b: M3, d: Dir, at: int)
    requires InStep(mass, mom, u, b, d)
    ensures AtNode(mom, at) == AtNode(mass, at) * FlowIn(u, b, d, at)
    decreases |mass|
  {
    hide FlowIn, AtNode;
    if mass == [] {
      NothingAt(at);
      Accumulate(0.0, 0.0, FlowIn(u, b, d, at), 0.0, 0.0, 0.0);
    } else {
      var a, m, x := mass[..|mass| - 1], mom[..|mom| - 1], mass[|mass| - 1];
      NodesInStep(a, m, u, b, d, at);
      LastAt(mass, at);
      LastAt(mom, at);
      if x.at == at {
        Accumulate(AtNode(a, at), x.amount, FlowIn(u, b, d, at), AtNode(mass, at), AtNode(m, at), AtNode(mom, at));
      }
    }
  }

  lemma NothingAt(at: int)
    ensures AtNode([], at) == 0.0
  {
  }

  lemma LastAt(adds: seq<Add>, at: int)
    requires adds != []
    ensures AtNode(adds, at) == if adds[|adds| - 1].at == at then AtNode(adds[..|adds| - 1], at) + adds[|adds| - 1].amount else AtNode(adds[..|adds| - 1], at)
  {
  }

  lemma Accumulate(x: real, y: real, s: real, total: real, m: real, sum: real)
    requires total == x + y && m == x * s && sum == m + y * s
    ensures sum == total * s
  {
  }

  /** At every node the momentum the particles leave is the mass they leave times
    * the flow there. */
  lemma NodeCarriesTheFlow(ps: seq<Particle>, u: V3, b: M3, d: Dir, n: Node)
    requires AllFollow(ps, u, b) && OnGrid(n)
    ensures AtNode(Scattered(ps, Momentum(d)), NodeIndex(n))
         == AtNode(Scattered(ps, Mass), NodeIndex(n)) * Part(FlowAt(u, b, Coords(n)), d)
  {
    hide NodeOf, NodeIndex, AllFollow, InStep, FlowAt, Coords, Scattered;
    NodeOfIndex(n);
    ScatteredInStep(ps, u, b, d);
    NodesInStep(Scattered(ps, Mass), Scattered(ps, Momentum(d)), u, b, d, NodeIndex(n));
  }

  const LIGHT: real := 0.0001

  /** The grid pass turns momentum into velocity, except at the lightest nodes,
    * which keep their momentum. */
  function NodeVelocity(mass: real, mom: real): real { if mass > LIGHT then mom / mass else mom }

  function GridVelocity(ps: seq<Particle>, p: V3, d: Dir): Field {
    (i: nat, j: nat, k: nat) =>
      NodeVelocity(AtNode(Scattered(ps, Mass), NodeIndex(NodeAt(p, i, j, k))),
                   AtNode(Scattered(ps, Momentum(d)), NodeIndex(NodeAt(p, i, j, k))))
  }

  ghost predicate NoLightNodes(ps: seq<Particle>, p: V3) {
    forall i: nat, j: nat, k: nat :: i < 3 && j < 3 && k < 3 ==> AtNode(Scattered(ps, Mass), NodeIndex(NodeAt(p, i, j, k))) > 0.0001
  }

  lemma DivideBack(m: real, v: real)
    requires m > 0.0
    ensures (m * v) / m == v
  {
  }

  /** Particles that move as one affine flow, scattered to the grid and gathered
    * back, move as that same flow: velocity and gradient both, exactly. */
  lemma AffineFlowSurvives(ps: seq<Particle>, u: V3, b: M3, p: Particle)
    requires AllFollow(ps, u, b) && p in ps && p.alive && NoLightNodes(ps, p.pos)
    ensures Gathered(p.pos, d => GridVelocity(ps, p.pos, d)) == (p.vel, p.C)
  {
    hide Scattered, AtNode, NodeIndex, NodeAt, FlowAt, Gathered, Part, OnGrid, Coords, GridPos;
    var gv := d => GridVelocity(ps, p.pos, d);
    assert InRange(p.pos) && Follows(p, u, b);
    forall d: Dir, i: nat, j: nat, k: nat | i < 3 && j < 3 && k < 3
      ensures gv(d)(i, j, k) == Part(FlowAt(u, b, Coords(NodeAt(p.pos, i, j, k))), d)
    {
      var n := NodeAt(p.pos, i, j, k);
      StencilOnGrid(p.pos, i, j, k);
      NodeCarriesTheFlow(ps, u, b, d, n);
      DivideBack(AtNode(Scattered(ps, Mass), NodeIndex(n)), Part(FlowAt(u, b, Coords(n)), d));
    }
    GatherReproducesAffine(p.pos, gv, u, b);
  }
}
