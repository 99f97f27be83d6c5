/** The scatter kernel over its buffers: four integer grids, one atomic add at a
  * time, particle by particle and node by node. */
module FluidKernels {
  import opened Stencil
  import opened Transfers
  import opened Fluid
  import opened FluidFlow
  import opened FixedPoint

  // ---- how far the loops have come ------------------------------------------------------

  function Prefix(p: V3, h: Field, i: nat, j: nat, k: nat): seq<Add>
    requires i < 3 && j < 3 && k <= 3
  {
    CubeAdds(p, h, i) + PlaneAdds(p, h, i, j) + RowAdds(p, h, i, j, k)
  }

  lemma NextNode(p: V3, h: Field, i: nat, j: nat, k: nat)
    requires i < 3 && j < 3 && k < 3
    ensures Prefix(p, h, i, j, k + 1) == Prefix(p, h, i, j, k) + [AddAt(p, h, i, j, k)]
  {
    hide AddAt;
    assert Prefix(p, h, i, j, k + 1) == CubeAdds(p, h, i) + PlaneAdds(p, h, i, j) + (RowAdds(p, h, i, j, k) + [AddAt(p, h, i, j, k)]);
  }

  lemma RowDone(p: V3, h: Field, i: nat, j: nat)
    requires i < 3 && j < 3
    ensures Prefix(p, h, i, j, 3) == CubeAdds(p, h, i) + PlaneAdds(p, h, i, j + 1)
    ensures j < 2 ==> Prefix(p, h, i, j, 3) == Prefix(p, h, i, j + 1, 0)
  {
    assert CubeAdds(p, h, i) + PlaneAdds(p, h, i, j) + RowAdds(p, h, i, j, 3) == CubeAdds(p, h, i) + (PlaneAdds(p, h, i, j) + RowAdds(p, h, i, j, 3));
  }

  lemma EncodedMore(a: seq<Add>, x: Add)
    ensures Encoded(a + [x]) == Encoded(a) + [Encode(x)]
  {
    assert (a + [x])[..|a|] == a;
  }

  lemma ScatterMore(g: seq<int>, xs: seq<IntAdd>, x: IntAdd)
    ensures Scatter(g, xs + [x]) == One(Scatter(g, xs), x)
  {
    assert (xs + [x])[..|xs|] == xs;
  }

  /** The buffer holds the original with these adds in. */
  ghost predicate Holds(g: seq<int>, g0: seq<int>, adds: seq<Add>) { g == Scatter(g0, Encoded(adds)) }

  lemma HoldsMore(g: seq<int>, g0: seq<int>, adds: seq<Add>, x: Add)
    requires Holds(g, g0, adds)
    ensures Holds(One(g, Encode(x)), g0, adds + [x])
  {
    hide Scatter, Encoded, One, Encode;
    EncodedMore(adds, x);
    ScatterMore(g0, Encoded(adds), Encode(x));
  }

  // ---- one atomic add, one node, one particle, all particles --------------------------------

  method AtomicAdd(g: array<int>, at: int, amount: int)
    requires 0 <= at < g.Length
    modifies g
    ensures g[..] == One(old(g[..]), IntAdd(at, amount))
  {
    g[at] := Wrap32(g[at] + amount);
  }

  /** One buffer's share of a node's work. */
  method ScatterNode(g: array<int>, p: Particle, ch: Channel, ghost g0: seq<int>, ghost done: seq<Add>, i: nat, j: nat, k: nat)
    requires InRange(p.pos) && i < 3 && j < 3 && k < 3 && g.Length == CELLS
    requires Holds(g[..], g0, done + Prefix(p.pos, ChannelField(p, ch), i, j, k))
    modifies g
    ensures Holds(g[..], g0, done + Prefix(p.pos, ChannelField(p, ch), i, j, k + 1))
  {
    hide Prefix, ChannelField, Holds, Enc, Wt, NodeAt, InRange, One;
    var n := NodeAt(p.pos, i, j, k);
    StencilOnGrid(p.pos, i, j, k);
    NodeIndexInjective(n, n);
    ghost var h := ChannelField(p, ch);
    ghost var x := AddAt(p.pos, h, i, j, k);
    HoldsMore(g[..], g0, done + Prefix(p.pos, h, i, j, k), x);
    NextNode(p.pos, h, i, j, k);
    assert done + Prefix(p.pos, h, i, j, k) + [x] == done + Prefix(p.pos, h, i, j, k + 1);
    var a := AddAt(p.pos, ChannelField(p, ch), i, j, k);
    AtomicAdd(g, a.at, Enc(a.amount));
  }

  method ScatterRow(g: array<int>, p: Particle, ch: Channel, ghost g0: seq<int>, ghost done: seq<Add>, i: nat, j: nat)
    requires InRange(p.pos) && i < 3 && j < 3 && g.Length == CELLS
    requires Holds(g[..], g0, done + Prefix(p.pos, ChannelField(p, ch), i, j, 0))
    modifies g
    ensures Holds(g[..], g0, done + Prefix(p.pos, ChannelField(p, ch), i, j, 3))
  {
    hide Prefix, ChannelField, Holds, InRange;
    for k := 0 to 3
      invariant Holds(g[..], g0, done + Prefix(p.pos, ChannelField(p, ch), i, j, k))
    {
      ScatterNode(g, p, ch, g0, done, i, j, k);
    }
  }

  method ScatterParticle(g: array<int>, p: Particle, ch: Channel, ghost g0: seq<int>, ghost done: seq<Add>)
    requires InRange(p.pos) && g.Length == CELLS && Holds(g[..], g0, done)
    modifies g
    ensures Holds(g[..], g0, done + CubeAdds(p.pos, ChannelField(p, ch), 3))
  {
    hide Prefix, ChannelField, Holds, InRange, CubeAdds, PlaneAdds, RowAdds;
    ghost var h := ChannelField(p, ch);
    PrefixStart(p.pos, h);
    assert done + [] == done;
    for i := 0 to 3
      invariant Holds(g[..], g0, done + CubeAdds(p.pos, h, i))
    {
      PlaneStart(p.pos, h, i);
      for j := 0 to 3
        invariant Holds(g[..], g0, done + (CubeAdds(p.pos, h, i) + PlaneAdds(p.pos, h, i, j)))
      {
        RowStart(p.pos, h, i, j);
        ScatterRow(g, p, ch, g0, done, i, j);
        RowDone(p.pos, h, i, j);
      }
      PlaneDone(p.pos, h, i);
    }
  }

  lemma PrefixStart(p: V3, h: Field)
    ensures CubeAdds(p, h, 0) == []
  {
  }

  lemma PlaneStart(p: V3, h: Field, i: nat)
    requires i < 3
    ensures CubeAdds(p, h, i) + PlaneAdds(p, h, i, 0) == CubeAdds(p, h, i)
  {
  }

  lemma RowStart(p: V3, h: Field, i: nat, j: nat)
    requires i < 3 && j < 3
    ensures Prefix(p, h, i, j, 0) == CubeAdds(p, h, i) + PlaneAdds(p, h, i, j)
  {
  }

  lemma PlaneDone(p: V3, h: Field, i: nat)
    requires i < 3
    ensures CubeAdds(p, h, i) + PlaneAdds(p, h, i, 3) == CubeAdds(p, h, i + 1)
  {
  }

  /** One buffer's pass: every live particle adds its twenty-seven shares. The four
    * buffers share nothing, so each has a pass of its own. */
  method ScatterAll(g: array<int>, ps: array<Particle>, ch: Channel)
    requires g.Length == CELLS && AllInRange(ps[..])
    modifies g
    ensures g[..] == Scatter(old(g[..]), Encoded(Scattered(ps[..], ch)))
  {
    hide Holds, Scatter, Encoded, CubeAdds, ChannelField, InRange;
    ghost var g0 := g[..];
    HoldsNone(g0);
    for t := 0 to ps.Length
      invariant Holds(g[..], g0, Scattered(ps[..t], ch))
      invariant AllInRange(ps[..])
    {
      assert ps[..t + 1][..t] == ps[..t] && ps[..][t] == ps[t];
      if ps[t].alive {
        ScatterParticle(g, ps[t], ch, g0, Scattered(ps[..t], ch));
      } else {
        assert Scattered(ps[..t], ch) + [] == Scattered(ps[..t], ch);
      }
    }
    assert ps[..ps.Length] == ps[..];
    HoldsIs(g[..], g0, Scattered(ps[..], ch));
  }

  lemma HoldsNone(g: seq<int>)
    ensures Holds(g, g, Scattered([], Mass)) && forall ch :: Scattered([], ch) == []
  {
  }

  lemma HoldsIs(g: seq<int>, g0: seq<int>, adds: seq<Add>)
    requires Holds(g, g0, adds)
    ensures g == Scatter(g0, Encoded(adds))
  {
  }

  /** The whole first scatter on cleared grids: what the mass grid adds up to is the
    * particle count, to within 27n millionths, if no cell overflows. */
  method ParticlesToGrid(ps: array<Particle>) returns (mass: array<int>, vx: array<int>, vy: array<int>, vz: array<int>)
    requires AllInRange(ps[..])
    ensures fresh(mass) && fresh(vx) && fresh(vy) && fresh(vz)
    ensures mass[..] == Scatter(Cells(CELLS), Encoded(Scattered(ps[..], Mass)))
    ensures vx[..] == Scatter(Cells(CELLS), Encoded(Scattered(ps[..], Momentum(X))))
    ensures vy[..] == Scatter(Cells(CELLS), Encoded(Scattered(ps[..], Momentum(Y))))
    ensures vz[..] == Scatter(Cells(CELLS), Encoded(Scattered(ps[..], Momentum(Z))))
    ensures Fits(Cells(CELLS), Encoded(Scattered(ps[..], Mass))) && Alive(ps[..]) > 0 ==>
              Alive(ps[..]) as real * (1.0 - 27.0 / FP as real) < Decoded(mass[..]) <= Alive(ps[..]) as real
  {
    hide Scatter, Encoded, Scattered, AllInRange, Fits, Decoded;
    mass := Cleared();
    ScatterAll(mass, ps, Mass);
    vx := Cleared();
    ScatterAll(vx, ps, Momentum(X));
    vy := Cleared();
    ScatterAll(vy, ps, Momentum(Y));
    vz := Cleared();
    ScatterAll(vz, ps, Momentum(Z));
    if Fits(Cells(CELLS), Encoded(Scattered(ps[..], Mass))) {
      DecodedMass(ps[..], Encoded(Scattered(ps[..], Mass)));
    }
  }

  method Cleared() returns (g: array<int>)
    ensures fresh(g) && g.Length == CELLS && g[..] == Cells(CELLS)
  {
    g := new int[CELLS](i => 0);
  }
}
