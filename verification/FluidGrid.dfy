/** The same conservation laws read off the grid: what all its cells together hold after
  * the first pass and after the stress pass, over reals and in fixed point. */
module FluidGrid {
  import opened Stencil
  import opened Transfers
  import opened Fluid
  import opened FluidFlow
  import opened FixedPoint

  /** What the first `n` cells of the grid hold together. */
  function GridSum(adds: seq<Add>, n: nat): real {
    if n == 0 then 0.0 else GridSum(adds, n - 1) + AtNode(adds, n - 1)
  }

  lemma {:induction false} GridSumOne(adds: seq<Add>, n: nat)
    requires adds != []
    ensures var last := adds[|adds| - 1];
            GridSum(adds, n) == GridSum(adds[..|adds| - 1], n) + if 0 <= last.at < n then last.amount else 0.0
    decreases n
  {
    hide AtNode;
    if n > 0 {
      GridSumOne(adds, n - 1);
      LastAt(adds, n - 1);
    }
  }

  lemma {:induction false} NothingOnGrid(n: nat)
    ensures GridSum([], n) == 0.0
    decreases n
  {
    if n > 0 { NothingOnGrid(n - 1); }
  }

  /** What the cells hold is what was added, as long as every add landed on one of them. */
  lemma {:induction false} GridHoldsAll(adds: seq<Add>)
    requires OnTheGrid(adds)
    ensures GridSum(adds, CELLS) == Total(adds)
    decreases |adds|
  {
    hide GridSum;
    if adds == [] {
      NothingOnGrid(CELLS);
    } else {
      GridHoldsAll(adds[..|adds| - 1]);
      GridSumOne(adds, CELLS);
    }
  }

  // ---- every add lands --------------------------------------------------------------------

  lemma LandMore(a: seq<Add>, b: seq<Add>)
    requires OnTheGrid(a) && OnTheGrid(b)
    ensures OnTheGrid(a + b)
  {
  }

  lemma AddLands(p: V3, h: Field, i: nat, j: nat, k: nat)
    requires InRange(p) && i < 3 && j < 3 && k < 3
    ensures OnTheGrid([AddAt(p, h, i, j, k)])
  {
    hide NodeAt, Wt, InRange, Fx;
    StencilOnGrid(p, i, j, k);
    NodeIndexInjective(NodeAt(p, i, j, k), NodeAt(p, i, j, k));
  }

  lemma {:induction false} RowLands(p: V3, h: Field, i: nat, j: nat, k: nat)
    requires InRange(p) && i < 3 && j < 3 && k <= 3
    ensures OnTheGrid(RowAdds(p, h, i, j, k))
    decreases k
  {
    hide AddAt, InRange;
    if k > 0 {
      RowLands(p, h, i, j, k - 1);
      AddLands(p, h, i, j, k - 1);
      LandMore(RowAdds(p, h, i, j, k - 1), [AddAt(p, h, i, j, k - 1)]);
    }
  }

  lemma {:induction false} PlaneLands(p: V3, h: Field, i: nat, j: nat)
    requires InRange(p) && i < 3 && j <= 3
    ensures OnTheGrid(PlaneAdds(p, h, i, j))
    decreases j
  {
    hide RowAdds, InRange;
    if j > 0 {
      PlaneLands(p, h, i, j - 1);
      RowLands(p, h, i, j - 1, 3);
      LandMore(PlaneAdds(p, h, i, j - 1), RowAdds(p, h, i, j - 1, 3));
    }
  }

  lemma {:induction false} CubeLands(p: V3, h: Field, i: nat)
    requires InRange(p) && i <= 3
    ensures OnTheGrid(CubeAdds(p, h, i))
    decreases i
  {
    hide PlaneAdds, InRange;
    if i > 0 {
      CubeLands(p, h, i - 1);
      PlaneLands(p, h, i - 1, 3);
      LandMore(CubeAdds(p, h, i - 1), PlaneAdds(p, h, i - 1, 3));
    }
  }

  lemma {:induction false} ScatteredLands(ps: seq<Particle>, ch: Channel)
    requires AllInRange(ps)
    ensures OnTheGrid(Scattered(ps, ch))
    decreases |ps|
  {
    hide CubeAdds, ChannelField, InRange;
    if ps != [] {
      var before, p := ps[..|ps| - 1], ps[|ps| - 1];
      ScatteredLands(before, ch);
      if p.alive {
        CubeLands(p.pos, ChannelField(p, ch), 3);
        LandMore(Scattered(before, ch), CubeAdds(p.pos, ChannelField(p, ch), 3));
      }
    }
  }

  /** Added up over all cells of the grid, mass is the number of live particles and each
    * component of momentum is theirs. */
  lemma GridConserves(ps: seq<Particle>, d: Dir)
    requires AllInRange(ps)
    ensures GridSum(Scattered(ps, Mass), CELLS) == Alive(ps) as real
    ensures GridSum(Scattered(ps, Momentum(d)), CELLS) == MomentumOf(ps, d)
  {
    hide Scattered, GridSum, Total, AllInRange, OnTheGrid;
    ScatteredLands(ps, Mass);
    ScatteredLands(ps, Momentum(d));
    GridHoldsAll(Scattered(ps, Mass));
    GridHoldsAll(Scattered(ps, Momentum(d)));
    TransferConserves(ps, d);
  }

  // ---- the stress pass ------------------------------------------------------------------------

  /** Every live particle's stress adds to one component, whatever its stress is. */
  function Stressed(ps: seq<Particle>, es: seq<M3>, d: Dir): seq<Add>
    requires |es| == |ps|
  {
    if ps == [] then [] else
    var k := |ps| - 1;
    Stressed(ps[..k], es[..k], d) + if ps[k].alive then CubeAdds(ps[k].pos, StressField(ps[k], es[k], d), 3) else []
  }

  lemma {:induction false} StressedTotal(ps: seq<Particle>, es: seq<M3>, d: Dir)
    requires |es| == |ps|
    ensures Total(Stressed(ps, es, d)) == 0.0 && |Stressed(ps, es, d)| == 27 * Alive(ps)
    decreases |ps|
  {
    hide Total, CubeAdds, Cube, Fx, StressField;
    if ps == [] {
      OneTotal(Add(0, 0.0));
    } else {
      var k := |ps| - 1;
      var before, p := Stressed(ps[..k], es[..k], d), ps[k];
      StressedTotal(ps[..k], es[..k], d);
      if p.alive {
        TotalMore(before, CubeAdds(p.pos, StressField(p, es[k], d), 3));
        CubeTotal(p.pos, StressField(p, es[k], d));
        StressAddsNoMomentum(p, es[k], d);
      } else {
        assert before + [] == before;
      }
    }
  }

  lemma {:induction false} StressedLands(ps: seq<Particle>, es: seq<M3>, d: Dir)
    requires |es| == |ps| && AllInRange(ps)
    ensures OnTheGrid(Stressed(ps, es, d))
    decreases |ps|
  {
    hide CubeAdds, StressField, InRange;
    if ps != [] {
      var k := |ps| - 1;
      StressedLands(ps[..k], es[..k], d);
      if ps[k].alive {
        CubeLands(ps[k].pos, StressField(ps[k], es[k], d), 3);
        LandMore(Stressed(ps[..k], es[..k], d), CubeAdds(ps[k].pos, StressField(ps[k], es[k], d), 3));
      }
    }
  }

  /** One component of momentum after both passes. */
  function BothPasses(ps: seq<Particle>, es: seq<M3>, d: Dir): seq<Add>
    requires |es| == |ps|
  {
    Scattered(ps, Momentum(d)) + Stressed(ps, es, d)
  }

  lemma BothPassesTotal(ps: seq<Particle>, es: seq<M3>, d: Dir)
    requires |es| == |ps| && AllInRange(ps)
    ensures Total(BothPasses(ps, es, d)) == MomentumOf(ps, d) && |BothPasses(ps, es, d)| == 54 * Alive(ps)
    ensures OnTheGrid(BothPasses(ps, es, d))
  {
    hide Scattered, Stressed, Total, AllInRange, OnTheGrid;
    TransferConserves(ps, d);
    StressedTotal(ps, es, d);
    TotalMore(Scattered(ps, Momentum(d)), Stressed(ps, es, d));
    ScatteredLands(ps, Momentum(d));
    StressedLands(ps, es, d);
    LandMore(Scattered(ps, Momentum(d)), Stressed(ps, es, d));
  }

  /** After the stress pass the cells of the grid together still hold exactly the particles'
    * momentum, for any number of particles under any stresses. */
  lemma StressConservesOnGrid(ps: seq<Particle>, es: seq<M3>, d: Dir)
    requires |es| == |ps| && AllInRange(ps)
    ensures GridSum(BothPasses(ps, es, d), CELLS) == MomentumOf(ps, d)
    ensures GridSum(Stressed(ps, es, d), CELLS) == 0.0
  {
    hide BothPasses, Stressed, GridSum, Total, AllInRange, OnTheGrid;
    BothPassesTotal(ps, es, d);
    GridHoldsAll(BothPasses(ps, es, d));
    StressedTotal(ps, es, d);
    StressedLands(ps, es, d);
    GridHoldsAll(Stressed(ps, es, d));
  }

  /** In fixed point, under every schedule of both passes that overflows no cell, each
    * component read back is off by less than 54n millionths, to either side. */
  lemma DecodedAfterStress(ps: seq<Particle>, es: seq<M3>, d: Dir, order: seq<IntAdd>)
    requires |es| == |ps| && AllInRange(ps) && Alive(ps) > 0 && multiset(order) == multiset(Encoded(BothPasses(ps, es, d)))
    requires Fits(Cells(CELLS), Encoded(BothPasses(ps, es, d)))
    ensures var n, m, v := Alive(ps) as real, Decoded(Scatter(Cells(CELLS), order)), MomentumOf(ps, d);
            -54.0 * n / 1_000_000.0 < v - m < 54.0 * n / 1_000_000.0
  {
    hide Scatter, GridTotal, IntTotal, Encoded, Fits, BothPasses, Total, AllInRange;
    var adds := BothPasses(ps, es, d);
    BothPassesTotal(ps, es, d);
    DecodedTotal(adds, order);
    EncodedError(adds);
    assert adds != [];
  }
}
