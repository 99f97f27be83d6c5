/** Atomics are integers only, so every add is scaled by a million and truncated:
  * the result does not depend on the schedule, and the error is bounded. */
module FixedPoint {
  import opened Stencil
  import opened Transfers
  import opened Fluid
  import opened FluidFlow

  const FP: int := 1_000_000
  const HALF: int := 0x8000_0000
  const FULL: int := 0x1_0000_0000

  /** A conversion to an integer truncates towards zero. */
  function Enc(f: real): int {
    var x := f * FP as real;
    if x >= 0.0 then x.Floor else -((-x).Floor)
  }

  lemma EncError(f: real)
    ensures -1.0 < f * FP as real - Enc(f) as real < 1.0
    ensures f >= 0.0 ==> f * FP as real - Enc(f) as real >= 0.0
  {
  }

  /** Millionths, the fraction of one cut off whichever the sign. */
  lemma EncTruncates(f: real)
    ensures f >= 0.0 ==> 0.0 <= Enc(f) as real <= f * 1_000_000.0 < Enc(f) as real + 1.0
    ensures f <= 0.0 ==> Enc(f) as real - 1.0 < f * 1_000_000.0 <= Enc(f) as real <= 0.0
  {
  }

  function Wrap32(x: int): int { (x + HALF) % FULL - HALF }

  predicate IsInt32(x: int) { -HALF <= x < HALF }

  lemma WrapIs(x: int)
    ensures IsInt32(Wrap32(x)) && (IsInt32(x) <==> Wrap32(x) == x)
  {
  }

  lemma WrapAdds(a: int, b: int)
    ensures Wrap32(Wrap32(a) + b) == Wrap32(a + b)
  {
    var k := (a + HALF) / FULL;
    assert Wrap32(a) == a - k * FULL;
    SameResidue(a + b + HALF, -k);
  }

  lemma SameResidue(x: int, k: int)
    ensures (x + k * FULL) % FULL == x % FULL
  {
    var q := x / FULL;
    assert x + k * FULL == (q + k) * FULL + x % FULL;
  }

  datatype IntAdd = IntAdd(at: int, amount: int)

  function Encode(a: Add): IntAdd { IntAdd(a.at, Enc(a.amount)) }

  function Encoded(adds: seq<Add>): seq<IntAdd> {
    if adds == [] then [] else Encoded(adds[..|adds| - 1]) + [Encode(adds[|adds| - 1])]
  }

  /** One atomic add. */
  function One(g: seq<int>, x: IntAdd): seq<int> {
    if 0 <= x.at < |g| then g[x.at := Wrap32(g[x.at] + x.amount)] else g
  }

  /** Atomic adds in one particular order. */
  function Scatter(g: seq<int>, xs: seq<IntAdd>): (r: seq<int>)
    ensures |r| == |g|
  {
    if xs == [] then g else One(Scatter(g, xs[..|xs| - 1]), xs[|xs| - 1])
  }

  function SumAt(xs: seq<IntAdd>, at: int): int {
    if xs == [] then 0
    else SumAt(xs[..|xs| - 1], at) + if xs[|xs| - 1].at == at then xs[|xs| - 1].amount else 0
  }

  ghost predicate AllInt32(g: seq<int>) { forall i :: 0 <= i < |g| ==> IsInt32(g[i]) }

  /** Each cell ends as what it was plus everything added to it, modulo the word. */
  lemma {:induction false} ScatterAt(g: seq<int>, xs: seq<IntAdd>, at: nat)
    requires AllInt32(g) && at < |g|
    ensures Scatter(g, xs)[at] == Wrap32(g[at] + SumAt(xs, at))
    decreases |xs|
  {
    hide Wrap32;
    if xs == [] {
      WrapIs(g[at]);
    } else {
      var before, x := xs[..|xs| - 1], xs[|xs| - 1];
      ScatterAt(g, before, at);
      if x.at == at { WrapAdds(g[at] + SumAt(before, at), x.amount); }
    }
  }

  lemma {:induction false} SumAtSplit(a: seq<IntAdd>, b: seq<IntAdd>, at: int)
    ensures SumAt(a + b, at) == SumAt(a, at) + SumAt(b, at)
    decreases |b|
  {
    if b == [] {
      assert a + b == a;
    } else {
      assert (a + b)[..|a + b| - 1] == a + b[..|b| - 1];
      SumAtSplit(a, b[..|b| - 1], at);
    }
  }

  lemma TakenOut(a: seq<IntAdd>, b: seq<IntAdd>, k: nat)
    requires a != [] && k < |b| && b[k] == a[|a| - 1] && multiset(a) == multiset(b)
    ensures multiset(a[..|a| - 1]) == multiset(b[..k] + b[k + 1..])
  {
    var x := b[k];
    assert a == a[..|a| - 1] + [x];
    assert b == b[..k] + [x] + b[k + 1..];
    assert multiset(a[..|a| - 1]) == multiset(a) - multiset{x};
    assert multiset(b[..k] + b[k + 1..]) == multiset(b) - multiset{x};
  }

  /** What reaches a cell does not depend on the order. */
  lemma {:induction false} SumAtAnyOrder(a: seq<IntAdd>, b: seq<IntAdd>, at: int)
    requires multiset(a) == multiset(b)
    ensures SumAt(a, at) == SumAt(b, at)
    decreases |a|
  {
    if a == [] {
      assert |multiset(b)| == 0;
      assert b == [];
    } else {
      var front, x := a[..|a| - 1], a[|a| - 1];
      assert a == front + [x];
      assert x in multiset(b);
      var k :| 0 <= k < |b| && b[k] == x;
      var rest := b[..k] + b[k + 1..];
      assert b == b[..k] + [x] + b[k + 1..];
      TakenOut(a, b, k);
      SumAtAnyOrder(front, rest, at);
      SumAtSplit(b[..k] + [x], b[k + 1..], at);
      SumAtSplit(b[..k], [x], at);
      SumAtSplit(b[..k], b[k + 1..], at);
      assert [x][..0] == [];
    }
  }

  /** Every schedule of the same atomic adds leaves the same grid, overflow and all. */
  lemma ScheduleIndependent(g: seq<int>, a: seq<IntAdd>, b: seq<IntAdd>)
    requires AllInt32(g) && multiset(a) == multiset(b)
    ensures Scatter(g, a) == Scatter(g, b)
  {
    hide Scatter, SumAt, Wrap32;
    forall at: nat | at < |g|
      ensures Scatter(g, a)[at] == Scatter(g, b)[at]
    {
      ScatterAt(g, a, at);
      ScatterAt(g, b, at);
      SumAtAnyOrder(a, b, at);
    }
  }

  // ---- the total, and how far it is from the truth ------------------------------------

  function IntTotal(xs: seq<IntAdd>): int {
    if xs == [] then 0 else IntTotal(xs[..|xs| - 1]) + xs[|xs| - 1].amount
  }

  function GridTotal(g: seq<int>): int {
    if g == [] then 0 else GridTotal(g[..|g| - 1]) + g[|g| - 1]
  }

  function Cells(n: nat): seq<int> { seq(n, i => 0) }

  lemma {:induction false} GridTotalUpdate(g: seq<int>, i: nat, v: int)
    requires i < |g|
    ensures GridTotal(g[i := v]) == GridTotal(g) - g[i] + v
    decreases |g|
  {
    var h := g[i := v];
    if i < |g| - 1 {
      GridTotalUpdate(g[..|g| - 1], i, v);
      assert h[..|h| - 1] == g[..|g| - 1][i := v];
    } else {
      assert h[..|h| - 1] == g[..|g| - 1];
    }
  }

  lemma {:induction false} EmptyGridTotal(n: nat)
    ensures GridTotal(Cells(n)) == 0
    decreases n
  {
    if n > 0 {
      EmptyGridTotal(n - 1);
      assert Cells(n)[..n - 1] == Cells(n - 1);
    }
  }

  /** The adds over unbounded integers. */
  function Plain(g: seq<int>, xs: seq<IntAdd>): (r: seq<int>)
    ensures |r| == |g|
  {
    if xs == [] then g else
    var h, x := Plain(g, xs[..|xs| - 1]), xs[|xs| - 1];
    if 0 <= x.at < |g| then h[x.at := h[x.at] + x.amount] else h
  }

  /** What ends up in every cell fits a 32-bit word; it may stray in between. */
  ghost predicate Fits(g: seq<int>, xs: seq<IntAdd>) {
    forall at: nat :: at < |g| ==> IsInt32(g[at] + SumAt(xs, at))
  }

  ghost predicate Landing(xs: seq<IntAdd>, n: nat) { forall t :: 0 <= t < |xs| ==> 0 <= xs[t].at < n }

  lemma {:induction false} PlainAt(g: seq<int>, xs: seq<IntAdd>, at: nat)
    requires at < |g|
    ensures Plain(g, xs)[at] == g[at] + SumAt(xs, at)
    decreases |xs|
  {
    if xs != [] { PlainAt(g, xs[..|xs| - 1], at); }
  }

  lemma {:induction false} PlainTotal(g: seq<int>, xs: seq<IntAdd>)
    requires Landing(xs, |g|)
    ensures GridTotal(Plain(g, xs)) == GridTotal(g) + IntTotal(xs)
    decreases |xs|
  {
    if xs != [] {
      var before, x := xs[..|xs| - 1], xs[|xs| - 1];
      PlainTotal(g, before);
      GridTotalUpdate(Plain(g, before), x.at, Plain(g, before)[x.at] + x.amount);
    }
  }

  lemma ScatterTotal(g: seq<int>, xs: seq<IntAdd>)
    requires AllInt32(g) && Landing(xs, |g|) && Fits(g, xs)
    ensures GridTotal(Scatter(g, xs)) == GridTotal(g) + IntTotal(xs)
  {
    hide Wrap32, SumAt, IsInt32, Scatter, Plain, GridTotal;
    forall at: nat | at < |g|
      ensures Scatter(g, xs)[at] == Plain(g, xs)[at]
    {
      ScatterAt(g, xs, at);
      PlainAt(g, xs, at);
      WrapIs(g[at] + SumAt(xs, at));
    }
    assert Scatter(g, xs) == Plain(g, xs);
    PlainTotal(g, xs);
  }

  lemma {:induction false} EncodedError(adds: seq<Add>)
    ensures |Encoded(adds)| == |adds|
    ensures -(|adds| as real) <= Total(adds) * FP as real - IntTotal(Encoded(adds)) as real <= |adds| as real
    ensures adds != [] ==> -(|adds| as real) < Total(adds) * FP as real - IntTotal(Encoded(adds)) as real < |adds| as real
    ensures (forall t :: 0 <= t < |adds| ==> adds[t].amount >= 0.0) ==> Total(adds) * FP as real - IntTotal(Encoded(adds)) as real >= 0.0
    decreases |adds|
  {
    hide Enc;
    if adds != [] {
      EncodedError(adds[..|adds| - 1]);
      EncError(adds[|adds| - 1].amount);
    }
  }

  // ---- the mass on the grid ----------------------------------------------------------------

  lemma EncodeAt(adds: seq<Add>, t: nat)
    requires t < |adds|
    ensures |Encoded(adds)| == |adds| && Encoded(adds)[t] == Encode(adds[t])
    decreases |adds|
  {
    EncodedError(adds);
    EncodedError(adds[..|adds| - 1]);
    if t < |adds| - 1 { EncodeAt(adds[..|adds| - 1], t); }
  }

  /** Every add lands on the grid. */
  ghost predicate OnTheGrid(adds: seq<Add>) { forall t :: 0 <= t < |adds| ==> 0 <= adds[t].at < CELLS }

  lemma EncodedLanding(adds: seq<Add>)
    requires OnTheGrid(adds)
    ensures Landing(Encoded(adds), CELLS)
  {
    hide Encoded;
    EncodedError(adds);
    forall t | 0 <= t < |Encoded(adds)|
      ensures 0 <= Encoded(adds)[t].at < CELLS
    {
      EncodeAt(adds, t);
    }
  }

  function Decoded(g: seq<int>): real { GridTotal(g) as real / FP as real }

  /** In whatever order the atomics run, as long as no cell overflows, nothing is
    * lost between the adds and the grid. */
  lemma DecodedTotal(adds: seq<Add>, order: seq<IntAdd>)
    requires OnTheGrid(adds) && multiset(order) == multiset(Encoded(adds)) && Fits(Cells(CELLS), Encoded(adds))
    ensures Scatter(Cells(CELLS), order) == Scatter(Cells(CELLS), Encoded(adds))
    ensures GridTotal(Scatter(Cells(CELLS), order)) == IntTotal(Encoded(adds))
  {
    hide Scatter, GridTotal, IntTotal, Encoded, Fits, Landing;
    ScheduleIndependent(Cells(CELLS), order, Encoded(adds));
    EncodedLanding(adds);
    EmptyGridTotal(CELLS);
    ScatterTotal(Cells(CELLS), Encoded(adds));
  }

  lemma PositiveWeight(p: V3, i: nat, j: nat, k: nat)
    requires i < 3 && j < 3 && k < 3
    ensures 0.0 <= Wt(Fx(p), i, j, k) <= 1.0
  {
    hide W;
    var g := GridPos(p);
    OffsetRange(g.x);
    OffsetRange(g.y);
    OffsetRange(g.z);
    AxisBounds(i, Offset(g.x));
    AxisBounds(j, Offset(g.y));
    AxisBounds(k, Offset(g.z));
    Shrinks(W(i, Offset(g.x)), W(j, Offset(g.y)));
    Shrinks(W(i, Offset(g.x)) * W(j, Offset(g.y)), W(k, Offset(g.z)));
  }

  lemma MulPositive(a: real, b: real)
    requires 0.0 <= a && 0.0 <= b
    ensures 0.0 <= a * b
  {
  }

  lemma Shrinks(a: real, b: real)
    requires 0.0 <= a <= 1.0 && 0.0 <= b <= 1.0
    ensures 0.0 <= a * b <= 1.0
  {
    MulPositive(a, b);
    MulPositive(a, 1.0 - b);
    assert a * (1.0 - b) == a - a * b;
  }

  /** Every add lands on the grid, and mass is never negative. */
  ghost predicate Sound(adds: seq<Add>, mass: bool) {
    forall t :: 0 <= t < |adds| ==> 0 <= adds[t].at < CELLS && (mass ==> adds[t].amount >= 0.0)
  }

  lemma SoundMore(a: seq<Add>, b: seq<Add>, mass: bool)
    requires Sound(a, mass) && Sound(b, mass)
    ensures Sound(a + b, mass)
  {
  }

  lemma AddSound(p: Particle, ch: Channel, i: nat, j: nat, k: nat)
    requires InRange(p.pos) && i < 3 && j < 3 && k < 3
    ensures Sound([AddAt(p.pos, ChannelField(p, ch), i, j, k)], ch == Mass)
  {
    hide NodeAt, Wt, InRange, Fx;
    StencilOnGrid(p.pos, i, j, k);
    NodeIndexInjective(NodeAt(p.pos, i, j, k), NodeAt(p.pos, i, j, k));
    PositiveWeight(p.pos, i, j, k);
  }

  lemma {:induction false} RowSound(p: Particle, ch: Channel, i: nat, j: nat, k: nat)
    requires InRange(p.pos) && i < 3 && j < 3 && k <= 3
    ensures Sound(RowAdds(p.pos, ChannelField(p, ch), i, j, k), ch == Mass)
    decreases k
  {
    hide AddAt, ChannelField, InRange;
    if k > 0 {
      RowSound(p, ch, i, j, k - 1);
      AddSound(p, ch, i, j, k - 1);
      SoundMore(RowAdds(p.pos, ChannelField(p, ch), i, j, k - 1), [AddAt(p.pos, ChannelField(p, ch), i, j, k - 1)], ch == Mass);
    }
  }

  lemma {:induction false} PlaneSound(p: Particle, ch: Channel, i: nat, j: nat)
    requires InRange(p.pos) && i < 3 && j <= 3
    ensures Sound(PlaneAdds(p.pos, ChannelField(p, ch), i, j), ch == Mass)
    decreases j
  {
    hide RowAdds, ChannelField, InRange;
    if j > 0 {
      PlaneSound(p, ch, i, j - 1);
      RowSound(p, ch, i, j - 1, 3);
      SoundMore(PlaneAdds(p.pos, ChannelField(p, ch), i, j - 1), RowAdds(p.pos, ChannelField(p, ch), i, j - 1, 3), ch == Mass);
    }
  }

  lemma {:induction false} CubeSound(p: Particle, ch: Channel, i: nat)
    requires InRange(p.pos) && i <= 3
    ensures Sound(CubeAdds(p.pos, ChannelField(p, ch), i), ch == Mass)
    decreases i
  {
    hide PlaneAdds, ChannelField, InRange;
    if i > 0 {
      CubeSound(p, ch, i - 1);
      PlaneSound(p, ch, i - 1, 3);
      SoundMore(CubeAdds(p.pos, ChannelField(p, ch), i - 1), PlaneAdds(p.pos, ChannelField(p, ch), i - 1, 3), ch == Mass);
    }
  }

  ghost predicate AllInRange(ps: seq<Particle>) { forall t :: 0 <= t < |ps| && ps[t].alive ==> InRange(ps[t].pos) }

  lemma {:induction false} ScatteredSound(ps: seq<Particle>, ch: Channel)
    requires AllInRange(ps)
    ensures Sound(Scattered(ps, ch), ch == Mass)
    decreases |ps|
  {
    hide CubeAdds, ChannelField, InRange;
    if ps != [] {
      var before, p := ps[..|ps| - 1], ps[|ps| - 1];
      ScatteredSound(before, ch);
      if p.alive {
        CubeSound(p, ch, 3);
        SoundMore(Scattered(before, ch), CubeAdds(p.pos, ChannelField(p, ch), 3), ch == Mass);
      }
    }
  }

  /** Under every schedule that overflows no cell, the mass read back is at most the
    * number of live particles and short of it by less than 27n millionths. */
  lemma DecodedMass(ps: seq<Particle>, order: seq<IntAdd>)
    requires AllInRange(ps) && multiset(order) == multiset(Encoded(Scattered(ps, Mass)))
    requires Fits(Cells(CELLS), Encoded(Scattered(ps, Mass)))
    ensures var n, m := Alive(ps) as real, Decoded(Scatter(Cells(CELLS), order));
            if Alive(ps) == 0 then m == 0.0 else n - 27.0 * n / 1_000_000.0 < m <= n
  {
    hide Scatter, GridTotal, IntTotal, Encoded, Fits, Scattered, Total;
    var adds := Scattered(ps, Mass);
    ScatteredSound(ps, Mass);
    DecodedTotal(adds, order);
    EncodedError(adds);
    TransferConserves(ps, X);
    if Alive(ps) == 0 { assert adds == []; }
  }

  /** Likewise each component of momentum, on both sides. */
  lemma DecodedMomentum(ps: seq<Particle>, d: Dir, order: seq<IntAdd>)
    requires AllInRange(ps) && Alive(ps) > 0 && multiset(order) == multiset(Encoded(Scattered(ps, Momentum(d))))
    requires Fits(Cells(CELLS), Encoded(Scattered(ps, Momentum(d))))
    ensures var n, m, v := Alive(ps) as real, Decoded(Scatter(Cells(CELLS), order)), MomentumOf(ps, d);
            -27.0 * n / 1_000_000.0 < v - m < 27.0 * n / 1_000_000.0
  {
    hide Scatter, GridTotal, IntTotal, Encoded, Fits, Scattered, Total;
    var adds := Scattered(ps, Momentum(d));
    ScatteredSound(ps, Momentum(d));
    DecodedTotal(adds, order);
    EncodedError(adds);
    TransferConserves(ps, d);
    assert adds != [];
  }
}
