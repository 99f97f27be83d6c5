/** What the particle-to-grid and grid-to-particle kernels conserve and reproduce,
  * over exact reals. */
module Transfers {
  import opened Stencil

  const ORIGIN: real := -32.0
  const OY: real := -2.0
  const GX: nat := 64
  const GY: nat := 48
  const GZ: nat := 64
  const CELLS: nat := GX * GY * GZ
  const LIM: real := 30.0

  datatype Particle = Particle(pos: V3, vel: V3, C: M3, alive: bool)

  function GridPos(p: V3): V3 { V3(p.x - ORIGIN, p.y - OY, p.z - ORIGIN) }

  function Fx(p: V3): V3 { var g := GridPos(p); V3(Offset(g.x), Offset(g.y), Offset(g.z)) }

  /** A node by its three coordinates. */
  datatype Node = Node(x: int, y: int, z: int)

  function NodeAt(p: V3, i: nat, j: nat, k: nat): Node {
    var g := GridPos(p);
    Node(Base(g.x) + i, Base(g.y) + j, Base(g.z) + k)
  }

  function NodeIndex(n: Node): int { n.x + n.y * GX + n.z * (GX * GY) }

  predicate OnGrid(n: Node) { 0 <= n.x < GX && 0 <= n.y < GY && 0 <= n.z < GZ }

  /** All twenty-seven nodes are on the grid. */
  predicate InRange(p: V3) { OnGrid(NodeAt(p, 0, 0, 0)) && OnGrid(NodeAt(p, 2, 2, 2)) }

  lemma NodeIndexInjective(m: Node, n: Node)
    requires OnGrid(m) && OnGrid(n)
    ensures 0 <= NodeIndex(m) < CELLS
    ensures NodeIndex(m) == NodeIndex(n) ==> m == n
  {
  }

  function Clamp(x: real, lo: real, hi: real): real { if x < lo then lo else if x > hi then hi else x }

  function Clamped(p: V3): V3 {
    V3(Clamp(p.x, -LIM, LIM), Clamp(p.y, 0.3, OY + GY as real - 2.0), Clamp(p.z, -LIM, LIM))
  }

  /** Wherever a particle drifts, the clamp puts its whole stencil back on the grid. */
  lemma ClampedInRange(p: V3)
    ensures InRange(Clamped(p))
  {
  }

  predicate WithinWalls(p: V3) { -30.0 <= p.x <= 30.0 && 0.3 <= p.y <= 44.0 && -30.0 <= p.z <= 30.0 }

  /** It moves each coordinate only if it must, and then to the wall it went through. */
  lemma ClampedIsNearest(p: V3, q: V3)
    requires WithinWalls(q)
    ensures var c := Clamped(p);
            && WithinWalls(c) && (WithinWalls(p) ==> c == p)
            && (p.x <= c.x <= q.x || q.x <= c.x <= p.x || c.x == p.x)
            && (p.y <= c.y <= q.y || q.y <= c.y <= p.y || c.y == p.y)
            && (p.z <= c.z <= q.z || q.z <= c.z <= p.z || c.z == p.z)
  {
  }

  // ---- scatters --------------------------------------------------------------------

  datatype Add = Add(at: int, amount: real)

  function AddAt(p: V3, h: Field, i: nat, j: nat, k: nat): Add
    requires i < 3 && j < 3 && k < 3
  {
    Add(NodeIndex(NodeAt(p, i, j, k)), Wt(Fx(p), i, j, k) * h(i, j, k))
  }

  /** The first `k` adds of a row, the first `j` rows of a plane, the first `i` planes. */
  function RowAdds(p: V3, h: Field, i: nat, j: nat, k: nat): seq<Add>
    requires i < 3 && j < 3 && k <= 3
  {
    if k == 0 then [] else RowAdds(p, h, i, j, k - 1) + [AddAt(p, h, i, j, k - 1)]
  }

  function PlaneAdds(p: V3, h: Field, i: nat, j: nat): seq<Add>
    requires i < 3 && j <= 3
  {
    if j == 0 then [] else PlaneAdds(p, h, i, j - 1) + RowAdds(p, h, i, j - 1, 3)
  }

  function CubeAdds(p: V3, h: Field, i: nat): seq<Add>
    requires i <= 3
  {
    if i == 0 then [] else CubeAdds(p, h, i - 1) + PlaneAdds(p, h, i - 1, 3)
  }

  function Total(adds: seq<Add>): real {
    if adds == [] then 0.0 else Total(adds[..|adds| - 1]) + adds[|adds| - 1].amount
  }

  lemma {:induction false} TotalMore(a: seq<Add>, b: seq<Add>)
    ensures Total(a + b) == Total(a) + Total(b)
    decreases |b|
  {
    if b == [] {
      assert a + b == a;
    } else {
      assert (a + b)[..|a + b| - 1] == a + b[..|b| - 1];
      TotalMore(a, b[..|b| - 1]);
    }
  }

  lemma RowTotal(p: V3, h: Field, i: nat, j: nat)
    requires i < 3 && j < 3
    ensures Total(RowAdds(p, h, i, j, 3)) == Row(Fx(p), h, i, j) && |RowAdds(p, h, i, j, 3)| == 3
  {
    hide Wt, Total, AddAt;
    var a, b, c := AddAt(p, h, i, j, 0), AddAt(p, h, i, j, 1), AddAt(p, h, i, j, 2);
    assert RowAdds(p, h, i, j, 0) == [];
    assert RowAdds(p, h, i, j, 1) == [] + [a];
    assert RowAdds(p, h, i, j, 2) == [] + [a] + [b];
    assert RowAdds(p, h, i, j, 3) == [] + [a] + [b] + [c];
    TotalMore([], [a]);
    TotalMore([] + [a], [b]);
    TotalMore([] + [a] + [b], [c]);
    OneTotal(a);
    OneTotal(b);
    OneTotal(c);
    Amount(p, h, i, j, 0);
    Amount(p, h, i, j, 1);
    Amount(p, h, i, j, 2);
  }

  lemma OneTotal(a: Add)
    ensures Total([a]) == a.amount && Total([]) == 0.0
  {
    assert [a][..0] == [];
  }

  lemma Amount(p: V3, h: Field, i: nat, j: nat, k: nat)
    requires i < 3 && j < 3 && k < 3
    ensures AddAt(p, h, i, j, k).amount == Wt(Fx(p), i, j, k) * h(i, j, k)
  {
  }

  lemma PlaneTotal(p: V3, h: Field, i: nat)
    requires i < 3
    ensures Total(PlaneAdds(p, h, i, 3)) == Plane(Fx(p), h, i) && |PlaneAdds(p, h, i, 3)| == 9
  {
    hide Row, Total, RowAdds;
    var a, b, c := RowAdds(p, h, i, 0, 3), RowAdds(p, h, i, 1, 3), RowAdds(p, h, i, 2, 3);
    assert PlaneAdds(p, h, i, 0) == [];
    assert PlaneAdds(p, h, i, 1) == [] + a;
    assert PlaneAdds(p, h, i, 2) == [] + a + b;
    assert PlaneAdds(p, h, i, 3) == [] + a + b + c;
    TotalMore([], a);
    TotalMore([] + a, b);
    TotalMore([] + a + b, c);
    RowTotal(p, h, i, 0);
    RowTotal(p, h, i, 1);
    RowTotal(p, h, i, 2);
    OneTotal(Add(0, 0.0));
  }

  lemma CubeTotal(p: V3, h: Field)
    ensures Total(CubeAdds(p, h, 3)) == Cube(Fx(p), h) && |CubeAdds(p, h, 3)| == 27
  {
    hide Plane, Total, PlaneAdds;
    var a, b, c := PlaneAdds(p, h, 0, 3), PlaneAdds(p, h, 1, 3), PlaneAdds(p, h, 2, 3);
    assert CubeAdds(p, h, 0) == [];
    assert CubeAdds(p, h, 1) == [] + a;
    assert CubeAdds(p, h, 2) == [] + a + b;
    assert CubeAdds(p, h, 3) == [] + a + b + c;
    TotalMore([], a);
    TotalMore([] + a, b);
    TotalMore([] + a + b, c);
    PlaneTotal(p, h, 0);
    PlaneTotal(p, h, 1);
    PlaneTotal(p, h, 2);
    OneTotal(Add(0, 0.0));
  }
}
