/** Saving a floor and building it again from what was saved. */
module FloorStore {
  import opened Basics
  import opened FloorPlan
  import opened FloorEdits

  /** Two clicks. The direction out is not saved; the edge gives it back. */
  datatype SavedLane = SavedLane(inAt: Pos, outAt: Pos)
  datatype SavedMachine = SavedMachine(p: Pos, config: Config)
  datatype SavedSwitch = SavedSwitch(cells: seq<Pos>, lanes: seq<SavedLane>)
  datatype Saved = Saved(machines: seq<SavedMachine>, switches: seq<SavedSwitch>)

  function SaveLanes(lanes: seq<Lane>): seq<SavedLane> {
    seq(|lanes|, i requires 0 <= i < |lanes| => SavedLane(lanes[i].inAt, lanes[i].outAt))
  }

  // ---- what a saved floor says --------------------------------------------------------

  /** Every machine exactly once, in some order. */
  ghost predicate ListsMachines(machines: seq<SavedMachine>, cells: map<Pos, Cell>) {
    && (forall i :: 0 <= i < |machines| ==> machines[i].p in cells && cells[machines[i].p] == Machine(machines[i].config))
    && (forall i, j :: 0 <= i < j < |machines| ==> machines[i].p != machines[j].p)
    && (forall p :: p in cells && cells[p].Machine? ==> exists i :: 0 <= i < |machines| && machines[i].p == p)
  }

  /** Every switch exactly once, the `k`-th being appliance `ids[k]`. */
  ghost predicate ListsSwitches(switches: seq<SavedSwitch>, apps: map<nat, Appliance>, ids: seq<nat>) {
    && |ids| == |switches|
    && (forall k :: 0 <= k < |ids| ==> ids[k] in apps && SavesSwitch(switches[k], apps[ids[k]]))
    && (forall j, k :: 0 <= j < k < |ids| ==> ids[j] != ids[k])
    && (forall id :: id in apps ==> id in ids)
  }

  ghost predicate SavesSwitch(s: SavedSwitch, a: Appliance) {
    (forall p :: p in s.cells <==> p in a.cells) && s.lanes == SaveLanes(a.lanes)
  }

  ghost predicate Saves(s: Saved, f: Floor, ids: seq<nat>) {
    ListsMachines(s.machines, f.cells) && ListsSwitches(s.switches, f.apps, ids)
  }

  /** Walk the floor and write it down. */
  method Serialize(f: Floor) returns (s: Saved)
    ensures exists ids :: Saves(s, f, ids)
  {
    hide ListsMachines, ListsSwitches;
    var machines := SerializeMachines(f.cells);
    var switches := SerializeSwitches(f.apps);
    s := Saved(machines, switches);
    ghost var ids :| ListsSwitches(switches, f.apps, ids);
    assert Saves(s, f, ids);
  }

  method SerializeMachines(cells: map<Pos, Cell>) returns (machines: seq<SavedMachine>)
    ensures ListsMachines(machines, cells)
  {
    machines := [];
    var todo := cells.Keys;
    while todo != {}
      invariant todo <= cells.Keys
      invariant forall i :: 0 <= i < |machines| ==> machines[i].p in cells && machines[i].p !in todo && cells[machines[i].p] == Machine(machines[i].config)
      invariant forall i, j :: 0 <= i < j < |machines| ==> machines[i].p != machines[j].p
      invariant forall p :: p in cells && p !in todo && cells[p].Machine? ==> exists i :: 0 <= i < |machines| && machines[i].p == p
      decreases |todo|
    {
      var p :| p in todo;
      todo := todo - {p};
      if cells[p].Machine? {
        ghost var before := machines;
        machines := machines + [SavedMachine(p, cells[p].config)];
        assert machines[|before|].p == p;
        assert forall i :: 0 <= i < |before| ==> machines[i] == before[i];
      }
    }
  }

  method SerializeSwitches(apps: map<nat, Appliance>) returns (switches: seq<SavedSwitch>)
    ensures exists ids :: ListsSwitches(switches, apps, ids)
  {
    hide SavesSwitch;
    switches := [];
    ghost var ids := [];
    var todo := apps.Keys;
    while todo != {}
      invariant todo <= apps.Keys && |ids| == |switches|
      invariant forall k :: 0 <= k < |ids| ==> ids[k] in apps && ids[k] !in todo && SavesSwitch(switches[k], apps[ids[k]])
      invariant forall j, k :: 0 <= j < k < |ids| ==> ids[j] != ids[k]
      invariant forall id :: id in apps && id !in todo ==> id in ids
      decreases |todo|
    {
      var id :| id in todo;
      todo := todo - {id};
      var sw := SerializeSwitch(apps[id]);
      switches := switches + [sw];
      ids := ids + [id];
    }
    assert ListsSwitches(switches, apps, ids);
  }

  method SerializeSwitch(a: Appliance) returns (s: SavedSwitch)
    ensures SavesSwitch(s, a)
  {
    var cells := [];
    var todo := a.cells;
    while todo != {}
      invariant todo <= a.cells
      invariant forall p :: p in cells <==> p in a.cells && p !in todo
      decreases |todo|
    {
      var p :| p in todo;
      todo := todo - {p};
      cells := cells + [p];
    }
    s := SavedSwitch(cells, SaveLanes(a.lanes));
  }

  // ---- building it again ------------------------------------------------------------------

  function MinCol(ps: seq<Pos>): (m: int)
    requires ps != []
    ensures exists i :: 0 <= i < |ps| && ps[i].col == m
    ensures forall i :: 0 <= i < |ps| ==> m <= ps[i].col
  {
    if |ps| == 1 then ps[0].col else
    var m := MinCol(ps[1..]);
    assert forall i :: 0 < i < |ps| ==> ps[i] == ps[1..][i - 1];
    assert exists i :: 0 <= i < |ps[1..]| && ps[1..][i].col == m;
    Min(ps[0].col, m)
  }

  function Mirror(ps: seq<Pos>): (r: seq<Pos>)
    ensures |r| == |ps| && forall i :: 0 <= i < |ps| ==> r[i] == Pos(-ps[i].col, -ps[i].row)
  {
    seq(|ps|, i requires 0 <= i < |ps| => Pos(-ps[i].col, -ps[i].row))
  }

  function Flip(ps: seq<Pos>): (r: seq<Pos>)
    ensures |r| == |ps| && forall i :: 0 <= i < |ps| ==> r[i] == Pos(ps[i].row, ps[i].col)
  {
    seq(|ps|, i requires 0 <= i < |ps| => Pos(ps[i].row, ps[i].col))
  }

  function MaxCol(ps: seq<Pos>): int
    requires ps != []
  {
    -MinCol(Mirror(ps))
  }

  function MinRow(ps: seq<Pos>): int
    requires ps != []
  {
    MinCol(Flip(ps))
  }

  function MaxRow(ps: seq<Pos>): int
    requires ps != []
  {
    MaxCol(Flip(ps))
  }

  /** The two clicks of each port, replayed. */
  function Rewire(f: Floor, id: nat, lanes: seq<SavedLane>): Floor {
    if lanes == [] then f
    else
      var l := lanes[|lanes| - 1];
      TogglePort(TogglePort(Rewire(f, id, lanes[..|lanes| - 1]), id, l.inAt), id, l.outAt)
  }

  function RestoreSwitch(f: Floor, s: SavedSwitch): Floor {
    if s.cells == [] then f else
    var g := CreateSwitch(f, MinCol(s.cells), MinRow(s.cells), MaxCol(s.cells), MaxRow(s.cells));
    if g.nextId == f.nextId then f else Rewire(g, f.nextId, s.lanes)
  }

  function RestoreMachines(f: Floor, machines: seq<SavedMachine>): Floor {
    if machines == [] then f
    else SetMachine(RestoreMachines(f, machines[..|machines| - 1]), machines[|machines| - 1].p, machines[|machines| - 1].config)
  }

  function RestoreSwitches(f: Floor, switches: seq<SavedSwitch>): Floor {
    if switches == [] then f else RestoreSwitch(RestoreSwitches(f, switches[..|switches| - 1]), switches[|switches| - 1])
  }

  function Restore(s: Saved): Floor { RestoreSwitches(RestoreMachines(BARE, s.machines), s.switches) }

  /** A switch without the port that is only half placed. */
  function Settled(a: Appliance): Appliance { a.(pending := None) }

  // ---- full rectangles come back whole ----------------------------------------------------------

  ghost predicate Fills(cells: set<Pos>, c0: int, r0: int, c1: int, r1: int) {
    && 0 <= c0 <= c1 < COLS && 0 <= r0 <= r1 < ROWS
    && forall p :: p in cells <==> c0 <= p.col <= c1 && r0 <= p.row <= r1
  }

  /** The switch is every cell of some rectangle of at least two. */
  ghost predicate FullRectangle(a: Appliance) {
    |a.cells| >= 2 && exists c0, r0, c1, r1 :: Fills(a.cells, c0, r0, c1, r1)
  }

  lemma MinColIs(ps: seq<Pos>, m: int)
    requires ps != [] && (exists p :: p in ps && p.col == m) && forall p :: p in ps ==> m <= p.col
    ensures MinCol(ps) == m
  {
    hide MinCol;
    var i :| 0 <= i < |ps| && ps[i].col == MinCol(ps);
    assert ps[i] in ps;
    var p :| p in ps && p.col == m;
    var j :| 0 <= j < |ps| && ps[j] == p;
  }

  lemma MaxColIs(ps: seq<Pos>, m: int)
    requires ps != [] && (exists p :: p in ps && p.col == m) && forall p :: p in ps ==> p.col <= m
    ensures MaxCol(ps) == m
  {
    hide MinCol, Mirror;
    var p :| p in ps && p.col == m;
    var j :| 0 <= j < |ps| && ps[j] == p;
    assert Mirror(ps)[j] in Mirror(ps) && Mirror(ps)[j].col == -m;
    MinColIs(Mirror(ps), -m);
  }

  lemma FlipHas(ps: seq<Pos>, p: Pos)
    requires p in ps
    ensures Pos(p.row, p.col) in Flip(ps)
  {
    hide Flip;
    var j :| 0 <= j < |ps| && ps[j] == p;
    assert Flip(ps)[j] in Flip(ps);
  }

  /** A list of the cells of a rectangle spans that rectangle. */
  lemma Spans(ps: seq<Pos>, c0: int, r0: int, c1: int, r1: int)
    requires c0 <= c1 && r0 <= r1 && forall p :: p in ps <==> c0 <= p.col <= c1 && r0 <= p.row <= r1
    ensures ps != [] && MinCol(ps) == c0 && MinRow(ps) == r0 && MaxCol(ps) == c1 && MaxRow(ps) == r1
  {
    hide MinCol, MaxCol, Flip;
    assert Pos(c0, r0) in ps && Pos(c1, r1) in ps;
    MinColIs(ps, c0);
    MaxColIs(ps, c1);
    FlipHas(ps, Pos(c0, r0));
    FlipHas(ps, Pos(c1, r1));
    MinColIs(Flip(ps), r0);
    MaxColIs(Flip(ps), r1);
  }

  /** The saved cells of a full rectangle span exactly it. */
  lemma SpansItself(s: SavedSwitch, a: Appliance)
    requires FullRectangle(a) && SavesSwitch(s, a)
    ensures s.cells != []
    ensures forall p :: InRect(p, MinCol(s.cells), MinRow(s.cells), MaxCol(s.cells), MaxRow(s.cells)) <==> p in a.cells
  {
    hide MinCol, MinRow, MaxCol, MaxRow;
    var c0, r0, c1, r1 :| Fills(a.cells, c0, r0, c1, r1);
    Spans(s.cells, c0, r0, c1, r1);
  }

  // ---- one switch ---------------------------------------------------------------------------------

  /** Removing nothing. */
  lemma {:induction false} NothingToRemove(f: Floor, ps: seq<Pos>)
    requires forall p :: p in ps ==> p !in f.cells
    ensures RemoveAll(f, ps) == f
    decreases |ps|
  {
    if ps != [] { NothingToRemove(f, ps[..|ps| - 1]); }
  }

  lemma CreatesExactly(f: Floor, s: SavedSwitch, a: Appliance)
    requires FullRectangle(a) && SavesSwitch(s, a) && a.cells !! f.cells.Keys
    ensures s.cells != []
    ensures CreateSwitch(f, MinCol(s.cells), MinRow(s.cells), MaxCol(s.cells), MaxRow(s.cells)) == Install(f, a.cells)
  {
    hide InRect, FullRectangle, SavesSwitch, RemoveAll, Install, MinCol, MinRow, MaxCol, MaxRow;
    SpansItself(s, a);
    var rect := Rect(MinCol(s.cells), MinRow(s.cells), MaxCol(s.cells), MaxRow(s.cells));
    NothingToRemove(f, rect);
    assert Footprint(f, MinCol(s.cells), MinRow(s.cells), MaxCol(s.cells), MaxRow(s.cells)) == a.cells;
    assert |a.cells| >= 2 by { FullSize(a); }
  }

  lemma FullSize(a: Appliance)
    requires FullRectangle(a)
    ensures |a.cells| >= 2
  {
  }

  /** What the record is after the first `n` ports are clicked in again. */
  function Partly(a: Appliance, n: nat): Appliance
    requires n <= |a.lanes|
  {
    Appliance(a.cells, a.lanes[..n], None)
  }

  lemma FreshLane(a: Appliance, n: nat)
    requires WellPlaced(a) && n < |a.lanes|
    ensures var l := a.lanes[n];
            && LaneAt(a.lanes[..n], l.inAt) == n && LaneAt(a.lanes[..n], l.outAt) == n && l.inAt != l.outAt
            && l.inAt in a.cells && EdgeDir(a.cells, l.inAt).Some? && l.outAt in a.cells && EdgeDir(a.cells, l.outAt) == Some(l.outDir)
  {
    hide EdgeDir, LaneAt;
    LaneNowhere(a.lanes[..n], a.lanes[n].inAt);
    LaneNowhere(a.lanes[..n], a.lanes[n].outAt);
  }

  /** Two clicks put the next port back as it was. */
  lemma ClicksRestore(f: Floor, id: nat, a: Appliance, n: nat)
    requires FloorOk(f) && id in f.apps && WellPlaced(a) && n < |a.lanes| && f.apps[id] == Partly(a, n)
    ensures var g := TogglePort(TogglePort(f, id, a.lanes[n].inAt), id, a.lanes[n].outAt);
            && FloorOk(g) && g.apps == f.apps[id := Partly(a, n + 1)] && g.nextId == f.nextId
            && g.cells == f.cells + map p | p in a.cells :: CellIn(id, Partly(a, n + 1), p)
  {
    hide EdgeDir, LaneAt, CellIn, FloorOk, WellPlaced, TogglePort;
    var l := a.lanes[n];
    FreshLane(a, n);
    FirstClick(f, id, l.inAt);
    var b := Partly(a, n).(pending := Some(l.inAt));
    var g := Redrawn(f, id, b);
    RedrawnKeeps(f, id, b);
    SecondClick(g, id, l.outAt);
    assert a.lanes[..n] + [l] == a.lanes[..n + 1];
    assert Wired(b, l.outAt) == Partly(a, n + 1);
    RedrawnKeeps(g, id, Partly(a, n + 1));
    RedrawnTwice(f, id, b, Partly(a, n + 1));
  }

  lemma RedrawnTwice(f: Floor, id: nat, a: Appliance, b: Appliance)
    requires a.cells == b.cells
    ensures Redrawn(Redrawn(f, id, a), id, b) == Redrawn(f, id, b)
  {
    hide CellIn;
    assert Redrawn(Redrawn(f, id, a), id, b).cells == Redrawn(f, id, b).cells;
    assert f.apps[id := a][id := b] == f.apps[id := b];
  }

  lemma {:induction false} RewireRestores(f: Floor, id: nat, a: Appliance, n: nat)
    requires FloorOk(f) && id in f.apps && WellPlaced(a) && n <= |a.lanes| && f.apps[id] == Partly(a, 0)
    ensures var g := Rewire(f, id, SaveLanes(a.lanes[..n]));
            && FloorOk(g) && g.apps == f.apps[id := Partly(a, n)] && g.nextId == f.nextId
            && g.cells == f.cells + map p | p in a.cells :: CellIn(id, Partly(a, n), p)
    decreases n
  {
    hide FloorOk, WellPlaced, CellIn, TogglePort, LaneAt;
    if n == 0 {
      assert f.apps[id := Partly(a, 0)] == f.apps;
      UnwiredDrawn(f, id, a);
    } else {
      RewireRestores(f, id, a, n - 1);
      var g := Rewire(f, id, SaveLanes(a.lanes[..n - 1]));
      ClicksRestore(g, id, a, n - 1);
      var saved := SaveLanes(a.lanes[..n]);
      assert saved[..n - 1] == SaveLanes(a.lanes[..n - 1]);
      assert f.apps[id := Partly(a, n - 1)][id := Partly(a, n)] == f.apps[id := Partly(a, n)];
      assert Redrawn(Redrawn(f, id, Partly(a, n - 1)), id, Partly(a, n)) == Redrawn(f, id, Partly(a, n)) by {
        RedrawnTwice(f, id, Partly(a, n - 1), Partly(a, n));
      }
    }
  }

  lemma UnwiredDrawn(f: Floor, id: nat, a: Appliance)
    requires FloorOk(f) && id in f.apps && f.apps[id] == Partly(a, 0)
    ensures f.cells == f.cells + map p | p in a.cells :: CellIn(id, Partly(a, 0), p)
  {
    hide CellIn, WellPlaced, CellsOwned;
    assert Drawn(f.cells, id, f.apps[id]);
  }

  /** A full rectangle comes back exactly, under its new id, but for a port that was
    * half placed: what is saved says nothing of it. */
  lemma SwitchRestored(f: Floor, s: SavedSwitch, a: Appliance)
    requires FloorOk(f) && WellPlaced(a) && FullRectangle(a) && SavesSwitch(s, a) && a.cells !! f.cells.Keys
    ensures var g := RestoreSwitch(f, s);
            && FloorOk(g) && g.apps == f.apps[f.nextId := Settled(a)] && g.nextId == f.nextId + 1
            && g.cells == f.cells + map p | p in a.cells :: CellIn(f.nextId, Settled(a), p)
  {
    hide FloorOk, CellIn, FullRectangle, LaneAt, CreateSwitch, Rewire, MinCol, MinRow, MaxCol, MaxRow, EdgeDir, LanesApart, LanesOnEdges;
    var b := Settled(a);
    CreatesExactly(f, s, a);
    var g, id := Install(f, b.cells), f.nextId;
    InstallKeeps(f, b.cells);
    assert b.lanes[..0] == [] && b.lanes[..|b.lanes|] == b.lanes;
    RewireRestores(g, id, b, |b.lanes|);
    assert Partly(b, |b.lanes|) == b;
    assert f.apps[id := Partly(b, 0)][id := b] == f.apps[id := b];
    assert g.cells + (map p | p in b.cells :: CellIn(id, b, p)) == f.cells + map p | p in b.cells :: CellIn(id, b, p);
  }

  // ---- the whole floor ---------------------------------------------------------------------------------

  /** The machines alone. */
  function MachinesOf(machines: seq<SavedMachine>): map<Pos, Cell> {
    if machines == [] then map[]
    else MachinesOf(machines[..|machines| - 1])[machines[|machines| - 1].p := Machine(machines[|machines| - 1].config)]
  }

  lemma {:induction false} MachinesAt(machines: seq<SavedMachine>, p: Pos)
    ensures p in MachinesOf(machines) ==> exists i :: 0 <= i < |machines| && machines[i].p == p && MachinesOf(machines)[p] == Machine(machines[i].config)
    ensures (exists i :: 0 <= i < |machines| && machines[i].p == p) ==> p in MachinesOf(machines)
    decreases |machines|
  {
    if machines != [] { MachinesAt(machines[..|machines| - 1], p); }
  }

  lemma {:induction false} MachinesRestored(machines: seq<SavedMachine>)
    requires forall i, j :: 0 <= i < j < |machines| ==> machines[i].p != machines[j].p
    ensures RestoreMachines(BARE, machines) == BARE.(cells := MachinesOf(machines))
    decreases |machines|
  {
    if machines != [] {
      var before, m := machines[..|machines| - 1], machines[|machines| - 1];
      MachinesRestored(before);
      MachinesAt(before, m.p);
    }
  }

  lemma MachinesAgree(machines: seq<SavedMachine>, cells: map<Pos, Cell>, p: Pos)
    requires ListsMachines(machines, cells)
    ensures p in MachinesOf(machines) <==> p in cells && cells[p].Machine?
    ensures p in MachinesOf(machines) ==> MachinesOf(machines)[p] == cells[p]
  {
    hide MachinesOf;
    MachinesAt(machines, p);
  }

  /** What the `j`-th restored switch is. */
  ghost predicate SwitchIs(g: Floor, f: Floor, ids: seq<nat>, j: nat) {
    1 <= j <= |ids| && ids[j - 1] in f.apps && j in g.apps && g.apps[j] == Settled(f.apps[ids[j - 1]])
  }

  /** The floor with its machines and its first `k` switches back. */
  ghost predicate BackTo(g: Floor, f: Floor, ids: seq<nat>, k: nat)
    requires k <= |ids|
  {
    && FloorOk(g) && g.nextId == k + 1
    && (forall j: nat :: j in g.apps <==> 1 <= j <= k)
    && (forall j: nat :: 1 <= j <= k ==> SwitchIs(g, f, ids, j))
    && (forall p :: p in g.cells && !OfAppliance(g.cells[p]) ==> p in f.cells && f.cells[p].Machine? && g.cells[p] == f.cells[p])
    && (forall p :: p in f.cells && f.cells[p].Machine? ==> p in g.cells && g.cells[p] == f.cells[p])
  }

  lemma MachinesBack(f: Floor, machines: seq<SavedMachine>, ids: seq<nat>)
    requires ListsMachines(machines, f.cells)
    ensures BackTo(RestoreMachines(BARE, machines), f, ids, 0)
  {
    hide MachinesOf, RestoreMachines;
    MachinesRestored(machines);
    var g := RestoreMachines(BARE, machines);
    forall p
      ensures p in g.cells <==> p in f.cells && f.cells[p].Machine?
      ensures p in g.cells ==> g.cells[p] == f.cells[p]
    {
      MachinesAgree(machines, f.cells, p);
    }
  }

  /** The next switch's cells are still free. */
  lemma NextIsFree(f: Floor, g: Floor, ids: seq<nat>, k: nat)
    requires FloorOk(f) && k < |ids| && BackTo(g, f, ids, k) && ids[k] in f.apps && forall j :: 0 <= j < k ==> ids[j] != ids[k]
    ensures f.apps[ids[k]].cells !! g.cells.Keys
  {
    hide WellPlaced, CellIn, LaneAt;
    forall p | p in f.apps[ids[k]].cells
      ensures p !in g.cells
    {
      assert Drawn(f.cells, ids[k], f.apps[ids[k]]);
      CellInIs(ids[k], f.apps[ids[k]], p);
      if p in g.cells && OfAppliance(g.cells[p]) {
        var j := g.cells[p].app;
        assert j in g.apps && p in g.apps[j].cells && SwitchIs(g, f, ids, j);
        AppliancesDisjoint(f, ids[j - 1], ids[k]);
      }
    }
  }

  lemma PlacedApp(f: Floor, id: nat)
    requires FloorOk(f) && id in f.apps
    ensures WellPlaced(f.apps[id])
  {
    hide WellPlaced, Drawn;
  }

  lemma OneMoreBack(f: Floor, g: Floor, s: SavedSwitch, ids: seq<nat>, k: nat)
    requires FloorOk(f) && k < |ids| && BackTo(g, f, ids, k) && ids[k] in f.apps && forall j :: 0 <= j < k ==> ids[j] != ids[k]
    requires SavesSwitch(s, f.apps[ids[k]]) && FullRectangle(f.apps[ids[k]])
    ensures BackTo(RestoreSwitch(g, s), f, ids, k + 1)
  {
    hide FloorOk, WellPlaced, CellIn, RestoreSwitch, FullRectangle, SavesSwitch;
    var a := f.apps[ids[k]];
    PlacedApp(f, ids[k]);
    NextIsFree(f, g, ids, k);
    SwitchRestored(g, s, a);
    var h := RestoreSwitch(g, s);
    forall p | p in a.cells
      ensures p in h.cells && OfAppliance(h.cells[p])
    {
      CellInIs(g.nextId, Settled(a), p);
    }
    forall j: nat | 1 <= j <= k + 1
      ensures SwitchIs(h, f, ids, j)
    {
      assert j <= k ==> SwitchIs(g, f, ids, j);
    }
  }

  lemma {:induction false} SwitchesBack(f: Floor, g: Floor, switches: seq<SavedSwitch>, ids: seq<nat>, k: nat)
    requires FloorOk(f) && ListsSwitches(switches, f.apps, ids) && k <= |switches| && BackTo(g, f, ids, 0)
    requires forall id :: id in f.apps ==> FullRectangle(f.apps[id])
    ensures BackTo(RestoreSwitches(g, switches[..k]), f, ids, k)
    decreases k
  {
    hide BackTo, FloorOk, RestoreSwitch, FullRectangle, SavesSwitch;
    if k > 0 {
      SwitchesBack(f, g, switches, ids, k - 1);
      assert switches[..k][..k - 1] == switches[..k - 1];
      OneMoreBack(f, RestoreSwitches(g, switches[..k - 1]), switches[k - 1], ids, k - 1);
    }
  }

  /** Saving and restoring gives the same floor of machines: every single-cell machine
    * where it was and as it was, and every switch with its cells, its ports and their
    * numbers and directions, renumbered in the order saved; provided each switch is a
    * full rectangle. A port half placed is forgotten. */
  lemma SaveThenRestore(f: Floor, s: Saved, ids: seq<nat>)
    requires FloorOk(f) && Saves(s, f, ids)
    requires forall id :: id in f.apps ==> FullRectangle(f.apps[id])
    ensures var g := Restore(s);
            && (forall p :: p in f.cells && f.cells[p].Machine? <==> p in g.cells && g.cells[p].Machine?)
            && (forall p :: p in g.cells && g.cells[p].Machine? ==> g.cells[p] == f.cells[p])
            && (forall j :: j in g.apps <==> 1 <= j <= |ids|)
            && (forall k :: 0 <= k < |ids| ==> ids[k] in f.apps && g.apps[k + 1] == Settled(f.apps[ids[k]]))
            && (forall id :: id in f.apps ==> id in ids)
            && FloorOk(g) && forall p :: p in g.cells ==> g.cells[p].Machine? || OfAppliance(g.cells[p])
  {
    hide FloorOk, RestoreSwitches, RestoreMachines, FullRectangle, SavesSwitch, Settled;
    var m := RestoreMachines(BARE, s.machines);
    MachinesBack(f, s.machines, ids);
    SwitchesBack(f, m, s.switches, ids, |s.switches|);
    assert s.switches[..|s.switches|] == s.switches;
    var g := Restore(s);
    forall k | 0 <= k < |ids|
      ensures ids[k] in f.apps && g.apps[k + 1] == Settled(f.apps[ids[k]])
    {
      assert SwitchIs(g, f, ids, k + 1);
    }
  }

  // ---- what cannot come back ------------------------------------------------------------------------------

  /** What a restore builds: switches in full rectangles, and no hosts yet. */
  ghost predicate Boxes(f: Floor) {
    && (forall p :: p in f.cells ==> !OfHost(f.cells[p]))
    && (forall id :: id in f.apps ==> FullRectangle(f.apps[id]))
  }

  lemma {:induction false} RemoveAllBoxes(f: Floor, ps: seq<Pos>)
    requires Boxes(f)
    ensures Boxes(RemoveAll(f, ps)) && RemoveAll(f, ps).nextId == f.nextId
    decreases |ps|
  {
    hide FullRectangle;
    if ps != [] {
      RemoveAllBoxes(f, ps[..|ps| - 1]);
    }
  }

  lemma CreateSwitchBoxes(f: Floor, c0: int, r0: int, c1: int, r1: int)
    requires Boxes(f)
    ensures Boxes(CreateSwitch(f, c0, r0, c1, r1))
  {
    hide FullRectangle, RemoveAll;
    var cells := Footprint(f, c0, r0, c1, r1);
    if |cells| >= 2 {
      RemoveAllBoxes(f, Rect(c0, r0, c1, r1));
      FootprintFull(f, c0, r0, c1, r1);
    }
  }

  lemma FootprintFull(f: Floor, c0: int, r0: int, c1: int, r1: int)
    requires Boxes(f) && |Footprint(f, c0, r0, c1, r1)| >= 2
    ensures FullRectangle(Appliance(Footprint(f, c0, r0, c1, r1), [], None))
  {
    hide FullRectangle;
    var cells := Footprint(f, c0, r0, c1, r1);
    assert cells != {};
    var p :| p in cells;
    assert Fills(cells, Max(0, Min(c0, c1)), Max(0, Min(r0, r1)), Min(COLS - 1, Max(c0, c1)), Min(ROWS - 1, Max(r0, r1)));
    FilledIsFull(Appliance(cells, [], None), Max(0, Min(c0, c1)), Max(0, Min(r0, r1)), Min(COLS - 1, Max(c0, c1)), Min(ROWS - 1, Max(r0, r1)));
  }

  lemma FilledIsFull(a: Appliance, c0: int, r0: int, c1: int, r1: int)
    requires |a.cells| >= 2 && Fills(a.cells, c0, r0, c1, r1)
    ensures FullRectangle(a)
  {
  }

  lemma {:induction false} DrawLanesBoxes(cells: map<Pos, Cell>, id: nat, lanes: seq<Lane>, from: nat)
    requires from <= |lanes| && forall p :: p in cells ==> !OfHost(cells[p])
    ensures forall p :: p in DrawLanes(cells, id, lanes, from) ==> !OfHost(DrawLanes(cells, id, lanes, from)[p])
    decreases |lanes| - from
  {
    if from < |lanes| {
      DrawLanesBoxes(cells[lanes[from].inAt := LaneIn(id, from)][lanes[from].outAt := LaneOut(id, from, lanes[from].outDir)], id, lanes, from + 1);
    }
  }

  lemma SameRectangle(a: Appliance, b: Appliance)
    requires FullRectangle(a) && b.cells == a.cells
    ensures FullRectangle(b)
  {
  }

  lemma TogglePortBoxes(f: Floor, id: nat, p: Pos)
    requires Boxes(f)
    ensures Boxes(TogglePort(f, id, p))
  {
    hide FullRectangle, LaneAt, EdgeDir, DrawLanes;
    if id in f.apps {
      var a, g := f.apps[id], TogglePort(f, id, p);
      var i := LaneAt(a.lanes, p);
      if i < |a.lanes| {
        DrawLanesBoxes(f.cells[a.lanes[i].inAt := Body(id)][a.lanes[i].outAt := Body(id)], id, a.lanes[..i] + a.lanes[i + 1..], 0);
      }
      SameRectangle(a, g.apps[id]);
    }
  }

  lemma {:induction false} RewireBoxes(f: Floor, id: nat, lanes: seq<SavedLane>)
    requires Boxes(f)
    ensures Boxes(Rewire(f, id, lanes))
    decreases |lanes|
  {
    hide Boxes, TogglePort;
    if lanes != [] {
      var before, l := Rewire(f, id, lanes[..|lanes| - 1]), lanes[|lanes| - 1];
      RewireBoxes(f, id, lanes[..|lanes| - 1]);
      TogglePortBoxes(before, id, l.inAt);
      TogglePortBoxes(TogglePort(before, id, l.inAt), id, l.outAt);
    }
  }

  lemma {:induction false} RestoreSwitchesBoxes(f: Floor, switches: seq<SavedSwitch>)
    requires Boxes(f)
    ensures Boxes(RestoreSwitches(f, switches))
    decreases |switches|
  {
    hide Boxes, CreateSwitch, Rewire, MinCol, MinRow, MaxCol, MaxRow;
    if switches != [] {
      var before, s := RestoreSwitches(f, switches[..|switches| - 1]), switches[|switches| - 1];
      RestoreSwitchesBoxes(f, switches[..|switches| - 1]);
      if s.cells != [] {
        CreateSwitchBoxes(before, MinCol(s.cells), MinRow(s.cells), MaxCol(s.cells), MaxRow(s.cells));
        RewireBoxes(CreateSwitch(before, MinCol(s.cells), MinRow(s.cells), MaxCol(s.cells), MaxRow(s.cells)), before.nextId, s.lanes);
      }
    }
  }

  lemma MachinesBoxes(f: Floor, s: Saved, ids: seq<nat>)
    requires Saves(s, f, ids)
    ensures Boxes(RestoreMachines(BARE, s.machines))
  {
    hide MachinesOf, RestoreMachines, ListsSwitches;
    MachinesRestored(s.machines);
    forall p
      ensures p in MachinesOf(s.machines) ==> !OfHost(MachinesOf(s.machines)[p])
    {
      MachinesAt(s.machines, p);
    }
  }

  /** Every switch saved is back on floor `g`, and as it was on `f`. */
  ghost predicate AllBack(f: Floor, g: Floor, ids: seq<nat>) {
    forall k :: 0 <= k < |ids| ==> ids[k] in f.apps && k + 1 in g.apps && g.apps[k + 1] == f.apps[ids[k]]
  }

  /** Every switch comes back as it was exactly when each is a full rectangle and none
    * has a port half placed. A switch laid around a host comes back without the gap. */
  lemma SwitchesComeBackIff(f: Floor, s: Saved, ids: seq<nat>)
    requires FloorOk(f) && Saves(s, f, ids)
    ensures var g := Restore(s);
            AllBack(f, g, ids) <==> forall id :: id in f.apps ==> FullRectangle(f.apps[id]) && f.apps[id].pending.None?
  {
    hide FloorOk, Restore, FullRectangle, SavesSwitch;
    if AllBack(f, Restore(s), ids) {
      RestoredBoxes(f, s, ids);
      forall id | id in f.apps
        ensures FullRectangle(f.apps[id])
      {
        BackIsFull(f, Restore(s), ids, id);
      }
      SaveThenRestore(f, s, ids);
      forall id | id in f.apps
        ensures f.apps[id].pending.None?
      {
        var k :| 0 <= k < |ids| && ids[k] == id;
        assert Restore(s).apps[k + 1] == Settled(f.apps[ids[k]]);
      }
    }
    if forall id :: id in f.apps ==> FullRectangle(f.apps[id]) && f.apps[id].pending.None? {
      SaveThenRestore(f, s, ids);
      forall k | 0 <= k < |ids|
        ensures ids[k] in f.apps && k + 1 in Restore(s).apps && Restore(s).apps[k + 1] == f.apps[ids[k]]
      {
        assert Restore(s).apps[k + 1] == Settled(f.apps[ids[k]]);
      }
    }
  }

  lemma BackIsFull(f: Floor, g: Floor, ids: seq<nat>, id: nat)
    requires AllBack(f, g, ids) && id in ids && id in f.apps && forall j :: j in g.apps ==> FullRectangle(g.apps[j])
    ensures FullRectangle(f.apps[id])
  {
    hide FullRectangle;
    var k :| 0 <= k < |ids| && ids[k] == id;
    assert g.apps[k + 1] == f.apps[id];
  }

  lemma RestoredBoxes(f: Floor, s: Saved, ids: seq<nat>)
    requires Saves(s, f, ids)
    ensures forall id :: id in Restore(s).apps ==> FullRectangle(Restore(s).apps[id])
  {
    hide FullRectangle, Saves, RestoreSwitches, RestoreMachines;
    MachinesBoxes(f, s, ids);
    RestoreSwitchesBoxes(RestoreMachines(BARE, s.machines), s.switches);
  }

  // ---- floors that do not come back -------------------------------------------------------------------------

  /** One click on a corner of a two by two switch. */
  const HALF_PLACED: seq<Edit> := [Switch(2, 2, 3, 3), Click(1, Pos(2, 2))]

  /** A host, and then a three by one switch laid across its roost. */
  const AROUND_A_HOST: seq<Edit> := [HostIn(Pos(3, 0), Pos(5, 0), 7, 1), Switch(2, 0, 4, 0)]

  lemma HalfPlacedIs()
    ensures 1 in Built(HALF_PLACED).apps && Built(HALF_PLACED).apps[1].pending == Some(Pos(2, 2))
  {
    hide Built;
    SquareBuilt();
    BuiltMore([Switch(2, 2, 3, 3)], Click(1, Pos(2, 2)));
    assert HALF_PLACED == [Switch(2, 2, 3, 3)] + [Click(1, Pos(2, 2))];
  }

  lemma SquareBuilt()
    ensures var f, cells := Built([Switch(2, 2, 3, 3)]), Footprint(BARE, 2, 2, 3, 3);
            && f == Install(BARE, cells) && Pos(2, 2) in cells && Pos(2, 1) !in cells
  {
    hide Rect, RemoveAll, Install;
    var rect := Rect(2, 2, 3, 3);
    NothingToRemove(BARE, rect);
    var cells := Footprint(BARE, 2, 2, 3, 3);
    assert Pos(2, 2) in cells && Pos(2, 3) in cells && Pos(2, 1) !in cells;
    SubsetSize({Pos(2, 2), Pos(2, 3)}, cells);
    BuiltMore([], Switch(2, 2, 3, 3));
    assert [] + [Switch(2, 2, 3, 3)] == [Switch(2, 2, 3, 3)];
  }

  /** That floor, however it is written down, does not come back as it was. */
  lemma HalfPlacedIsLost(s: Saved, ids: seq<nat>)
    requires Saves(s, Built(HALF_PLACED), ids)
    ensures !AllBack(Built(HALF_PLACED), Restore(s), ids)
  {
    hide FloorOk, AllBack, FullRectangle, Built, Restore, Saves;
    HalfPlacedIs();
    FloorStaysOk(HALF_PLACED);
    SwitchesComeBackIff(Built(HALF_PLACED), s, ids);
  }

  lemma AroundAHostIs()
    ensures 1 in Built(AROUND_A_HOST).apps && Built(AROUND_A_HOST).apps[1].cells == {Pos(2, 0), Pos(4, 0)}
  {
    hide Rect, RemoveAll;
    var host := [HostIn(Pos(3, 0), Pos(5, 0), 7, 1)];
    BuiltMore([], host[0]);
    assert host == [] + [host[0]];
    var f := Built(host);
    assert f == PlaceHost(BARE, Pos(3, 0), Pos(5, 0), 7, 1);
    FloorStaysOk(host);
    var cells := Footprint(f, 2, 0, 4, 0);
    assert cells == {Pos(2, 0), Pos(4, 0)};
    RemoveAllKeeps(f, Rect(2, 0, 4, 0));
    BuiltMore(host, Switch(2, 0, 4, 0));
    assert AROUND_A_HOST == host + [Switch(2, 0, 4, 0)];
  }

  lemma GapIsNoRectangle(a: Appliance)
    requires a.cells == {Pos(2, 0), Pos(4, 0)}
    ensures !FullRectangle(a)
  {
    forall c0, r0, c1, r1
      ensures !Fills(a.cells, c0, r0, c1, r1)
    {
      assert Pos(2, 0) in a.cells && Pos(4, 0) in a.cells && Pos(3, 0) !in a.cells;
    }
  }

  /** Nor does that one: the switch would come back without the gap. */
  lemma AroundAHostIsLost(s: Saved, ids: seq<nat>)
    requires Saves(s, Built(AROUND_A_HOST), ids)
    ensures !AllBack(Built(AROUND_A_HOST), Restore(s), ids)
  {
    hide FloorOk, AllBack, FullRectangle, Built, Restore, Saves;
    AroundAHostIs();
    GapIsNoRectangle(Built(AROUND_A_HOST).apps[1]);
    FloorStaysOk(AROUND_A_HOST);
    SwitchesComeBackIff(Built(AROUND_A_HOST), s, ids);
  }
}
