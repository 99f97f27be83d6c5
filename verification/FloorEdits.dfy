/** Every edit of the floor keeps its cells, its appliances and their ports agreed. */
module FloorEdits {
  import opened Basics
  import opened FloorPlan

  // ---- removing -------------------------------------------------------------------------

  /** A cell that no appliance shows is in no appliance. */
  lemma NotOwned(f: Floor, p: Pos, id: nat)
    requires FloorOk(f) && id in f.apps && (p in f.cells ==> !OfAppliance(f.cells[p]))
    ensures p !in f.apps[id].cells
  {
    hide WellPlaced, LaneAt;
    assert Drawn(f.cells, id, f.apps[id]);
  }

  /** Live appliances share no cell. */
  lemma AppliancesDisjoint(f: Floor, a: nat, b: nat)
    requires FloorOk(f) && a in f.apps && b in f.apps && a != b
    ensures f.apps[a].cells !! f.apps[b].cells
  {
    hide WellPlaced, LaneAt;
    forall p | p in f.apps[a].cells
      ensures p !in f.apps[b].cells
    {
      assert Drawn(f.cells, a, f.apps[a]) && Drawn(f.cells, b, f.apps[b]);
    }
  }

  lemma RemoveApplianceKeeps(f: Floor, id: nat)
    requires FloorOk(f)
    ensures FloorOk(RemoveAppliance(f, id))
  {
    hide WellPlaced, CellIn;
    if id in f.apps {
      var g := RemoveAppliance(f, id);
      forall k | k in g.apps
        ensures Drawn(g.cells, k, g.apps[k])
      {
        AppliancesDisjoint(f, id, k);
        assert Drawn(f.cells, k, f.apps[k]);
      }
      OwnersLeft(f, id);
    }
  }

  lemma OwnersLeft(f: Floor, id: nat)
    requires FloorOk(f) && id in f.apps
    ensures CellsOwned(f.cells - f.apps[id].cells, f.apps - {id})
  {
    hide AppsOk;
  }

  /** The cell goes, if it is no appliance's. */
  lemma LessKeeps(f: Floor, p: Pos)
    requires FloorOk(f) && (p in f.cells ==> !OfAppliance(f.cells[p]))
    ensures FloorOk(f.(cells := f.cells - {p}))
  {
    hide WellPlaced, CellIn;
    forall id | id in f.apps
      ensures Drawn(f.cells - {p}, id, f.apps[id])
    {
      NotOwned(f, p, id);
      assert Drawn(f.cells, id, f.apps[id]);
    }
  }

  /** The cell changes, to something that is no appliance's either. */
  lemma PlainKeeps(f: Floor, p: Pos, c: Cell)
    requires FloorOk(f) && (p in f.cells ==> !OfAppliance(f.cells[p])) && !OfAppliance(c)
    ensures FloorOk(f.(cells := f.cells[p := c]))
  {
    hide WellPlaced, CellIn;
    forall id | id in f.apps
      ensures Drawn(f.cells[p := c], id, f.apps[id])
    {
      NotOwned(f, p, id);
      assert Drawn(f.cells, id, f.apps[id]);
    }
  }

  lemma RemoveMachineKeeps(f: Floor, p: Pos)
    requires FloorOk(f)
    ensures FloorOk(RemoveMachine(f, p))
    ensures p in RemoveMachine(f, p).cells ==> OfHost(RemoveMachine(f, p).cells[p])
  {
    hide AppsOk, RemoveAppliance;
    if p in f.cells && !OfHost(f.cells[p]) {
      if OfAppliance(f.cells[p]) {
        RemoveApplianceKeeps(f, f.cells[p].app);
        Scrapped(f, p);
      } else {
        LessKeeps(f, p);
      }
    }
  }

  lemma Scrapped(f: Floor, p: Pos)
    requires FloorOk(f) && p in f.cells && OfAppliance(f.cells[p])
    ensures p !in RemoveAppliance(f, f.cells[p].app).cells
  {
    hide AppsOk;
  }

  /** Nothing but what is removed ever changes. */
  lemma RemoveMachineShrinks(f: Floor, p: Pos, q: Pos)
    ensures var g := RemoveMachine(f, p);
            && (q in g.cells ==> q in f.cells && g.cells[q] == f.cells[q])
            && g.nextId == f.nextId
            && (forall id :: id in g.apps ==> id in f.apps && g.apps[id] == f.apps[id])
  {
  }

  lemma SetMachineKeeps(f: Floor, p: Pos, c: Config)
    requires FloorOk(f)
    ensures FloorOk(SetMachine(f, p, c))
  {
    hide FloorOk;
    RemoveMachineKeeps(f, p);
    if !(p in f.cells && OfHost(f.cells[p])) {
      RemoveMachineShrinks(f, p, p);
      PlainKeeps(RemoveMachine(f, p), p, Machine(c));
    }
  }

  lemma PlaceHostKeeps(f: Floor, roost: Pos, landing: Pos, port: nat, facing: nat)
    requires FloorOk(f)
    ensures FloorOk(PlaceHost(f, roost, landing, port, facing))
  {
    hide FloorOk, RemoveMachine;
    var g := RemoveMachine(f, roost);
    RemoveMachineKeeps(f, roost);
    RemoveMachineKeeps(g, landing);
    RemoveMachineShrinks(g, landing, roost);
    var h := RemoveMachine(g, landing);
    PlainKeeps(h, roost, Roost(port, facing));
    PlainKeeps(h.(cells := h.cells[roost := Roost(port, facing)]), landing, Landing(port));
  }

  lemma RemoveHostKeeps(f: Floor, roost: Pos, landing: Pos)
    requires FloorOk(f)
    ensures FloorOk(RemoveHost(f, roost, landing))
  {
    hide FloorOk;
    UnhostKeeps(f, roost);
    UnhostKeeps(Unhost(f, roost), landing);
  }

  lemma UnhostKeeps(f: Floor, p: Pos)
    requires FloorOk(f)
    ensures FloorOk(Unhost(f, p))
  {
    hide FloorOk;
    if p in f.cells && OfHost(f.cells[p]) { LessKeeps(f, p); }
  }

  // ---- switches ------------------------------------------------------------------------------

  lemma {:induction false} RemoveAllKeeps(f: Floor, ps: seq<Pos>)
    requires FloorOk(f)
    ensures FloorOk(RemoveAll(f, ps))
    ensures forall p :: p in ps && p in RemoveAll(f, ps).cells ==> OfHost(RemoveAll(f, ps).cells[p])
    ensures forall q :: q in RemoveAll(f, ps).cells ==> q in f.cells && RemoveAll(f, ps).cells[q] == f.cells[q]
    ensures RemoveAll(f, ps).nextId == f.nextId
    decreases |ps|
  {
    hide FloorOk, RemoveMachine;
    if ps != [] {
      var before, p := ps[..|ps| - 1], ps[|ps| - 1];
      RemoveAllKeeps(f, before);
      RemoveMachineKeeps(RemoveAll(f, before), p);
      forall q
        ensures q in RemoveMachine(RemoveAll(f, before), p).cells ==> q in RemoveAll(f, before).cells && RemoveMachine(RemoveAll(f, before), p).cells[q] == RemoveAll(f, before).cells[q]
      {
        RemoveMachineShrinks(RemoveAll(f, before), p, q);
      }
      RemoveMachineShrinks(RemoveAll(f, before), p, p);
      assert forall q :: q in ps <==> q in before || q == p;
    }
  }

  lemma InstallKeeps(f: Floor, cells: set<Pos>)
    requires FloorOk(f) && cells !! f.cells.Keys
    ensures FloorOk(Install(f, cells))
  {
    hide WellPlaced;
    var g, a := Install(f, cells), Appliance(cells, [], None);
    assert WellPlaced(a) by { EmptyWellPlaced(cells); }
    forall id | id in f.apps
      ensures f.apps[id].cells !! cells && Drawn(g.cells, id, f.apps[id])
    {
      assert Drawn(f.cells, id, f.apps[id]);
    }
    assert f.nextId !in f.apps;
  }

  lemma EmptyWellPlaced(cells: set<Pos>)
    ensures WellPlaced(Appliance(cells, [], None))
  {
  }

  lemma CreateSwitchKeeps(f: Floor, c0: int, r0: int, c1: int, r1: int)
    requires FloorOk(f)
    ensures FloorOk(CreateSwitch(f, c0, r0, c1, r1))
  {
    hide FloorOk, Install, RemoveAll, InRect;
    var g := RemoveAll(f, Rect(c0, r0, c1, r1));
    RemoveAllKeeps(f, Rect(c0, r0, c1, r1));
    InstallKeeps(g, Footprint(f, c0, r0, c1, r1));
  }

  // ---- ports ------------------------------------------------------------------------------------

  /** The appliance drawn afresh from its record. */
  function Redrawn(f: Floor, id: nat, a: Appliance): Floor {
    f.(cells := f.cells + map p | p in a.cells :: CellIn(id, a, p), apps := f.apps[id := a])
  }

  lemma RedrawnKeeps(f: Floor, id: nat, a: Appliance)
    requires FloorOk(f) && id in f.apps && WellPlaced(a) && a.cells == f.apps[id].cells
    ensures FloorOk(Redrawn(f, id, a))
  {
    hide WellPlaced, CellIn, AppsOk;
    OthersDrawn(f, id, a);
    var g := Redrawn(f, id, a);
    forall p | p in g.cells && OfAppliance(g.cells[p])
      ensures g.cells[p].app in g.apps && p in g.apps[g.cells[p].app].cells
    {
      if p in a.cells { CellInIs(id, a, p); }
    }
  }

  lemma CellInIs(id: nat, a: Appliance, p: Pos)
    ensures OfAppliance(CellIn(id, a, p)) && CellIn(id, a, p).app == id
  {
  }

  lemma OthersDrawn(f: Floor, id: nat, a: Appliance)
    requires FloorOk(f) && id in f.apps && WellPlaced(a) && a.cells == f.apps[id].cells
    ensures AppsOk(Redrawn(f, id, a).cells, Redrawn(f, id, a).apps, f.nextId)
  {
    hide WellPlaced, CellIn;
    var g := Redrawn(f, id, a);
    forall k | k in g.apps
      ensures k < f.nextId && WellPlaced(g.apps[k]) && Drawn(g.cells, k, g.apps[k])
    {
      if k != id {
        AppliancesDisjoint(f, id, k);
        assert Drawn(f.cells, k, f.apps[k]);
      }
    }
  }

  /** Where a cell's lane is, when lanes are apart. */
  lemma LaneFound(lanes: seq<Lane>, p: Pos, i: nat)
    requires LanesApart(lanes) && i < |lanes| && (lanes[i].inAt == p || lanes[i].outAt == p)
    ensures LaneAt(lanes, p) == i
  {
    var k := LaneAt(lanes, p);
    assert k <= i;
  }

  lemma LaneNowhere(lanes: seq<Lane>, p: Pos)
    requires forall i :: 0 <= i < |lanes| ==> lanes[i].inAt != p && lanes[i].outAt != p
    ensures LaneAt(lanes, p) == |lanes|
  {
  }

  lemma FirstClick(f: Floor, id: nat, p: Pos)
    requires FloorOk(f) && id in f.apps && p in f.apps[id].cells && EdgeDir(f.apps[id].cells, p).Some?
    requires LaneAt(f.apps[id].lanes, p) == |f.apps[id].lanes| && f.apps[id].pending.None?
    ensures var a := f.apps[id].(pending := Some(p));
            TogglePort(f, id, p) == Redrawn(f, id, a) && WellPlaced(a)
  {
    hide EdgeDir, LaneAt, LanesApart, LanesOnEdges;
    var a := f.apps[id].(pending := Some(p));
    assert Drawn(f.cells, id, f.apps[id]);
    assert TogglePort(f, id, p).cells == Redrawn(f, id, a).cells;
  }

  lemma LaneAppended(lanes: seq<Lane>, l: Lane, x: Pos)
    ensures LaneAt(lanes + [l], x) == if LaneAt(lanes, x) < |lanes| then LaneAt(lanes, x)
                                      else if l.inAt == x || l.outAt == x then |lanes| else |lanes| + 1
  {
    var k, i := LaneAt(lanes + [l], x), LaneAt(lanes, x);
    assert forall j :: 0 <= j < |lanes| ==> (lanes + [l])[j] == lanes[j];
    assert (lanes + [l])[|lanes|] == l;
    if i < |lanes| {
      assert !(i < k);
    } else if l.inAt == x || l.outAt == x {
      assert !(|lanes| < k);
    }
  }

  lemma AppendedApart(lanes: seq<Lane>, l: Lane)
    requires LanesApart(lanes) && l.inAt != l.outAt && LaneAt(lanes, l.inAt) == |lanes| && LaneAt(lanes, l.outAt) == |lanes|
    ensures LanesApart(lanes + [l])
  {
    hide LaneAt;
    assert forall j :: 0 <= j < |lanes| ==> (lanes + [l])[j] == lanes[j];
  }

  /** The record after the second click. */
  function Wired(a: Appliance, p: Pos): Appliance
    requires a.pending.Some? && EdgeDir(a.cells, p).Some?
  {
    a.(lanes := a.lanes + [Lane(a.pending.value, p, EdgeDir(a.cells, p).value)], pending := None)
  }

  lemma WiredPlaced(a: Appliance, p: Pos)
    requires WellPlaced(a) && a.pending.Some? && a.pending.value != p && p in a.cells && EdgeDir(a.cells, p).Some? && LaneAt(a.lanes, p) == |a.lanes|
    ensures WellPlaced(Wired(a, p))
  {
    hide EdgeDir, LaneAt, LanesApart;
    AppendedApart(a.lanes, Lane(a.pending.value, p, EdgeDir(a.cells, p).value));
  }

  lemma WiredCell(id: nat, a: Appliance, p: Pos, x: Pos)
    requires WellPlaced(a) && a.pending.Some? && a.pending.value != p && EdgeDir(a.cells, p).Some? && LaneAt(a.lanes, p) == |a.lanes|
    ensures CellIn(id, Wired(a, p), x) == if x == p then LaneOut(id, |a.lanes|, EdgeDir(a.cells, p).value)
                                          else if x == a.pending.value then LaneIn(id, |a.lanes|)
                                          else CellIn(id, a, x)
  {
    hide EdgeDir, LaneAt, LanesApart, LanesOnEdges;
    LaneAppended(a.lanes, Lane(a.pending.value, p, EdgeDir(a.cells, p).value), x);
  }

  lemma SecondClick(f: Floor, id: nat, p: Pos)
    requires FloorOk(f) && id in f.apps && p in f.apps[id].cells && EdgeDir(f.apps[id].cells, p).Some?
    requires LaneAt(f.apps[id].lanes, p) == |f.apps[id].lanes| && f.apps[id].pending.Some? && f.apps[id].pending.value != p
    ensures var b := Wired(f.apps[id], p);
            TogglePort(f, id, p) == Redrawn(f, id, b) && WellPlaced(b)
  {
    hide EdgeDir, LaneAt, LanesApart, LanesOnEdges, CellsOwned, CellIn;
    var a := f.apps[id];
    WiredPlaced(a, p);
    assert Drawn(f.cells, id, a);
    forall x | x in a.cells
      ensures TogglePort(f, id, p).cells[x] == CellIn(id, Wired(a, p), x)
    {
      WiredCell(id, a, p, x);
    }
    assert TogglePort(f, id, p).cells == Redrawn(f, id, Wired(a, p)).cells;
  }

  // ---- removing a port renumbers the rest --------------------------------------------------------

  lemma {:induction false} DrawLanesAt(cells: map<Pos, Cell>, id: nat, lanes: seq<Lane>, from: nat, x: Pos)
    requires from <= |lanes| && LanesApart(lanes)
    ensures var i, d := LaneAt(lanes, x), DrawLanes(cells, id, lanes, from);
            && (i < |lanes| && i >= from ==> x in d && d[x] == if lanes[i].inAt == x then LaneIn(id, i) else LaneOut(id, i, lanes[i].outDir))
            && (!(i < |lanes| && i >= from) ==> (x in d <==> x in cells) && (x in cells ==> d[x] == cells[x]))
    decreases |lanes| - from
  {
    hide LaneAt, LanesApart;
    if from < |lanes| {
      var l := lanes[from];
      var next := cells[l.inAt := LaneIn(id, from)][l.outAt := LaneOut(id, from, l.outDir)];
      DrawLanesAt(next, id, lanes, from + 1, x);
      if l.inAt == x || l.outAt == x { LaneFound(lanes, x, from); }
      LaneEnds(lanes, from);
    }
  }

  lemma LaneEnds(lanes: seq<Lane>, i: nat)
    requires LanesApart(lanes) && i < |lanes|
    ensures lanes[i].inAt != lanes[i].outAt
  {
  }

  function Dropped(lanes: seq<Lane>, i: nat): seq<Lane>
    requires i < |lanes|
  {
    lanes[..i] + lanes[i + 1..]
  }

  lemma DroppedIndex(lanes: seq<Lane>, i: nat, j: nat)
    requires i < |lanes| && j < |lanes| - 1
    ensures Dropped(lanes, i)[j] == lanes[if j < i then j else j + 1]
  {
  }

  lemma DroppedApart(lanes: seq<Lane>, i: nat)
    requires LanesApart(lanes) && i < |lanes|
    ensures LanesApart(Dropped(lanes, i))
  {
    hide Dropped;
    var rest := Dropped(lanes, i);
    assert |rest| == |lanes| - 1 by { DroppedSize(lanes, i); }
    forall j: nat | j < |rest|
      ensures rest[j] == lanes[if j < i then j else j + 1]
    {
      DroppedIndex(lanes, i, j);
    }
  }

  lemma DroppedSize(lanes: seq<Lane>, i: nat)
    requires i < |lanes|
    ensures |Dropped(lanes, i)| == |lanes| - 1
  {
  }

  /** A cell of no other lane is in none of the rest. */
  lemma DroppedAway(lanes: seq<Lane>, i: nat, x: Pos)
    requires LanesApart(lanes) && i < |lanes| && (LaneAt(lanes, x) == |lanes| || lanes[i].inAt == x || lanes[i].outAt == x)
    ensures |Dropped(lanes, i)| == |lanes| - 1 && LaneAt(Dropped(lanes, i), x) == |lanes| - 1
  {
    hide Dropped, LaneAt;
    var rest := Dropped(lanes, i);
    DroppedSize(lanes, i);
    forall j: nat | j < |rest|
      ensures rest[j].inAt != x && rest[j].outAt != x
    {
      DroppedIndex(lanes, i, j);
    }
    LaneNowhere(rest, x);
  }

  /** A cell in none of the rest was in the lane removed, or in no lane at all. */
  lemma DroppedBack(lanes: seq<Lane>, i: nat, x: Pos)
    requires i < |lanes| && LaneAt(Dropped(lanes, i), x) == |lanes| - 1
    ensures LaneAt(lanes, x) == |lanes| || lanes[i].inAt == x || lanes[i].outAt == x
  {
    hide Dropped, LaneAt;
    DroppedSize(lanes, i);
    if lanes[i].inAt != x && lanes[i].outAt != x {
      forall j: nat | j < |lanes| && j != i
        ensures lanes[j].inAt != x && lanes[j].outAt != x
      {
        DroppedIndex(lanes, i, if j < i then j else j - 1);
      }
      LaneNowhere(lanes, x);
    }
  }

  lemma DroppedAt(lanes: seq<Lane>, i: nat, x: Pos)
    requires LanesApart(lanes) && i < |lanes|
    ensures LanesApart(Dropped(lanes, i)) && |Dropped(lanes, i)| == |lanes| - 1
    ensures LaneAt(Dropped(lanes, i), x) == |lanes| - 1 <==> LaneAt(lanes, x) == |lanes| || lanes[i].inAt == x || lanes[i].outAt == x
  {
    hide LaneAt, LanesApart, Dropped;
    DroppedApart(lanes, i);
    DroppedSize(lanes, i);
    if LaneAt(lanes, x) == |lanes| || lanes[i].inAt == x || lanes[i].outAt == x { DroppedAway(lanes, i, x); }
    if LaneAt(Dropped(lanes, i), x) == |lanes| - 1 { DroppedBack(lanes, i, x); }
  }

  lemma DroppedPlaced(a: Appliance, i: nat)
    requires WellPlaced(a) && i < |a.lanes|
    ensures WellPlaced(a.(lanes := Dropped(a.lanes, i)))
  {
    hide LaneAt, EdgeDir;
    var rest := Dropped(a.lanes, i);
    assert forall j :: 0 <= j < |rest| ==> rest[j] == a.lanes[if j < i then j else j + 1];
    if a.pending.Some? { DroppedAt(a.lanes, i, a.pending.value); } else { DroppedAt(a.lanes, i, Pos(0, 0)); }
  }

  lemma RemovedCell(f: Floor, id: nat, i: nat, x: Pos)
    requires FloorOk(f) && id in f.apps && i < |f.apps[id].lanes| && x in f.apps[id].cells
    ensures var a := f.apps[id];
            x in RemoveLane(f, id, i).cells && RemoveLane(f, id, i).cells[x] == CellIn(id, a.(lanes := Dropped(a.lanes, i)), x)
  {
    hide LaneAt, LanesApart, LanesOnEdges, EdgeDir, DrawLanes;
    var a := f.apps[id];
    assert WellPlaced(a) && Drawn(f.cells, id, a);
    DroppedAt(a.lanes, i, x);
    var cells := f.cells[a.lanes[i].inAt := Body(id)][a.lanes[i].outAt := Body(id)];
    DrawLanesAt(cells, id, Dropped(a.lanes, i), 0, x);
    if a.pending.Some? { DroppedAt(a.lanes, i, a.pending.value); }
  }

  lemma LanesInside(a: Appliance, x: Pos)
    requires LanesOnEdges(a.cells, a.lanes) && x !in a.cells
    ensures LaneAt(a.lanes, x) == |a.lanes| && forall i :: 0 <= i < |a.lanes| ==> a.lanes[i].inAt != x && a.lanes[i].outAt != x
  {
    hide EdgeDir, LaneAt;
    LaneNowhere(a.lanes, x);
  }

  lemma RemovedElsewhere(f: Floor, id: nat, i: nat, x: Pos)
    requires FloorOk(f) && id in f.apps && i < |f.apps[id].lanes| && x !in f.apps[id].cells
    ensures var g := RemoveLane(f, id, i); (x in g.cells <==> x in f.cells) && (x in f.cells ==> g.cells[x] == f.cells[x])
  {
    hide LaneAt, LanesApart, LanesOnEdges, EdgeDir, DrawLanes, CellsOwned, Drawn;
    var a := f.apps[id];
    assert WellPlaced(a);
    LanesInside(a, x);
    DroppedAt(a.lanes, i, x);
    DrawLanesAt(f.cells[a.lanes[i].inAt := Body(id)][a.lanes[i].outAt := Body(id)], id, Dropped(a.lanes, i), 0, x);
  }

  lemma RemovedIsRedrawn(f: Floor, id: nat, i: nat)
    requires FloorOk(f) && id in f.apps && i < |f.apps[id].lanes|
    ensures var b := f.apps[id].(lanes := Dropped(f.apps[id].lanes, i));
            RemoveLane(f, id, i) == Redrawn(f, id, b) && WellPlaced(b)
  {
    hide WellPlaced, CellIn, CellsOwned;
    var a := f.apps[id];
    var b := a.(lanes := Dropped(a.lanes, i));
    DroppedPlaced(a, i);
    var g, h := RemoveLane(f, id, i), Redrawn(f, id, b);
    assert Drawn(f.cells, id, a);
    forall x
      ensures (x in g.cells <==> x in h.cells) && (x in g.cells ==> g.cells[x] == h.cells[x])
    {
      if x in a.cells { RemovedCell(f, id, i, x); } else { RemovedElsewhere(f, id, i, x); }
    }
    assert g.cells == h.cells;
  }

  /** Every click on a switch keeps the floor in order: the first, the second, and one
    * that removes a port. */
  lemma TogglePortKeeps(f: Floor, id: nat, p: Pos)
    requires FloorOk(f)
    ensures FloorOk(TogglePort(f, id, p))
  {
    hide WellPlaced, CellIn, FloorOk, EdgeDir, LaneAt;
    if id in f.apps && p in f.apps[id].cells && EdgeDir(f.apps[id].cells, p).Some? {
      var a := f.apps[id];
      var i := LaneAt(a.lanes, p);
      if i < |a.lanes| {
        RemovedIsRedrawn(f, id, i);
        RedrawnKeeps(f, id, a.(lanes := Dropped(a.lanes, i)));
      } else if a.pending.None? {
        FirstClick(f, id, p);
        RedrawnKeeps(f, id, a.(pending := Some(p)));
      } else if a.pending.value != p {
        SecondClick(f, id, p);
        RedrawnKeeps(f, id, Wired(a, p));
      }
    }
  }

  // ---- any sequence of edits --------------------------------------------------------------------------

  datatype Edit =
    | Set(p: Pos, config: Config)
    | Erase(p: Pos)
    | Switch(c0: int, r0: int, c1: int, r1: int)
    | Click(app: nat, p: Pos)
    | HostIn(roost: Pos, landing: Pos, port: nat, facing: nat)
    | HostOut(roost: Pos, landing: Pos)

  function Apply(f: Floor, e: Edit): Floor {
    match e
    case Set(p, c) => SetMachine(f, p, c)
    case Erase(p) => RemoveMachine(f, p)
    case Switch(c0, r0, c1, r1) => CreateSwitch(f, c0, r0, c1, r1)
    case Click(id, p) => TogglePort(f, id, p)
    case HostIn(roost, landing, port, facing) => PlaceHost(f, roost, landing, port, facing)
    case HostOut(roost, landing) => RemoveHost(f, roost, landing)
  }

  function Built(edits: seq<Edit>): Floor {
    if edits == [] then BARE else Apply(Built(edits[..|edits| - 1]), edits[|edits| - 1])
  }

  lemma BuiltMore(edits: seq<Edit>, e: Edit)
    ensures Built(edits + [e]) == Apply(Built(edits), e)
  {
    assert (edits + [e])[..|edits|] == edits;
  }

  lemma ApplyKeeps(f: Floor, e: Edit)
    requires FloorOk(f)
    ensures FloorOk(Apply(f, e))
  {
    hide FloorOk, SetMachine, RemoveMachine, CreateSwitch, TogglePort, PlaceHost, RemoveHost, Footprint;
    match e
    case Set(p, c) => SetMachineKeeps(f, p, c);
    case Erase(p) => RemoveMachineKeeps(f, p);
    case Switch(c0, r0, c1, r1) => CreateSwitchKeeps(f, c0, r0, c1, r1);
    case Click(id, p) => TogglePortKeeps(f, id, p);
    case HostIn(roost, landing, port, facing) => PlaceHostKeeps(f, roost, landing, port, facing);
    case HostOut(roost, landing) => RemoveHostKeeps(f, roost, landing);
  }

  lemma {:induction false} FloorStaysOk(edits: seq<Edit>)
    ensures FloorOk(Built(edits))
    decreases |edits|
  {
    hide FloorOk, Apply;
    if edits == [] {
      assert FloorOk(BARE) by { BareOk(); }
    } else {
      FloorStaysOk(edits[..|edits| - 1]);
      ApplyKeeps(Built(edits[..|edits| - 1]), edits[|edits| - 1]);
    }
  }

  lemma BareOk()
    ensures FloorOk(BARE)
  {
  }

  /** A switch is laid on every cell between two opposite corners, given in any order, that
    * is on the twenty-eight by sixteen board and holds no host. */
  lemma FootprintTold(f: Floor, c0: int, r0: int, c1: int, r1: int, p: Pos)
    ensures p in Footprint(f, c0, r0, c1, r1) <==>
              && 0 <= p.col <= 27 && 0 <= p.row <= 15
              && (c0 <= p.col <= c1 || c1 <= p.col <= c0) && (r0 <= p.row <= r1 || r1 <= p.row <= r0)
              && !(p in f.cells && (f.cells[p].Roost? || f.cells[p].Landing?))
  {
  }

  lemma OneRemoved(f: Floor, p: Pos)
    requires FloorOk(f)
    ensures forall id :: id in RemoveMachine(f, p).apps ==> id in f.apps && RemoveMachine(f, p).apps[id] == f.apps[id]
    ensures forall id :: id in f.apps && id !in RemoveMachine(f, p).apps ==> p in f.apps[id].cells
  {
    hide WellPlaced, Drawn;
  }

  /** Clearing cells takes away the switches that have one of them, and no others. */
  lemma {:induction false} AllRemoved(f: Floor, ps: seq<Pos>)
    requires FloorOk(f)
    ensures forall id :: id in RemoveAll(f, ps).apps ==> id in f.apps && RemoveAll(f, ps).apps[id] == f.apps[id]
    ensures forall id :: id in f.apps && id !in RemoveAll(f, ps).apps ==> exists p :: p in ps && p in f.apps[id].cells
    decreases |ps|
  {
    hide FloorOk, RemoveMachine;
    if ps != [] {
      var front, p := ps[..|ps| - 1], ps[|ps| - 1];
      AllRemoved(f, front);
      RemoveAllKeeps(f, front);
      OneRemoved(RemoveAll(f, front), p);
      forall id | id in f.apps && id !in RemoveAll(f, ps).apps
        ensures exists q :: q in ps && q in f.apps[id].cells
      {
        if id in RemoveAll(f, front).apps { assert p in f.apps[id].cells; }
      }
    }
  }

  lemma SwitchCellLaid(f: Floor, c0: int, r0: int, c1: int, r1: int, id: nat, p: Pos)
    requires FloorOk(f) && id in f.apps && p in f.apps[id].cells && p in Rect(c0, r0, c1, r1)
    ensures p in Footprint(f, c0, r0, c1, r1)
  {
    hide WellPlaced, Rect, CellIn;
    assert Drawn(f.cells, id, f.apps[id]);
    CellInIs(id, f.apps[id], p);
  }

  /** With fewer than two such cells nothing is laid; otherwise the switch is those cells,
    * bare of ports, under the next number; the switches that had one of them are gone, and
    * all others stay as they were. */
  lemma LaidSwitchIs(f: Floor, c0: int, r0: int, c1: int, r1: int)
    requires FloorOk(f)
    ensures var cells, g := Footprint(f, c0, r0, c1, r1), CreateSwitch(f, c0, r0, c1, r1);
            if |cells| < 2 then g == f else
              && g.nextId == f.nextId + 1 && f.nextId in g.apps && g.apps[f.nextId] == Appliance(cells, [], None)
              && (forall p :: p in cells ==> p in g.cells && g.cells[p] == Body(f.nextId))
              && (forall id :: id in g.apps && id != f.nextId ==> id in f.apps && g.apps[id] == f.apps[id] && g.apps[id].cells !! cells)
              && (forall id :: id in f.apps && id !in g.apps ==> exists p :: p in cells && p in f.apps[id].cells)
  {
    hide FloorOk, Footprint, RemoveAll;
    var cells := Footprint(f, c0, r0, c1, r1);
    if |cells| >= 2 {
      RemoveAllKeeps(f, Rect(c0, r0, c1, r1));
      AllRemoved(f, Rect(c0, r0, c1, r1));
      CreateSwitchKeeps(f, c0, r0, c1, r1);
      var g := CreateSwitch(f, c0, r0, c1, r1);
      forall id | id in f.apps && id !in g.apps
        ensures exists p :: p in cells && p in f.apps[id].cells
      {
        var p :| p in Rect(c0, r0, c1, r1) && p in f.apps[id].cells;
        SwitchCellLaid(f, c0, r0, c1, r1, id, p);
      }
      forall id | id in g.apps && id != f.nextId
        ensures id in f.apps && g.apps[id] == f.apps[id] && g.apps[id].cells !! cells
      {
        AppliancesDisjoint(g, id, f.nextId);
      }
    }
  }

  // ---- which way ports look ---------------------------------------------------------------

  /** Some neighbour of the cell is not in the switch. */
  predicate OnRim(cells: set<Pos>, p: Pos) {
    || Pos(p.col, p.row - 1) !in cells || Pos(p.col + 1, p.row) !in cells
    || Pos(p.col, p.row + 1) !in cells || Pos(p.col - 1, p.row) !in cells
  }

  /** One step that way leaves the switch, and no way before it in the order north, east,
    * south, west does. East is 0, south 1, west 2 and north 3. */
  predicate LooksOut(cells: set<Pos>, p: Pos, dir: nat) {
    var north, east := Pos(p.col, p.row - 1) !in cells, Pos(p.col + 1, p.row) !in cells;
    var south, west := Pos(p.col, p.row + 1) !in cells, Pos(p.col - 1, p.row) !in cells;
    || (dir == 3 && north)
    || (dir == 0 && east && !north)
    || (dir == 1 && south && !north && !east)
    || (dir == 2 && west && !north && !east && !south)
  }

  lemma EdgeTold(cells: set<Pos>, p: Pos)
    ensures EdgeDir(cells, p).Some? <==> OnRim(cells, p)
    ensures forall d: nat :: EdgeDir(cells, p) == Some(d) <==> LooksOut(cells, p, d)
  {
  }

  /** Every port comes in at the rim and looks out of the switch. */
  predicate LanesLookOut(a: Appliance) {
    && (forall i :: 0 <= i < |a.lanes| ==> a.lanes[i].inAt in a.cells && OnRim(a.cells, a.lanes[i].inAt))
    && (forall i :: 0 <= i < |a.lanes| ==> a.lanes[i].outAt in a.cells && LooksOut(a.cells, a.lanes[i].outAt, a.lanes[i].outDir))
    && (a.pending.Some? ==> a.pending.value in a.cells && OnRim(a.cells, a.pending.value))
  }

  lemma LanesLook(a: Appliance)
    requires WellPlaced(a)
    ensures LanesLookOut(a) && LanesApart(a.lanes)
  {
    hide EdgeDir, LaneAt, LanesApart, OnRim, LooksOut;
    forall i | 0 <= i < |a.lanes|
      ensures OnRim(a.cells, a.lanes[i].inAt) && LooksOut(a.cells, a.lanes[i].outAt, a.lanes[i].outDir)
    {
      EdgeTold(a.cells, a.lanes[i].inAt);
      EdgeTold(a.cells, a.lanes[i].outAt);
    }
    if a.pending.Some? { EdgeTold(a.cells, a.pending.value); }
  }

  /** What a click on cell `p` of a switch does, whatever was there: inside, nothing; on a
    * port, it takes the port out; otherwise the first click is remembered and the second
    * makes a port of the two, looking out from the second. */
  lemma ClickIs(f: Floor, id: nat, p: Pos)
    requires id in f.apps && p in f.apps[id].cells
    ensures var a, g := f.apps[id], TogglePort(f, id, p);
            && (!OnRim(a.cells, p) ==> g == f)
            && id in g.apps && g.apps[id].cells == a.cells && g.apps.Keys == f.apps.Keys && g.nextId == f.nextId
            && (forall k :: k in f.apps && k != id ==> g.apps[k] == f.apps[k])
            && (OnRim(a.cells, p) ==>
                  var b := g.apps[id];
                  if exists i :: 0 <= i < |a.lanes| && (a.lanes[i].inAt == p || a.lanes[i].outAt == p) then
                    b.pending == a.pending && exists i :: 0 <= i < |a.lanes| && (a.lanes[i].inAt == p || a.lanes[i].outAt == p) && b.lanes == a.lanes[..i] + a.lanes[i + 1..]
                  else if a.pending == None then b == a.(pending := Some(p))
                  else if a.pending == Some(p) then b == a
                  else b.pending == None && exists d :: LooksOut(a.cells, p, d) && b.lanes == a.lanes + [Lane(a.pending.value, p, d)])
  {
    hide EdgeDir, DrawLanes;
    var a, i := f.apps[id], LaneAt(f.apps[id].lanes, p);
    EdgeTold(a.cells, p);
    if OnRim(a.cells, p) && i == |a.lanes| {
      assert !exists k :: 0 <= k < |a.lanes| && (a.lanes[k].inAt == p || a.lanes[k].outAt == p);
      assert LooksOut(a.cells, p, EdgeDir(a.cells, p).value);
    }
  }

  /** After any edits: switches share no cells, every switch cell on the floor belongs
    * to a live switch, and each of a switch's cells shows exactly the port, lane and
    * number its record gives it. */
  lemma FloorAgrees(edits: seq<Edit>)
    ensures var f := Built(edits);
            && (forall a, b :: a in f.apps && b in f.apps && a != b ==> f.apps[a].cells !! f.apps[b].cells)
            && (forall p :: p in f.cells && OfAppliance(f.cells[p]) <==> exists id :: id in f.apps && p in f.apps[id].cells)
            && (forall id, p :: id in f.apps && p in f.apps[id].cells ==> p in f.cells && f.cells[p] == CellIn(id, f.apps[id], p))
            && (forall id :: id in f.apps ==> LanesApart(f.apps[id].lanes) && LanesLookOut(f.apps[id]))
  {
    hide LanesApart, LanesLookOut, CellIn, Built;
    FloorStaysOk(edits);
    var f := Built(edits);
    forall a, b | a in f.apps && b in f.apps && a != b
      ensures f.apps[a].cells !! f.apps[b].cells
    {
      AppliancesDisjoint(f, a, b);
    }
    forall id | id in f.apps
      ensures LanesApart(f.apps[id].lanes) && LanesLookOut(f.apps[id])
    {
      assert WellPlaced(f.apps[id]);
      LanesLook(f.apps[id]);
    }
    forall id, p | id in f.apps && p in f.apps[id].cells
      ensures p in f.cells && f.cells[p] == CellIn(id, f.apps[id], p) && OfAppliance(f.cells[p])
    {
      assert Drawn(f.cells, id, f.apps[id]);
      CellInIs(id, f.apps[id], p);
    }
  }
}
