/** The board object: cells, appliances and seats updated in place, every edit proved to
  * be the corresponding edit of the floor and to keep it in order. */
module FloorBoard {
  import opened Basics
  import opened FloorPlan
  import opened FloorEdits
  import opened FloorStore
  import opened HostSlots
  import opened Roosts

  class Board {
    var cells: map<Pos, Cell>
    var appliances: map<nat, Appliance>
    var nextApplianceId: nat
    var placed: map<nat, nat>
    var placedOrder: seq<nat>
    var usedSlots: set<nat>
    var slotByIdent: map<Ident, nat>
    var idToIdent: map<nat, Ident>
    var knownHosts: map<Ident, nat>

    ghost function State(): Floor
      reads this
    {
      Floor(cells, appliances, nextApplianceId)
    }

    ghost predicate Valid()
      reads this
    {
      FloorOk(State())
    }

    ghost function Roster(): Seating
      reads this
    {
      Seating(placed, placedOrder, usedSlots, slotByIdent, idToIdent, knownHosts)
    }

    /** However many hosts there are. */
    ghost predicate Sound()
      reads this
    {
      && FloorOk(State()) && MemoryOk(slotByIdent) && Lists(placedOrder, placed)
      && forall p :: p in placed ==> placed[p] < SLOTS
    }

    /** Floor and seats agree. */
    ghost predicate InOrder()
      reads this
    {
      LayoutOk(Layout(State(), Roster()))
    }

    constructor (memory: map<Ident, nat>)
      requires MemoryOk(memory)
      ensures State() == BARE && Roster() == Nobody(memory) && Sound() && InOrder()
    {
      cells, appliances, nextApplianceId := map[], map[], 1;
      placed, placedOrder, usedSlots, slotByIdent := map[], [], {}, memory;
      idToIdent, knownHosts := map[], map[];
      new;
      EmptyOk(memory);
      BareOk();
    }

    method RemoveAppliance(id: nat)
      modifies `cells, `appliances
      ensures State() == FloorPlan.RemoveAppliance(old(State()), id)
    {
      if id !in appliances { return; }
      cells := cells - appliances[id].cells;
      appliances := appliances - {id};
    }

    /** True if there was a machine to remove. */
    method RemoveMachine(p: Pos) returns (removed: bool)
      modifies `cells, `appliances
      ensures State() == FloorPlan.RemoveMachine(old(State()), p)
      ensures removed <==> p in old(cells) && !OfHost(old(cells)[p])
    {
      hide FloorPlan.RemoveAppliance;
      if p !in cells || OfHost(cells[p]) { return false; }
      if OfAppliance(cells[p]) {
        RemoveAppliance(cells[p].app);
        return true;
      }
      cells := cells - {p};
      return true;
    }

    method EraseMachine(p: Pos)
      requires Valid()
      modifies `cells, `appliances
      ensures Valid() && State() == FloorPlan.RemoveMachine(old(State()), p)
    {
      hide FloorOk, FloorPlan.RemoveMachine;
      RemoveMachineKeeps(State(), p);
      var _ := RemoveMachine(p);
    }

    method SetMachine(p: Pos, c: Config)
      requires Valid()
      modifies `cells, `appliances
      ensures Valid() && State() == FloorPlan.SetMachine(old(State()), p, c)
    {
      hide FloorOk, FloorPlan.RemoveMachine;
      SetMachineKeeps(State(), p, c);
      if p in cells && OfHost(cells[p]) { return; }
      var _ := RemoveMachine(p);
      cells := cells[p := Machine(c)];
    }

    /** Clear the footprint cell by cell, then lay the body. */
    method CreateSwitch(c0: int, r0: int, c1: int, r1: int) returns (id: Option<nat>)
      requires Valid()
      modifies `cells, `appliances, `nextApplianceId
      ensures Valid() && State() == FloorPlan.CreateSwitch(old(State()), c0, r0, c1, r1)
      ensures id == if |Footprint(old(State()), c0, r0, c1, r1)| < 2 then None else Some(old(nextApplianceId))
    {
      hide FloorOk, FloorPlan.RemoveMachine, Rect, Footprint, RemoveAll;
      ghost var f := State();
      CreateSwitchKeeps(f, c0, r0, c1, r1);
      var rect := Rect(c0, r0, c1, r1);
      var here := HostFree(rect);
      FootprintIs(f, c0, r0, c1, r1);
      if |here| < 2 { return None; }
      RemoveAllKeeps(f, rect);
      ClearAll(rect);
      id := Some(nextApplianceId);
      nextApplianceId := nextApplianceId + 1;
      appliances := appliances[id.value := Appliance(here, [], None)];
      cells := cells + map p | p in here :: Body(id.value);
    }

    method ClearAll(ps: seq<Pos>)
      modifies `cells, `appliances
      ensures State() == RemoveAll(old(State()), ps)
    {
      hide FloorPlan.RemoveMachine;
      assert ps[..0] == [];
      for i := 0 to |ps|
        invariant State() == RemoveAll(old(State()), ps[..i])
      {
        var _ := RemoveMachine(ps[i]);
        assert ps[..i + 1][..i] == ps[..i];
      }
      assert ps[..|ps|] == ps;
    }

    method HostFree(rect: seq<Pos>) returns (here: set<Pos>)
      ensures here == set p | p in rect && !(p in cells && OfHost(cells[p]))
    {
      here := {};
      for i := 0 to |rect|
        invariant here == set p | p in rect[..i] && !(p in cells && OfHost(cells[p]))
      {
        assert rect[..i + 1] == rect[..i] + [rect[i]];
        if !(rect[i] in cells && OfHost(cells[rect[i]])) { here := here + {rect[i]}; }
      }
      assert rect[..|rect|] == rect;
    }

    /** The first open side of a cell. */
    method FindEdge(body: set<Pos>, p: Pos) returns (dir: Option<nat>)
      ensures dir == EdgeDir(body, p)
      ensures match dir case None => !OnRim(body, p) case Some(d) => LooksOut(body, p, d)
    {
      if Pos(p.col, p.row - 1) !in body { return Some(3); }
      if Pos(p.col + 1, p.row) !in body { return Some(0); }
      if Pos(p.col, p.row + 1) !in body { return Some(1); }
      if Pos(p.col - 1, p.row) !in body { return Some(2); }
      return None;
    }

    /** A click on an edge cell of a switch. */
    method TogglePort(id: nat, p: Pos)
      requires Valid()
      modifies `cells, `appliances
      ensures Valid() && State() == FloorPlan.TogglePort(old(State()), id, p)
    {
      hide FloorOk, EdgeDir, LaneAt, RemoveLane;
      TogglePortKeeps(State(), id, p);
      if id !in appliances || p !in appliances[id].cells { return; }
      var a := appliances[id];
      var dir := FindEdge(a.cells, p);
      if dir.None? { return; }
      var existing := LaneAt(a.lanes, p);
      if existing < |a.lanes| {
        TakeOutPort(id, existing);
        return;
      }
      if a.pending.None? {
        appliances := appliances[id := a.(pending := Some(p))];
        cells := cells[p := Pending(id)];
        return;
      }
      var q := a.pending.value;
      if q == p { return; }
      cells := cells[q := LaneIn(id, |a.lanes|)][p := LaneOut(id, |a.lanes|, dir.value)];
      appliances := appliances[id := a.(lanes := a.lanes + [Lane(q, p, dir.value)], pending := None)];
    }

    /** Take a port out and renumber the cells of the rest. */
    method TakeOutPort(id: nat, i: nat)
      requires id in appliances && i < |appliances[id].lanes|
      modifies `cells, `appliances
      ensures State() == RemoveLane(old(State()), id, i)
    {
      var a := appliances[id];
      var lanes := a.lanes[..i] + a.lanes[i + 1..];
      cells := cells[a.lanes[i].inAt := Body(id)][a.lanes[i].outAt := Body(id)];
      appliances := appliances[id := a.(lanes := lanes)];
      ghost var blank := cells;
      var k := 0;
      while k < |lanes|
        invariant 0 <= k <= |lanes| && appliances == old(appliances)[id := a.(lanes := lanes)]
        invariant DrawLanes(cells, id, lanes, k) == DrawLanes(blank, id, lanes, 0)
      {
        cells := cells[lanes[k].inAt := LaneIn(id, k)][lanes[k].outAt := LaneOut(id, k, lanes[k].outDir)];
        k := k + 1;
      }
    }

    // ---- hosts ------------------------------------------------------------------------

    /** A host wins its slot: machines on it are scrapped. */
    method PlaceAtSlot(port: nat, slot: nat)
      requires Valid() && slot < SLOTS
      modifies `cells, `appliances, `placed, `placedOrder, `usedSlots
      ensures Valid() && State() == SeatAt(old(State()), port, slot)
      ensures Roster() == Place(old(Roster()), port, slot)
    {
      hide FloorOk, FloorPlan.RemoveMachine, At;
      var l := At(slot);
      PlaceHostKeeps(State(), l.roost, l.landing, port, l.facing);
      usedSlots := usedSlots + {slot};
      var _ := RemoveMachine(l.roost);
      var _ := RemoveMachine(l.landing);
      cells := cells[l.roost := Roost(port, l.facing)];
      cells := cells[l.landing := Landing(port)];
      if port !in placed { placedOrder := placedOrder + [port]; }
      placed := placed[port := slot];
    }

    method RemovePortVisuals(port: nat)
      requires Valid() && port in placed
      modifies `cells, `placed, `placedOrder, `usedSlots
      ensures Valid() && State() == Unseated(old(State()), old(placed), port)
      ensures Roster() == Vacate(old(Roster()), port)
    {
      hide FloorOk, At, Without;
      var slot := placed[port];
      var l := At(slot);
      RemoveHostKeeps(State(), l.roost, l.landing);
      if l.roost in cells && OfHost(cells[l.roost]) { cells := cells - {l.roost}; }
      if l.landing in cells && OfHost(cells[l.landing]) { cells := cells - {l.landing}; }
      placed := placed - {port};
      placedOrder := Without(placedOrder, port);
      usedSlots := usedSlots - {slot};
    }

    method SlotTaken(slot: nat) returns (taken: bool)
      ensures taken == Remembered(slotByIdent, slot)
    {
      var todo := slotByIdent.Keys;
      while todo != {}
        invariant todo <= slotByIdent.Keys
        invariant forall i :: i in slotByIdent && i !in todo ==> slotByIdent[i] != slot
        decreases todo
      {
        var i :| i in todo;
        if slotByIdent[i] == slot { return true; }
        todo := todo - {i};
      }
      return false;
    }

    /** Zone first, then the lowest slot nobody uses or remembers. */
    method FindFree(zone: seq<int>) returns (slot: Option<nat>)
      ensures slot == match FirstInZone(Roster(), zone) case Some(i) => Some(i) case None => FirstFree(Roster(), 0)
    {
      hide Remembered;
      for k := 0 to |zone|
        invariant FirstInZone(Roster(), zone) == FirstInZone(Roster(), zone[k..])
      {
        if 0 <= zone[k] < SLOTS && zone[k] !in usedSlots {
          var taken := SlotTaken(zone[k]);
          if !taken { return Some(zone[k]); }
        }
      }
      for i := 0 to SLOTS
        invariant FirstInZone(Roster(), zone) == None && FirstFree(Roster(), 0) == FirstFree(Roster(), i)
      {
        if i !in usedSlots {
          var taken := SlotTaken(i);
          if !taken { return Some(i); }
        }
      }
      return None;
    }

    method PickSlot(ident: Ident, zone: seq<int>) returns (slot: nat)
      modifies `slotByIdent
      ensures slot == HostSlots.PickSlot(old(Roster()), ident, zone)
      ensures slotByIdent == if Returns(old(Roster()), ident) then old(slotByIdent) else old(slotByIdent)[ident := slot]
    {
      hide FirstInZone, FirstFree;
      if ident in slotByIdent && slotByIdent[ident] !in usedSlots { return slotByIdent[ident]; }
      var free := FindFree(zone);
      if free.Some? {
        slot := free.value;
      } else {
        slot := 0;
        while slot < SLOTS && slot in usedSlots
          invariant slot <= SLOTS && FirstUnused(Roster(), 0) == FirstUnused(Roster(), slot)
        {
          slot := slot + 1;
        }
        if slot == SLOTS { slot := 0; }
      }
      slotByIdent := slotByIdent[ident := slot];
    }

    /** A host comes. The board stays in order exactly when it is not the nineteenth. */
    method AddPort(port: nat, ident: Ident, zone: seq<int>)
      requires Sound()
      modifies `cells, `appliances, `placed, `placedOrder, `usedSlots, `slotByIdent, `idToIdent, `knownHosts
      ensures Sound() && Layout(State(), Roster()) == HostJoins(Layout(old(State()), old(Roster())), port, ident, zone)
      ensures old(InOrder()) ==> (InOrder() <==> port in old(placed) || |old(placed)| < SLOTS)
    {
      hide FloorOk, LayoutOk, SeatAt, HostSlots.PickSlot, Returns, MemoryOk, Lists;
      if port in placed { return; }
      ghost var b := Layout(State(), Roster());
      PickedUnusedIff(Roster(), ident, zone);
      if LayoutOk(b) { JoinKeepsIff(b, port, ident, zone); }
      MemoryKept(b.seats.byIdent, ident, HostSlots.PickSlot(Roster(), ident, zone));
      var slot := PickSlot(ident, zone);
      idToIdent := idToIdent[port := ident];
      knownHosts := knownHosts[ident := port];
      PlaceLists(placedOrder, placed, port, slot);
      PlaceAtSlot(port, slot);
    }

    method RemovePort(port: nat)
      requires Sound()
      modifies `cells, `placed, `placedOrder, `usedSlots, `idToIdent
      ensures Sound() && Layout(State(), Roster()) == HostLeaves(Layout(old(State()), old(Roster())), port)
      ensures old(InOrder()) ==> InOrder()
    {
      hide FloorOk, LayoutOk, RemoveHost, Without, Lists;
      if LayoutOk(Layout(State(), Roster())) { LeaveKeeps(Layout(State(), Roster()), port); }
      if port in placed {
        WithoutIs(placedOrder, placed, port);
        RemovePortVisuals(port);
      }
      idToIdent := idToIdent - {port};
    }

    /** The first port placed under the name. */
    method FindPlaced(ident: Ident) returns (port: Option<nat>)
      ensures port == FirstPort(placedOrder, idToIdent, ident)
    {
      for k := 0 to |placedOrder|
        invariant FirstPort(placedOrder, idToIdent, ident) == FirstPort(placedOrder[k..], idToIdent, ident)
      {
        if placedOrder[k] in idToIdent && idToIdent[placedOrder[k]] == ident { return Some(placedOrder[k]); }
      }
      return None;
    }

    /** A host is moved by name. The board stays in order exactly when the port that goes,
      * the first placed under that name, is the port that comes, the last announced. */
    method MoveHost(ident: Ident, target: int) returns (moved: bool)
      requires Sound()
      modifies `cells, `appliances, `placed, `placedOrder, `usedSlots, `slotByIdent
      ensures Sound() && Layout(State(), Roster()) == HostMoves(Layout(old(State()), old(Roster())), ident, target)
      ensures moved <==> Moves(old(Roster()), ident, target) && ident in knownHosts
      ensures old(InOrder()) && moved ==> (InOrder() <==> FirstPort(old(placedOrder), idToIdent, ident) == Some(knownHosts[ident]))
      ensures old(InOrder()) && !moved ==> InOrder()
    {
      hide FloorOk, LayoutOk, SeatAt, MemoryOk, Unseated, FirstPort, Without, Lists;
      ghost var b := Layout(State(), Roster());
      if LayoutOk(b) && Moves(b.seats, ident, target) { RelocateKeepsIff(b, ident, target); }
      if target < 0 || target >= SLOTS || target in usedSlots { return false; }
      var port := FindPlaced(ident);
      if port.None? { return false; }
      PlacedIs(placedOrder, placed, port.value);
      WithoutIs(placedOrder, placed, port.value);
      RemovePortVisuals(port.value);
      if ident !in knownHosts { return false; }
      MemoryKept(slotByIdent, ident, target);
      PlaceLists(placedOrder, placed, knownHosts[ident], target);
      slotByIdent := slotByIdent[ident := target];
      PlaceAtSlot(knownHosts[ident], target);
      return true;
    }

    /** A fresh hello: every placed port is taken off the board. */
    method ResetPorts()
      requires Sound()
      modifies `cells, `placed, `placedOrder, `usedSlots, `idToIdent
      ensures Sound() && Layout(State(), Roster()) == HostsReset(Layout(old(State()), old(Roster())))
      ensures old(InOrder()) ==> InOrder()
    {
      hide FloorOk, LayoutOk, Cleared;
      if LayoutOk(Layout(State(), Roster())) { ResetKeepsLayout(Layout(State(), Roster())); }
      ClearPlaced();
      placed, placedOrder, usedSlots, idToIdent := map[], [], {}, map[];
    }

    method ClearPlaced()
      requires Valid() && Lists(placedOrder, placed)
      modifies `cells, `placed, `placedOrder, `usedSlots
      ensures Valid() && State() == Cleared(old(State()), old(placed), old(placedOrder))
    {
      hide FloorOk, Unseated, Without;
      var order := placedOrder;
      ghost var was := placed;
      assert order[..0] == [];
      for k := 0 to |order|
        invariant Valid() && State() == Cleared(old(State()), was, order[..k])
        invariant forall j :: k <= j < |order| ==> order[j] in placed && order[j] in was && placed[order[j]] == was[order[j]]
      {
        SameSlot(State(), placed, was, order[k]);
        RemovePortVisuals(order[k]);
        assert order[..k + 1][..k] == order[..k];
      }
      assert order[..|order|] == order;
    }

    // ---- restoring a saved floor -------------------------------------------------------

    method Restore(saved: Saved)
      requires State() == BARE && Valid()
      modifies `cells, `appliances, `nextApplianceId
      ensures Valid() && State() == FloorStore.Restore(saved)
    {
      hide FloorOk, FloorPlan.SetMachine, FloorStore.RestoreSwitch;
      assert saved.machines[..0] == [];
      for k := 0 to |saved.machines|
        invariant Valid() && State() == RestoreMachines(BARE, saved.machines[..k])
      {
        SetMachine(saved.machines[k].p, saved.machines[k].config);
        assert saved.machines[..k + 1][..k] == saved.machines[..k];
      }
      assert saved.machines[..|saved.machines|] == saved.machines;
      ghost var m := State();
      assert saved.switches[..0] == [];
      for k := 0 to |saved.switches|
        invariant Valid() && State() == RestoreSwitches(m, saved.switches[..k])
      {
        RestoreSwitch(saved.switches[k]);
        assert saved.switches[..k + 1][..k] == saved.switches[..k];
      }
      assert saved.switches[..|saved.switches|] == saved.switches;
    }

    /** Lay the box its cells span, then replay the two clicks of each port. */
    method RestoreSwitch(saved: SavedSwitch)
      requires Valid()
      modifies `cells, `appliances, `nextApplianceId
      ensures Valid() && State() == FloorStore.RestoreSwitch(old(State()), saved)
    {
      hide FloorOk, Rect, FloorPlan.RemoveAll, FloorPlan.TogglePort, MinCol, MaxCol, MinRow, MaxRow, Install;
      if saved.cells == [] { return; }
      ghost var f := State();
      CreatedAnew(f, MinCol(saved.cells), MinRow(saved.cells), MaxCol(saved.cells), MaxRow(saved.cells));
      var id := CreateSwitch(MinCol(saved.cells), MinRow(saved.cells), MaxCol(saved.cells), MaxRow(saved.cells));
      if id.None? { return; }
      ghost var g := State();
      assert saved.lanes[..0] == [];
      for k := 0 to |saved.lanes|
        invariant Valid() && State() == Rewire(g, id.value, saved.lanes[..k])
      {
        TogglePort(id.value, saved.lanes[k].inAt);
        TogglePort(id.value, saved.lanes[k].outAt);
        assert saved.lanes[..k + 1][..k] == saved.lanes[..k];
      }
      assert saved.lanes[..|saved.lanes|] == saved.lanes;
    }
  }

  lemma PlacedIs(order: seq<nat>, placed: map<nat, nat>, port: nat)
    requires Lists(order, placed) && port in order
    ensures port in placed
  {
  }

  lemma PlaceLists(order: seq<nat>, placed: map<nat, nat>, port: nat, slot: nat)
    requires Lists(order, placed)
    ensures Lists(if port in placed then order else order + [port], placed[port := slot])
  {
    if port !in placed { Appended(order, placed, port, slot); }
  }

  /** A switch was laid exactly when the next id moved on. */
  lemma CreatedAnew(f: Floor, c0: int, r0: int, c1: int, r1: int)
    requires FloorOk(f)
    ensures CreateSwitch(f, c0, r0, c1, r1).nextId == (if |Footprint(f, c0, r0, c1, r1)| < 2 then f.nextId else f.nextId + 1)
    ensures |Footprint(f, c0, r0, c1, r1)| < 2 ==> CreateSwitch(f, c0, r0, c1, r1) == f
  {
    hide FloorOk, Rect;
    RemoveAllKeeps(f, Rect(c0, r0, c1, r1));
  }

  lemma FootprintIs(f: Floor, c0: int, r0: int, c1: int, r1: int)
    ensures Footprint(f, c0, r0, c1, r1) == set p | p in Rect(c0, r0, c1, r1) && !(p in f.cells && OfHost(f.cells[p]))
  {
  }
}
