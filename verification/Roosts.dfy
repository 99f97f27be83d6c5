/** Hosts on the floor: each seat is a pair of perimeter cells, and the cells show who
  * sits where. */
module Roosts {
  import opened Basics
  import opened FloorPlan
  import opened FloorEdits
  import opened HostSlots

  datatype Loc = Loc(roost: Pos, landing: Pos, facing: nat)

  /** The eight original slots, then those appended for more hosts. */
  const PERIMETER: seq<Loc> := [
    Loc(Pos(0, 3), Pos(0, 5), 0), Loc(Pos(27, 3), Pos(27, 5), 2),
    Loc(Pos(0, 10), Pos(0, 12), 0), Loc(Pos(27, 10), Pos(27, 12), 2),
    Loc(Pos(9, 0), Pos(11, 0), 1), Loc(Pos(9, 15), Pos(11, 15), 3),
    Loc(Pos(17, 0), Pos(19, 0), 1), Loc(Pos(17, 15), Pos(19, 15), 3),
    Loc(Pos(0, 6), Pos(0, 8), 0), Loc(Pos(27, 6), Pos(27, 8), 2),
    Loc(Pos(0, 13), Pos(0, 14), 0), Loc(Pos(27, 13), Pos(27, 14), 2),
    Loc(Pos(2, 0), Pos(4, 0), 1), Loc(Pos(2, 15), Pos(4, 15), 3),
    Loc(Pos(13, 0), Pos(15, 0), 1), Loc(Pos(13, 15), Pos(15, 15), 3),
    Loc(Pos(23, 0), Pos(25, 0), 1), Loc(Pos(23, 15), Pos(25, 15), 3)]

  /** Slot numbers are always on the board; see `PickedUnusedIff`. */
  function At(slot: nat): Loc { if slot < |PERIMETER| then PERIMETER[slot] else PERIMETER[0] }

  /** Which side of the perimeter a cell is on, and how far along. */
  function SlotOf(p: Pos): nat {
    if p.col == 0 then (if p.row <= 5 then 0 else if p.row <= 8 then 8 else if p.row <= 12 then 2 else 10)
    else if p.col == 27 then (if p.row <= 5 then 1 else if p.row <= 8 then 9 else if p.row <= 12 then 3 else 11)
    else
      (if p.col <= 4 then 12 else if p.col <= 11 then 4 else if p.col <= 15 then 14 else if p.col <= 19 then 6 else 16)
      + if p.row == 0 then 0 else 1
  }

  /** No two slots share a cell: a cell tells its slot. */
  lemma SlotTold(slot: nat)
    requires slot < SLOTS
    ensures SlotOf(At(slot).roost) == slot == SlotOf(At(slot).landing) && At(slot).roost != At(slot).landing
    ensures 0 <= At(slot).roost.col < COLS && 0 <= At(slot).roost.row < ROWS
    ensures 0 <= At(slot).landing.col < COLS && 0 <= At(slot).landing.row < ROWS
  {
  }

  /** Four slots down the sides, four along top and bottom, then four and six more between
    * them, one on either side in turn; the landing two cells further on, or one in the corner. */
  lemma SlotsLaidOut(slot: nat)
    requires slot < SLOTS
    ensures var at, to := At(slot).roost, At(slot).landing;
            if slot < 4 || 8 <= slot < 12 then
              && at.col == to.col == (if slot % 2 == 0 then 0 else 27)
              && at.row == (if slot < 8 then 3 else 6) + (if slot % 4 < 2 then 0 else 7)
              && to.row - at.row == (if at.row == 13 then 1 else 2)
            else
              && at.row == to.row == (if slot % 2 == 0 then 0 else 15) && to.col - at.col == 2
              && at.col == (if slot < 6 then 9 else if slot < 8 then 17 else if slot < 14 then 2 else if slot < 16 then 13 else 23)
  {
  }

  /** The roost faces away from the side it is on. */
  lemma FacesTheFloor(slot: nat)
    requires slot < SLOTS
    ensures var l := At(slot);
            || (l.roost.col == 0 && l.facing == 0) || (l.roost.col == 27 && l.facing == 2)
            || (l.roost.row == 0 && l.facing == 1) || (l.roost.row == 15 && l.facing == 3)
  {
  }

  // ---- the board with its hosts --------------------------------------------------------------

  datatype Layout = Layout(floor: Floor, seats: Seating)

  function SeatAt(f: Floor, port: nat, slot: nat): Floor {
    PlaceHost(f, At(slot).roost, At(slot).landing, port, At(slot).facing)
  }

  function HostJoins(b: Layout, port: nat, ident: Ident, zone: seq<int>): Layout {
    if port in b.seats.placed then b
    else var s := AddPort(b.seats, port, ident, zone); Layout(SeatAt(b.floor, port, s.placed[port]), s)
  }

  /** The cells of the port's slot are cleared. */
  function Unseated(f: Floor, placed: map<nat, nat>, port: nat): Floor {
    if port !in placed then f else RemoveHost(f, At(placed[port]).roost, At(placed[port]).landing)
  }

  function HostLeaves(b: Layout, port: nat): Layout {
    Layout(Unseated(b.floor, b.seats.placed, port), RemovePort(b.seats, port))
  }

  function HostMoves(b: Layout, ident: Ident, target: int): Layout {
    if !Moves(b.seats, ident, target) then b else
    var f := Unseated(b.floor, b.seats.placed, FirstPort(b.seats.order, b.seats.identOf, ident).value);
    Layout(if ident in b.seats.known then SeatAt(f, b.seats.known[ident], target) else f, MoveHost(b.seats, ident, target))
  }

  /** Port after port, in the order they were placed. */
  function Cleared(f: Floor, placed: map<nat, nat>, order: seq<nat>): Floor {
    if order == [] then f else Unseated(Cleared(f, placed, order[..|order| - 1]), placed, order[|order| - 1])
  }

  function HostsReset(b: Layout): Layout {
    Layout(Cleared(b.floor, b.seats.placed, b.seats.order), Reset(b.seats))
  }

  // ---- what the cells show -----------------------------------------------------------------------

  ghost predicate Shows(cells: map<Pos, Cell>, port: nat, slot: nat) {
    && At(slot).roost in cells && cells[At(slot).roost] == Roost(port, At(slot).facing)
    && At(slot).landing in cells && cells[At(slot).landing] == Landing(port)
  }

  /** Everyone seated is shown, and no host is shown who is not seated there. */
  ghost predicate HostsShown(cells: map<Pos, Cell>, placed: map<nat, nat>) {
    && (forall port :: port in placed ==> Shows(cells, port, placed[port]))
    && (forall p :: p in cells && OfHost(cells[p]) ==>
          cells[p].port in placed && p in {At(placed[cells[p].port]).roost, At(placed[cells[p].port]).landing})
  }

  ghost predicate LayoutOk(b: Layout) {
    FloorOk(b.floor) && SeatingOk(b.seats) && HostsShown(b.floor.cells, b.seats.placed)
  }

  // ---- machines leave hosts alone ----------------------------------------------------------------

  /** The same hosts on the same cells. */
  ghost predicate SameHosts(a: map<Pos, Cell>, b: map<Pos, Cell>) {
    && (forall p :: p in a && OfHost(a[p]) ==> p in b && b[p] == a[p])
    && (forall p :: p in b && OfHost(b[p]) ==> p in a && b[p] == a[p])
  }

  lemma RemoveSpares(f: Floor, p: Pos)
    requires FloorOk(f)
    ensures SameHosts(f.cells, RemoveMachine(f, p).cells)
  {
    hide WellPlaced, CellIn;
    var g := RemoveMachine(f, p);
    forall q | q in f.cells && OfHost(f.cells[q])
      ensures q in g.cells && g.cells[q] == f.cells[q]
    {
      if p in f.cells && OfAppliance(f.cells[p]) { NotOwned(f, q, f.cells[p].app); }
    }
  }

  lemma {:induction false} RemoveAllSpares(f: Floor, ps: seq<Pos>)
    requires FloorOk(f)
    ensures SameHosts(f.cells, RemoveAll(f, ps).cells)
    decreases |ps|
  {
    hide FloorOk, RemoveMachine;
    if ps != [] {
      RemoveAllSpares(f, ps[..|ps| - 1]);
      RemoveAllKeeps(f, ps[..|ps| - 1]);
      RemoveSpares(RemoveAll(f, ps[..|ps| - 1]), ps[|ps| - 1]);
    }
  }

  lemma CreateSwitchSpares(f: Floor, c0: int, r0: int, c1: int, r1: int)
    requires FloorOk(f)
    ensures SameHosts(f.cells, CreateSwitch(f, c0, r0, c1, r1).cells)
  {
    hide FloorOk, RemoveAll;
    RemoveAllSpares(f, Rect(c0, r0, c1, r1));
  }

  lemma RedrawnSpares(f: Floor, id: nat, a: Appliance)
    requires FloorOk(f) && id in f.apps && a.cells == f.apps[id].cells
    ensures SameHosts(f.cells, Redrawn(f, id, a).cells)
  {
    hide WellPlaced, CellIn;
    forall q | q in a.cells
      ensures q in f.cells && !OfHost(f.cells[q]) && !OfHost(CellIn(id, a, q))
    {
      assert Drawn(f.cells, id, f.apps[id]);
      CellInIs(id, f.apps[id], q);
      CellInIs(id, a, q);
    }
  }

  lemma TogglePortSpares(f: Floor, id: nat, p: Pos)
    requires FloorOk(f)
    ensures SameHosts(f.cells, TogglePort(f, id, p).cells)
  {
    hide WellPlaced, CellIn, FloorOk, EdgeDir, LaneAt;
    if id in f.apps && p in f.apps[id].cells && EdgeDir(f.apps[id].cells, p).Some? {
      var a := f.apps[id];
      var i := LaneAt(a.lanes, p);
      if i < |a.lanes| {
        RemovedIsRedrawn(f, id, i);
        RedrawnSpares(f, id, a.(lanes := Dropped(a.lanes, i)));
      } else if a.pending.None? {
        FirstClick(f, id, p);
        RedrawnSpares(f, id, a.(pending := Some(p)));
      } else if a.pending.value != p {
        SecondClick(f, id, p);
        RedrawnSpares(f, id, Wired(a, p));
      }
    }
  }

  predicate OnMachines(e: Edit) { !e.HostIn? && !e.HostOut? }

  /** No edit of machines or switches touches a host's cell. */
  lemma EditSpares(f: Floor, e: Edit)
    requires FloorOk(f) && OnMachines(e)
    ensures SameHosts(f.cells, Apply(f, e).cells)
  {
    hide FloorOk, RemoveMachine, CreateSwitch, TogglePort;
    match e
    case Set(p, _) => RemoveSpares(f, p);
    case Erase(p) => RemoveSpares(f, p);
    case Switch(c0, r0, c1, r1) => CreateSwitchSpares(f, c0, r0, c1, r1);
    case Click(id, p) => TogglePortSpares(f, id, p);
  }

  lemma SameHostsShown(a: map<Pos, Cell>, b: map<Pos, Cell>, placed: map<nat, nat>)
    requires SameHosts(a, b) && HostsShown(a, placed)
    ensures HostsShown(b, placed)
  {
    hide At;
  }

  // ---- coming, going and moving -----------------------------------------------------------------

  /** What placing does to the cells. */
  lemma PlacedCells(f: Floor, port: nat, slot: nat)
    requires FloorOk(f) && slot < SLOTS
    ensures var g := SeatAt(f, port, slot);
            && FloorOk(g) && Shows(g.cells, port, slot)
            && (forall p :: p in f.cells && OfHost(f.cells[p]) && p != At(slot).roost && p != At(slot).landing ==> p in g.cells && g.cells[p] == f.cells[p])
            && (forall p :: p in g.cells && OfHost(g.cells[p]) && p != At(slot).roost && p != At(slot).landing ==> p in f.cells && g.cells[p] == f.cells[p])
  {
    hide FloorOk, RemoveMachine, At;
    var l := At(slot);
    SlotTold(slot);
    PlaceHostKeeps(f, l.roost, l.landing, port, l.facing);
    RemoveSpares(f, l.roost);
    RemoveMachineKeeps(f, l.roost);
    RemoveSpares(RemoveMachine(f, l.roost), l.landing);
  }

  lemma SeatedShown(f: Floor, placed: map<nat, nat>, port: nat, slot: nat)
    requires FloorOk(f) && HostsShown(f.cells, placed) && port !in placed && slot < SLOTS
    requires forall p :: p in placed ==> placed[p] < SLOTS && placed[p] != slot
    ensures HostsShown(SeatAt(f, port, slot).cells, placed[port := slot])
  {
    hide FloorOk, PlaceHost, At, SlotOf;
    PlacedCells(f, port, slot);
    SlotTold(slot);
    forall p | p in placed
      ensures Shows(SeatAt(f, port, slot).cells, p, placed[p])
    {
      SlotTold(placed[p]);
    }
    var g := SeatAt(f, port, slot).cells;
    forall p | p in g && OfHost(g[p])
      ensures g[p].port in placed[port := slot] && var l := At(placed[port := slot][g[p].port]); p in {l.roost, l.landing}
    {
    }
  }

  lemma LeftShown(f: Floor, placed: map<nat, nat>, port: nat)
    requires HostsShown(f.cells, placed) && port in placed && SeatsApart(placed)
    requires forall p :: p in placed ==> placed[p] < SLOTS
    ensures var l := At(placed[port]); HostsShown(RemoveHost(f, l.roost, l.landing).cells, placed - {port})
  {
    hide At, SlotOf;
    var l := At(placed[port]);
    SlotTold(placed[port]);
    var g, rest := RemoveHost(f, l.roost, l.landing), placed - {port};
    forall p | p in rest
      ensures Shows(g.cells, p, rest[p])
    {
      SlotTold(rest[p]);
    }
  }

  lemma SlotsInRange(s: Seating)
    requires SeatingOk(s)
    ensures forall p :: p in s.placed ==> s.placed[p] < SLOTS
  {
  }

  lemma LeaveKeeps(b: Layout, port: nat)
    requires LayoutOk(b)
    ensures LayoutOk(HostLeaves(b, port))
  {
    hide FloorOk, HostsShown, At, RemoveHost, UsedExactly, Lists, Without;
    RemoveKeeps(b.seats, port);
    SlotsInRange(b.seats);
    if port in b.seats.placed {
      var l := At(b.seats.placed[port]);
      RemoveHostKeeps(b.floor, l.roost, l.landing);
      LeftShown(b.floor, b.seats.placed, port);
    }
  }

  /** A new host leaves the board in order exactly when fewer than eighteen are on it;
    * otherwise the host it is put on top of disappears. */
  lemma JoinKeepsIff(b: Layout, port: nat, ident: Ident, zone: seq<int>)
    requires LayoutOk(b) && port !in b.seats.placed
    ensures LayoutOk(HostJoins(b, port, ident, zone)) <==> |b.seats.placed| < SLOTS
    ensures |b.seats.placed| >= SLOTS ==> !HostsShown(HostJoins(b, port, ident, zone).floor.cells, HostJoins(b, port, ident, zone).seats.placed)
  {
    hide FloorOk, HostsShown, At, PickSlot, Returns, UsedExactly, SeatsApart, SeatAt;
    var s := AddPort(b.seats, port, ident, zone);
    var slot := s.placed[port];
    AddedApartIff(b.seats, port, ident, zone);
    PickedUnusedIff(b.seats, ident, zone);
    PlacedCells(b.floor, port, slot);
    if |b.seats.placed| < SLOTS {
      SlotsInRange(b.seats);
      AloneThere(b.seats, s, port);
      SeatedShown(b.floor, b.seats.placed, port, s.placed[port]);
    } else {
      Overlaid(SeatAt(b.floor, port, slot).cells, s.placed);
    }
  }

  lemma AloneThere(s: Seating, t: Seating, port: nat)
    requires port !in s.placed && port in t.placed && t.placed == s.placed[port := t.placed[port]] && SeatsApart(t.placed)
    ensures forall p :: p in s.placed ==> s.placed[p] != t.placed[port]
  {
    forall p | p in s.placed
      ensures s.placed[p] != t.placed[port]
    {
      assert t.placed[p] == s.placed[p];
    }
  }

  lemma Overlaid(cells: map<Pos, Cell>, placed: map<nat, nat>)
    requires !SeatsApart(placed)
    ensures !HostsShown(cells, placed)
  {
    hide At;
    var p, q :| p in placed && q in placed && p != q && placed[p] == placed[q];
    assert !(Shows(cells, p, placed[p]) && Shows(cells, q, placed[q]));
  }

  lemma UnseatedKeeps(f: Floor, placed: map<nat, nat>, port: nat)
    requires FloorOk(f) && HostsShown(f.cells, placed) && SeatsApart(placed) && forall p :: p in placed ==> placed[p] < SLOTS
    ensures FloorOk(Unseated(f, placed, port)) && HostsShown(Unseated(f, placed, port).cells, placed - {port})
  {
    hide FloorOk, HostsShown, At, RemoveHost;
    if port in placed {
      RemoveHostKeeps(f, At(placed[port]).roost, At(placed[port]).landing);
      LeftShown(f, placed, port);
    } else {
      assert placed - {port} == placed;
    }
  }

  /** A host shown at a slot it no longer has. */
  lemma StillShown(f: Floor, placed: map<nat, nat>, q: nat, target: nat)
    requires FloorOk(f) && HostsShown(f.cells, placed) && q in placed && placed[q] < SLOTS && target < SLOTS && target != placed[q]
    ensures !HostsShown(SeatAt(f, q, target).cells, placed[q := target])
  {
    hide FloorOk, SeatAt, At, SlotOf;
    PlacedCells(f, q, target);
    SlotTold(target);
    SlotTold(placed[q]);
    assert Shows(f.cells, q, placed[q]);
    var stale := At(placed[q]).roost;
    assert SeatAt(f, q, target).cells[stale] == Roost(q, At(placed[q]).facing);
  }

  /** Moving a host leaves floor and seats in agreement exactly when the port that goes is
    * the port that comes. If another one comes that has a seat already, the floor goes on
    * showing it there too. */
  lemma RelocateKeepsIff(b: Layout, ident: Ident, target: int)
    requires LayoutOk(b) && Moves(b.seats, ident, target)
    ensures ident in b.seats.known && FirstPort(b.seats.order, b.seats.identOf, ident).Some?
    ensures var p, q, c := FirstPort(b.seats.order, b.seats.identOf, ident).value, b.seats.known[ident], HostMoves(b, ident, target);
            && (LayoutOk(c) <==> q == p)
            && FloorOk(c.floor) && (HostsShown(c.floor.cells, c.seats.placed) <==> q == p || q !in b.seats.placed)
  {
    hide FloorOk, HostsShown, At, RemoveHost, SeatAt, MoveHost, FirstPort, Unseated, SeatingOk, SeatsApart;
    var s := b.seats;
    MoveIs(s, ident, target);
    MoveKeepsIff(s, ident, target);
    SlotsInRange(s);
    SlotsApart(s);
    TargetFree(s, ident, target);
    var p, q := FirstPort(s.order, s.identOf, ident).value, s.known[ident];
    var f := Unseated(b.floor, s.placed, p);
    UnseatedKeeps(b.floor, s.placed, p);
    PlacedCells(f, q, target);
    if q in s.placed - {p} {
      StillShown(f, s.placed - {p}, q, target);
    } else {
      SeatedShown(f, s.placed - {p}, q, target);
    }
  }

  lemma SlotsApart(s: Seating)
    requires SeatingOk(s)
    ensures SeatsApart(s.placed)
  {
    hide SeatsApart;
  }

  lemma TargetFree(s: Seating, ident: Ident, target: int)
    requires SeatingOk(s) && Moves(s, ident, target)
    ensures forall p :: p in s.placed ==> s.placed[p] != target
  {
    hide SeatsApart, MemoryOk, Lists, FirstPort;
  }

  lemma {:induction false} ClearedKeeps(f: Floor, placed: map<nat, nat>, order: seq<nat>)
    requires FloorOk(f) && HostsShown(f.cells, placed) && SeatsApart(placed) && forall p :: p in placed ==> placed[p] < SLOTS
    requires forall i, j :: 0 <= i < j < |order| ==> order[i] != order[j]
    ensures FloorOk(Cleared(f, placed, order))
    ensures HostsShown(Cleared(f, placed, order).cells, placed - (set p | p in order))
    decreases |order|
  {
    hide FloorOk, HostsShown, Unseated;
    if order == [] {
      assert placed - (set p | p in order) == placed;
    } else {
      var before, p := order[..|order| - 1], order[|order| - 1];
      ClearedKeeps(f, placed, before);
      var left := placed - (set p | p in before);
      assert p !in before;
      UnseatedKeeps(Cleared(f, placed, before), left, p);
      assert left - {p} == placed - (set p | p in order) by { assert order == before + [p]; }
      assert Unseated(Cleared(f, placed, before), left, p) == Unseated(Cleared(f, placed, before), placed, p) by { SameSlot(Cleared(f, placed, before), left, placed, p); }
    }
  }

  lemma SameSlot(f: Floor, a: map<nat, nat>, b: map<nat, nat>, p: nat)
    requires (p in a <==> p in b) && (p in a ==> a[p] == b[p])
    ensures Unseated(f, a, p) == Unseated(f, b, p)
  {
  }

  lemma ResetKeepsLayout(b: Layout)
    requires LayoutOk(b)
    ensures LayoutOk(HostsReset(b))
  {
    hide FloorOk, HostsShown, Cleared, Reset, SeatsApart, UsedExactly;
    SlotsInRange(b.seats);
    ClearedKeeps(b.floor, b.seats.placed, b.seats.order);
    ResetKeeps(b.seats);
    assert b.seats.placed - (set p | p in b.seats.order) == map[] == Reset(b.seats).placed by { ClearsAll(b.seats); }
  }

  lemma ClearsAll(s: Seating)
    requires Lists(s.order, s.placed)
    ensures s.placed - (set p | p in s.order) == map[] == Reset(s).placed
  {
  }

  // ---- whole sessions -----------------------------------------------------------------------------

  datatype Deed = Work(edit: Edit) | Seats(event: Event)

  function Done(b: Layout, d: Deed): Layout {
    match d
    case Work(e) => if OnMachines(e) then b.(floor := Apply(b.floor, e)) else b
    case Seats(Join(port, ident, zone)) => HostJoins(b, port, ident, zone)
    case Seats(Leave(port)) => HostLeaves(b, port)
    case Seats(Relocate(ident, target)) => HostMoves(b, ident, target)
    case Seats(Hello) => HostsReset(b)
  }

  /** The seats move on as they do without a floor. */
  lemma SeatsFollow(b: Layout, e: Event)
    ensures Done(b, Seats(e)).seats == Next(b.seats, e)
  {
    hide FirstPort;
    if e.Relocate? && !Moves(b.seats, e.ident, e.target) { Refused(b.seats, e.ident, e.target); }
  }

  function After(memory: map<Ident, nat>, deeds: seq<Deed>): Layout {
    if deeds == [] then Layout(BARE, Nobody(memory)) else Done(After(memory, deeds[..|deeds| - 1]), deeds[|deeds| - 1])
  }

  /** Work on machines always fits; so does whoever comes while there is room, and whoever
    * moves as the port last announced under its name. */
  predicate Suits(b: Layout, d: Deed) { d.Work? || Fits(b.seats, d.event) }

  lemma WorkKeeps(b: Layout, e: Edit)
    requires LayoutOk(b) && OnMachines(e)
    ensures LayoutOk(b.(floor := Apply(b.floor, e)))
  {
    hide FloorOk, SeatingOk, HostsShown, Apply, SameHosts;
    ApplyKeeps(b.floor, e);
    EditSpares(b.floor, e);
    SameHostsShown(b.floor.cells, Apply(b.floor, e).cells, b.seats.placed);
  }

  /** From a board in order a deed leads to a board in order exactly when it suits. */
  lemma DoneOkIff(b: Layout, d: Deed)
    requires LayoutOk(b)
    ensures LayoutOk(Done(b, d)) <==> Suits(b, d)
  {
    hide LayoutOk, HostJoins, HostLeaves, HostMoves, HostsReset, Apply, Moves, FirstPort;
    match d
    case Work(e) => if OnMachines(e) { WorkKeeps(b, e); }
    case Seats(Join(port, ident, zone)) => if port in b.seats.placed { JoinedBefore(b, port, ident, zone); } else { JoinKeepsIff(b, port, ident, zone); }
    case Seats(Leave(port)) => LeaveKeeps(b, port);
    case Seats(Relocate(ident, target)) => if Moves(b.seats, ident, target) { RelocateKeepsIff(b, ident, target); } else { NotMoved(b, ident, target); }
    case Seats(Hello) => ResetKeepsLayout(b);
  }

  lemma JoinedBefore(b: Layout, port: nat, ident: Ident, zone: seq<int>)
    requires port in b.seats.placed
    ensures HostJoins(b, port, ident, zone) == b
  {
  }

  lemma NotMoved(b: Layout, ident: Ident, target: int)
    requires !Moves(b.seats, ident, target)
    ensures HostMoves(b, ident, target) == b
  {
  }

  ghost predicate AlwaysInOrder(memory: map<Ident, nat>, deeds: seq<Deed>) {
    forall n :: 0 <= n <= |deeds| ==> LayoutOk(After(memory, deeds[..n]))
  }

  predicate AllSuit(memory: map<Ident, nat>, deeds: seq<Deed>) {
    forall n :: 0 <= n < |deeds| ==> Suits(After(memory, deeds[..n]), deeds[n])
  }

  /** Over whole sessions, from whatever hosts remember: floor, records and seats agree all
    * along exactly when every deed suits. */
  lemma {:induction false} BoardInOrderIff(memory: map<Ident, nat>, deeds: seq<Deed>)
    requires MemoryOk(memory)
    ensures AlwaysInOrder(memory, deeds) <==> AllSuit(memory, deeds)
    decreases |deeds|
  {
    hide AlwaysInOrder, AllSuit, LayoutOk, Done, Suits;
    if deeds == [] {
      EmptyOk(memory);
      NoDeeds(memory);
    } else {
      var k := |deeds| - 1;
      BoardInOrderIff(memory, deeds[..k]);
      OneMoreInOrder(memory, deeds);
      OneMoreSuits(memory, deeds);
      if LayoutOk(After(memory, deeds[..k])) { DoneOkIff(After(memory, deeds[..k]), deeds[k]); }
      LastInOrder(memory, deeds[..k]);
    }
  }

  lemma NoDeeds(memory: map<Ident, nat>)
    requires LayoutOk(Layout(BARE, Nobody(memory)))
    ensures AlwaysInOrder(memory, []) && AllSuit(memory, [])
  {
    hide LayoutOk;
  }

  lemma LastInOrder(memory: map<Ident, nat>, deeds: seq<Deed>)
    ensures AlwaysInOrder(memory, deeds) ==> LayoutOk(After(memory, deeds))
  {
    assert deeds[..|deeds|] == deeds;
  }

  lemma OneMoreInOrder(memory: map<Ident, nat>, deeds: seq<Deed>)
    requires deeds != []
    ensures AlwaysInOrder(memory, deeds) <==> AlwaysInOrder(memory, deeds[..|deeds| - 1]) && LayoutOk(After(memory, deeds))
  {
    hide LayoutOk, After, AlwaysInOrder;
    if AlwaysInOrder(memory, deeds) { OneMoreInOrderBefore(memory, deeds); }
    if AlwaysInOrder(memory, deeds[..|deeds| - 1]) && LayoutOk(After(memory, deeds)) { OneMoreInOrderAfter(memory, deeds); }
  }

  lemma OneMoreInOrderBefore(memory: map<Ident, nat>, deeds: seq<Deed>)
    requires deeds != [] && AlwaysInOrder(memory, deeds)
    ensures AlwaysInOrder(memory, deeds[..|deeds| - 1]) && LayoutOk(After(memory, deeds))
  {
    hide LayoutOk, After;
    var k := |deeds| - 1;
    assert deeds[..|deeds|] == deeds;
    forall n | 0 <= n <= k
      ensures LayoutOk(After(memory, deeds[..k][..n]))
    {
      assert deeds[..k][..n] == deeds[..n];
    }
  }

  lemma OneMoreInOrderAfter(memory: map<Ident, nat>, deeds: seq<Deed>)
    requires deeds != [] && AlwaysInOrder(memory, deeds[..|deeds| - 1]) && LayoutOk(After(memory, deeds))
    ensures AlwaysInOrder(memory, deeds)
  {
    hide LayoutOk, After;
    forall n | 0 <= n <= |deeds|
      ensures LayoutOk(After(memory, deeds[..n]))
    {
      if n == |deeds| {
        assert deeds[..n] == deeds;
      } else {
        assert deeds[..|deeds| - 1][..n] == deeds[..n];
      }
    }
  }

  lemma OneMoreSuits(memory: map<Ident, nat>, deeds: seq<Deed>)
    requires deeds != []
    ensures var k := |deeds| - 1;
            AllSuit(memory, deeds) <==> AllSuit(memory, deeds[..k]) && Suits(After(memory, deeds[..k]), deeds[k])
  {
    hide Suits, After;
    var before := deeds[..|deeds| - 1];
    assert forall n :: 0 <= n <= |before| ==> before[..n] == deeds[..n];
  }

  /** Never more than eighteen hosts on the board at once, nor two under one name. */
  predicate NeverFull(memory: map<Ident, nat>, deeds: seq<Deed>) {
    forall n :: 0 <= n <= |deeds| ==> |After(memory, deeds[..n]).seats.placed| <= SLOTS && NamesApart(After(memory, deeds[..n]).seats)
  }

  /** However machines are built and erased and hosts come, go and move, while no more
    * than eighteen hosts are on the board at once and no two go by one name: switches and
    * their records agree, no two hosts share a slot, and the floor shows exactly the hosts
    * that are seated. */
  lemma {:induction false} BoardStaysInOrder(memory: map<Ident, nat>, deeds: seq<Deed>)
    requires MemoryOk(memory) && NeverFull(memory, deeds)
    ensures LayoutOk(After(memory, deeds)) && LastAnnounced(After(memory, deeds).seats)
    decreases |deeds|
  {
    hide LayoutOk, Done, LastAnnounced, NamesApart;
    if deeds == [] {
      EmptyOk(memory);
      NobodyLast(memory);
    } else {
      var before, d := deeds[..|deeds| - 1], deeds[|deeds| - 1];
      forall n | 0 <= n <= |before|
        ensures before[..n] == deeds[..n]
      {
      }
      BoardStaysInOrder(memory, before);
      assert deeds[..|deeds|] == deeds;
      DeedKeeps(After(memory, before), d);
    }
  }

  lemma DeedKeeps(b: Layout, d: Deed)
    requires LayoutOk(b) && LastAnnounced(b.seats) && |Done(b, d).seats.placed| <= SLOTS && NamesApart(Done(b, d).seats)
    ensures LayoutOk(Done(b, d)) && LastAnnounced(Done(b, d).seats)
  {
    hide FloorOk, SeatingOk, HostsShown, HostJoins, HostLeaves, HostMoves, HostsReset, Apply, Fits, Next, LastAnnounced, NamesApart;
    DoneOkIff(b, d);
    if d.Seats? {
      SeatsFollow(b, d.event);
      LastAnnouncedFits(b.seats, d.event);
    }
  }

  lemma EmptyOk(memory: map<Ident, nat>)
    requires MemoryOk(memory)
    ensures LayoutOk(Layout(BARE, Nobody(memory)))
  {
    BareOk();
    NobodyOk(memory);
  }

  // ---- two agents under one name ----------------------------------------------------------------------

  const AGENTS: seq<Deed> := [Seats(Join(1, EDGE_X, [])), Seats(Join(2, EDGE_X, [])), Seats(Relocate(EDGE_X, 5))]

  lemma {:induction false} SeatsAlone(memory: map<Ident, nat>, deeds: seq<Deed>, events: seq<Event>)
    requires |deeds| == |events| && forall i :: 0 <= i < |deeds| ==> deeds[i] == Seats(events[i])
    ensures After(memory, deeds).seats == Seated(memory, events)
    decreases |deeds|
  {
    hide Done, Next;
    if deeds != [] {
      var k := |deeds| - 1;
      SeatsAlone(memory, deeds[..k], events[..k]);
      SeatsFollow(After(memory, deeds[..k]), events[k]);
    }
  }

  /** Two agents under one name and a move: the floor ends up showing the second agent at
    * two slots, one of which is no longer its own. */
  lemma TwoAgentsShownTwice()
    ensures var b := After(map[], AGENTS);
            && b.seats == ONE_MOVED && !LayoutOk(b)
            && Shows(b.floor.cells, 2, 5) && Shows(b.floor.cells, 2, 1)
  {
    hide After, FloorOk, SeatAt, At, SeatingOk, HostJoins, Shows;
    var two := AGENTS[..2];
    SeatsAlone(map[], AGENTS, TWO_AGENTS);
    TwoAgentsLeakASlot();
    SeatsAlone(map[], two, [Join(1, EDGE_X, []), Join(2, EDGE_X, [])]);
    SecondAgent();
    AgentsSit();
    var b := After(map[], two);
    assert FirstPort(b.seats.order, b.seats.identOf, EDGE_X) == Some(1) by { assert b.seats == BOTH_AGENTS; }
    AgentMoves(b);
    assert After(map[], AGENTS) == Done(b, AGENTS[2]) by { LastDone(map[], AGENTS); }
  }

  lemma LastDone(memory: map<Ident, nat>, deeds: seq<Deed>)
    requires deeds != []
    ensures After(memory, deeds) == Done(After(memory, deeds[..|deeds| - 1]), deeds[|deeds| - 1])
  {
  }

  lemma AgentsSit()
    ensures LayoutOk(After(map[], AGENTS[..2]))
  {
    hide LayoutOk, HostJoins, Seated;
    FirstAgent();
    SeatsAlone(map[], AGENTS[..1], [Join(1, EDGE_X, [])]);
    EmptyOk(map[]);
    DoneOkIff(After(map[], []), AGENTS[0]);
    assert AGENTS[..1][..0] == [] && AGENTS[..2][..1] == AGENTS[..1];
    DoneOkIff(After(map[], AGENTS[..1]), AGENTS[1]);
  }

  lemma AgentMoves(b: Layout)
    requires LayoutOk(b) && b.seats == BOTH_AGENTS && FirstPort(b.seats.order, b.seats.identOf, EDGE_X) == Some(1)
    ensures var c := HostMoves(b, EDGE_X, 5); Shows(c.floor.cells, 2, 5) && Shows(c.floor.cells, 2, 1)
  {
    hide FloorOk, SeatingOk, At, SeatAt, FirstPort, MoveHost, SlotOf, Unseated, SeatsApart;
    var f := Unseated(b.floor, b.seats.placed, 1);
    SlotsInRange(b.seats);
    SlotsApart(b.seats);
    UnseatedKeeps(b.floor, b.seats.placed, 1);
    assert 2 in b.seats.placed - {1} && Shows(f.cells, 2, 1);
    PlacedCells(f, 2, 5);
    SlotTold(1);
    SlotTold(5);
  }
}
