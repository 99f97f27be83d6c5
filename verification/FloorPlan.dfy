/** The factory floor: single-cell machines, hosts on the perimeter, and multi-cell
  * switches whose ports are pairs of edge cells. */
module FloorPlan {
  import opened Basics

  const COLS: int := 28
  const ROWS: int := 16

  datatype Pos = Pos(col: int, row: int)

  /** A single-cell machine's saved configuration. */
  datatype Config =
    | Belt(dir: nat)
    | Crossing
    | FilterBox(matchDir: nat, defaultDir: nat, rule: string)
    | Hub
    | MeterBox(defaultDir: nat, overflowDir: nat, limit: int, mode: string)
    | MidiBox(dir: nat, cfg: string)
    | LearnBox(dir: nat, table: string, keyField: string)
    | LookupBox(dir: nat, missDir: nat, table: string, keyField: string)

  datatype Cell =
    | Machine(config: Config)
    | Body(app: nat)
    | Pending(app: nat)
    | LaneIn(app: nat, index: nat)
    | LaneOut(app: nat, index: nat, dir: nat)
    | Roost(port: nat, facing: nat)
    | Landing(port: nat)

  /** A port: frames enter at one cell and leave at another. */
  datatype Lane = Lane(inAt: Pos, outAt: Pos, outDir: nat)

  datatype Appliance = Appliance(cells: set<Pos>, lanes: seq<Lane>, pending: Option<Pos>)

  datatype Floor = Floor(cells: map<Pos, Cell>, apps: map<nat, Appliance>, nextId: nat)

  const BARE := Floor(map[], map[], 1)

  predicate OfAppliance(c: Cell) { c.Body? || c.Pending? || c.LaneIn? || c.LaneOut? }

  predicate OfHost(c: Cell) { c.Roost? || c.Landing? }

  // ---- ports on edges ---------------------------------------------------------------

  /** The first open side: north, east, south, west. */
  function EdgeDir(cells: set<Pos>, p: Pos): Option<nat> {
    if Pos(p.col, p.row - 1) !in cells then Some(3)
    else if Pos(p.col + 1, p.row) !in cells then Some(0)
    else if Pos(p.col, p.row + 1) !in cells then Some(1)
    else if Pos(p.col - 1, p.row) !in cells then Some(2)
    else None
  }

  /** The lane a cell belongs to, or the number of lanes. */
  function LaneAt(lanes: seq<Lane>, p: Pos): (i: nat)
    ensures i <= |lanes| && (i < |lanes| ==> lanes[i].inAt == p || lanes[i].outAt == p)
    ensures forall j :: 0 <= j < i ==> lanes[j].inAt != p && lanes[j].outAt != p
    decreases |lanes|
  {
    if lanes == [] then 0
    else if lanes[0].inAt == p || lanes[0].outAt == p then 0
    else
      var i := LaneAt(lanes[1..], p);
      assert forall j :: 0 < j < 1 + i ==> lanes[j] == lanes[1..][j - 1];
      1 + i
  }

  /** What the floor should show at cell `p` of appliance `id`. */
  function CellIn(id: nat, a: Appliance, p: Pos): Cell {
    var i := LaneAt(a.lanes, p);
    if a.pending == Some(p) then Pending(id)
    else if i == |a.lanes| then Body(id)
    else if a.lanes[i].inAt == p then LaneIn(id, i)
    else LaneOut(id, i, a.lanes[i].outDir)
  }

  // ---- edits -----------------------------------------------------------------------------

  function RemoveAppliance(f: Floor, id: nat): Floor {
    if id !in f.apps then f else f.(cells := f.cells - f.apps[id].cells, apps := f.apps - {id})
  }

  /** Erasing any cell of a switch scraps the whole box; hosts are not machines. */
  function RemoveMachine(f: Floor, p: Pos): Floor {
    if p !in f.cells || OfHost(f.cells[p]) then f
    else if OfAppliance(f.cells[p]) then RemoveAppliance(f, f.cells[p].app)
    else f.(cells := f.cells - {p})
  }

  function SetMachine(f: Floor, p: Pos, c: Config): Floor {
    if p in f.cells && OfHost(f.cells[p]) then f
    else var g := RemoveMachine(f, p); g.(cells := g.cells[p := Machine(c)])
  }

  function RemoveAll(f: Floor, ps: seq<Pos>): Floor {
    if ps == [] then f else RemoveMachine(RemoveAll(f, ps[..|ps| - 1]), ps[|ps| - 1])
  }

  predicate InRect(p: Pos, c0: int, r0: int, c1: int, r1: int) {
    Max(0, Min(c0, c1)) <= p.col <= Min(COLS - 1, Max(c0, c1)) && Max(0, Min(r0, r1)) <= p.row <= Min(ROWS - 1, Max(r0, r1))
  }

  function Column(c: int, r: int, r1: int): (ps: seq<Pos>)
    ensures forall p :: p in ps <==> p.col == c && r <= p.row <= r1
    decreases r1 - r
  {
    if r > r1 then [] else [Pos(c, r)] + Column(c, r + 1, r1)
  }

  function Columns(c: int, c1: int, r0: int, r1: int): (ps: seq<Pos>)
    ensures forall p :: p in ps <==> c <= p.col <= c1 && r0 <= p.row <= r1
    decreases c1 - c
  {
    if c > c1 then [] else Column(c, r0, r1) + Columns(c + 1, c1, r0, r1)
  }

  /** The clipped rectangle, column by column. */
  function Rect(c0: int, r0: int, c1: int, r1: int): (ps: seq<Pos>)
    ensures forall p :: p in ps <==> InRect(p, c0, r0, c1, r1)
  {
    Columns(Max(0, Min(c0, c1)), Min(COLS - 1, Max(c0, c1)), Max(0, Min(r0, r1)), Min(ROWS - 1, Max(r0, r1)))
  }

  /** The rectangle, stepping around hosts. */
  function Footprint(f: Floor, c0: int, r0: int, c1: int, r1: int): set<Pos> {
    set p | p in Rect(c0, r0, c1, r1) && !(p in f.cells && OfHost(f.cells[p]))
  }

  function Install(f: Floor, cells: set<Pos>): Floor {
    f.(cells := f.cells + map p | p in cells :: Body(f.nextId),
       apps := f.apps[f.nextId := Appliance(cells, [], None)], nextId := f.nextId + 1)
  }

  /** Machines under the footprint go first; a switch needs two cells. */
  function CreateSwitch(f: Floor, c0: int, r0: int, c1: int, r1: int): Floor {
    var cells := Footprint(f, c0, r0, c1, r1);
    if |cells| < 2 then f else Install(RemoveAll(f, Rect(c0, r0, c1, r1)), cells)
  }

  function DrawLanes(cells: map<Pos, Cell>, id: nat, lanes: seq<Lane>, from: nat): map<Pos, Cell>
    requires from <= |lanes|
    decreases |lanes| - from
  {
    if from == |lanes| then cells
    else DrawLanes(cells[lanes[from].inAt := LaneIn(id, from)][lanes[from].outAt := LaneOut(id, from, lanes[from].outDir)], id, lanes, from + 1)
  }

  /** Remove the lane, then renumber and redraw the rest. */
  function RemoveLane(f: Floor, id: nat, i: nat): Floor
    requires id in f.apps && i < |f.apps[id].lanes|
  {
    var a := f.apps[id];
    var lanes := a.lanes[..i] + a.lanes[i + 1..];
    var cells := f.cells[a.lanes[i].inAt := Body(id)][a.lanes[i].outAt := Body(id)];
    f.(cells := DrawLanes(cells, id, lanes, 0), apps := f.apps[id := a.(lanes := lanes)])
  }

  /** First click: the lane in. Second click: the lane out. A click on a port removes it. */
  function TogglePort(f: Floor, id: nat, p: Pos): Floor {
    if id !in f.apps || p !in f.apps[id].cells then f else
    var a := f.apps[id];
    match EdgeDir(a.cells, p)
    case None => f
    case Some(dir) =>
      var i := LaneAt(a.lanes, p);
      if i < |a.lanes| then RemoveLane(f, id, i)
      else
        match a.pending
        case None => f.(cells := f.cells[p := Pending(id)], apps := f.apps[id := a.(pending := Some(p))])
        case Some(q) =>
          if q == p then f
          else f.(cells := f.cells[q := LaneIn(id, |a.lanes|)][p := LaneOut(id, |a.lanes|, dir)],
                  apps := f.apps[id := a.(lanes := a.lanes + [Lane(q, p, dir)], pending := None)])
  }

  /** A host wins its slot: machines on it are scrapped. */
  function PlaceHost(f: Floor, roost: Pos, landing: Pos, port: nat, facing: nat): Floor {
    var g := RemoveMachine(RemoveMachine(f, roost), landing);
    g.(cells := g.cells[roost := Roost(port, facing)][landing := Landing(port)])
  }

  function Unhost(f: Floor, p: Pos): Floor { if p in f.cells && OfHost(f.cells[p]) then f.(cells := f.cells - {p}) else f }

  function RemoveHost(f: Floor, roost: Pos, landing: Pos): Floor { Unhost(Unhost(f, roost), landing) }

  // ---- the representation invariant ------------------------------------------------------------

  ghost predicate LanesApart(lanes: seq<Lane>) {
    && (forall i :: 0 <= i < |lanes| ==> lanes[i].inAt != lanes[i].outAt)
    && (forall i, j :: 0 <= i < j < |lanes| ==>
          lanes[i].inAt != lanes[j].inAt && lanes[i].inAt != lanes[j].outAt && lanes[i].outAt != lanes[j].inAt && lanes[i].outAt != lanes[j].outAt)
  }

  ghost predicate LanesOnEdges(cells: set<Pos>, lanes: seq<Lane>) {
    forall i :: 0 <= i < |lanes| ==>
      && lanes[i].inAt in cells && EdgeDir(cells, lanes[i].inAt).Some?
      && lanes[i].outAt in cells && EdgeDir(cells, lanes[i].outAt) == Some(lanes[i].outDir)
  }

  ghost predicate WellPlaced(a: Appliance) {
    && LanesApart(a.lanes) && LanesOnEdges(a.cells, a.lanes)
    && (a.pending.Some? ==> a.pending.value in a.cells && EdgeDir(a.cells, a.pending.value).Some? && LaneAt(a.lanes, a.pending.value) == |a.lanes|)
  }

  /** Each appliance is drawn as it is recorded. */
  ghost predicate Drawn(cells: map<Pos, Cell>, id: nat, a: Appliance) {
    forall p :: p in a.cells ==> p in cells && cells[p] == CellIn(id, a, p)
  }

  ghost predicate AppsOk(cells: map<Pos, Cell>, apps: map<nat, Appliance>, nextId: nat) {
    forall id :: id in apps ==> id < nextId && WellPlaced(apps[id]) && Drawn(cells, id, apps[id])
  }

  /** Every appliance cell belongs to a live appliance. */
  ghost predicate CellsOwned(cells: map<Pos, Cell>, apps: map<nat, Appliance>) {
    forall p :: p in cells && OfAppliance(cells[p]) ==> cells[p].app in apps && p in apps[cells[p].app].cells
  }

  ghost predicate FloorOk(f: Floor) { AppsOk(f.cells, f.apps, f.nextId) && CellsOwned(f.cells, f.apps) }
}
