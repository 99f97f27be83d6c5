/** How a pigeon moves over the floor: every machine it enters says where to emit it,
  * every segment is checked before it is begun, and every cell it arrives at counts. */
module PigeonWalk {
  import opened Basics
  import opened FloorPlan
  import opened FloorEdits

  const MAX_STEPS: real := 512.0

  datatype Emission = Emission(at: Pos, dir: nat)

  datatype Routing = Emit(emissions: seq<Emission>) | LandAt(port: nat) | DropHere | WaitHere

  /** What depends on the frame and on machine state: whether a filter matches it or a meter
    * passes it, what a lookup has stored for it, and which ports a switch sends it out of. */
  datatype Senses = Senses(matches: Pos -> bool, passes: Pos -> bool, stored: Pos -> Option<nat>, exits: (nat, nat) -> seq<nat>)

  function Step(p: Pos, dir: nat): Pos {
    match dir % 4
    case 0 => Pos(p.col + 1, p.row)
    case 1 => Pos(p.col, p.row + 1)
    case 2 => Pos(p.col - 1, p.row)
    case _ => Pos(p.col, p.row - 1)
  }

  predicate OnFloor(p: Pos) { 0 <= p.col < COLS && 0 <= p.row < ROWS }

  /** Every way but back. */
  function HubExits(travelDir: nat): seq<nat> {
    var back := (travelDir + 2) % 4;
    (if back != 0 then [0] else []) + (if back != 1 then [1] else []) + (if back != 2 then [2] else []) + (if back != 3 then [3] else [])
  }

  function EmitAll(p: Pos, dirs: seq<nat>): seq<Emission> { seq(|dirs|, i requires 0 <= i < |dirs| => Emission(p, dirs[i])) }

  /** At the way out of every exit port that is still there. */
  function EmitAtPorts(lanes: seq<Lane>, exits: seq<nat>): seq<Emission> {
    if exits == [] then []
    else (if exits[0] < |lanes| then [Emission(lanes[exits[0]].outAt, lanes[exits[0]].outDir)] else []) + EmitAtPorts(lanes, exits[1..])
  }

  function RouteMachine(env: Senses, p: Pos, travelDir: nat, c: Config): Routing {
    match c
    case Belt(dir) => Emit([Emission(p, dir)])
    case Crossing => Emit([Emission(p, travelDir)])
    case Hub => Emit(EmitAll(p, HubExits(travelDir)))
    case MidiBox(dir, _) => Emit([Emission(p, dir)])
    case LearnBox(dir, _, _) => Emit([Emission(p, dir)])
    case FilterBox(matchDir, defaultDir, _) => Emit([Emission(p, if env.matches(p) then matchDir else defaultDir)])
    case MeterBox(defaultDir, overflowDir, _, _) => Emit([Emission(p, if env.passes(p) then defaultDir else overflowDir)])
    case LookupBox(_, missDir, _, _) => Emit([Emission(p, match env.stored(p) case Some(dir) => dir case None => missDir)])
  }

  function RouteFrom(f: Floor, env: Senses, p: Pos, travelDir: nat): Routing {
    if p !in f.cells then WaitHere else
    match f.cells[p]
    case Machine(c) => RouteMachine(env, p, travelDir, c)
    case LaneIn(id, index) =>
      if id !in f.apps then DropHere else
      var es := EmitAtPorts(f.apps[id].lanes, env.exits(id, index));
      if es == [] then DropHere else Emit(es)
    case LaneOut(_, _, dir) => if travelDir == dir then Emit([Emission(p, dir)]) else WaitHere
    case Body(_) => WaitHere
    case Pending(_) => WaitHere
    case Roost(_, facing) => Emit([Emission(p, facing)])
    case Landing(port) => LandAt(port)
  }

  /** A segment may begin onto the floor, and into nothing solid. */
  predicate MayEnter(f: Floor, here: Pos, to: Pos) {
    && OnFloor(to)
    && (to in f.cells ==> !f.cells[to].Roost? && !f.cells[to].Body? && !f.cells[to].Pending? && !f.cells[to].LaneOut?)
    && !(here in f.cells && f.cells[here].Roost? && to !in f.cells)
  }

  /** Riding, it is between `at` and `to`. */
  datatype Bird = Waiting(at: Pos, travelDir: nat) | Riding(at: Pos, to: Pos, travelDir: nat)

  datatype Fate = Going | Landed(port: nat) | Fallen

  /** A bird, what became of it, and the clones it asked for on the way. */
  datatype Walk = Walk(bird: Bird, fate: Fate, clones: seq<Emission>, visited: seq<Pos>)

  /** Take the first emission and clone the rest; wait if the way is blocked. */
  function Take(f: Floor, es: seq<Emission>, travelDir: nat): Bird
    requires es != []
  {
    var e := es[0];
    var to := Step(e.at, e.dir);
    if MayEnter(f, e.at, to) then Riding(e.at, to, e.dir) else Waiting(e.at, travelDir)
  }

  /** Routed at the cell it stands on. */
  function Leave(f: Floor, env: Senses, p: Pos, travelDir: nat): Walk {
    match RouteFrom(f, env, p, travelDir)
    case LandAt(port) => Walk(Waiting(p, travelDir), Landed(port), [], [])
    case DropHere => Walk(Waiting(p, travelDir), Fallen, [], [])
    case WaitHere => Walk(Waiting(p, travelDir), Going, [], [])
    case Emit(es) => if es == [] then Walk(Waiting(p, travelDir), Going, [], []) else Walk(Take(f, es, travelDir), Going, es[1..], [])
  }

  /** Arrive at the next `n` cells, or fewer if it lands, falls or has to wait. */
  function Advance(f: Floor, env: Senses, b: Bird, n: nat): Walk
    decreases n
  {
    if n == 0 || b.Waiting? then Walk(b, Going, [], []) else
    var w := Leave(f, env, b.to, b.travelDir);
    if w.fate != Going then Walk(w.bird, w.fate, w.clones, [b.to])
    else
      var rest := Advance(f, env, w.bird, n - 1);
      Walk(rest.bird, rest.fate, w.clones + rest.clones, [b.to] + rest.visited)
  }

  /** A waiting bird is routed where it stands; on a landing pad it just waits. */
  function Start(f: Floor, env: Senses, b: Bird): Walk {
    if b.Riding? then Walk(b, Going, [], []) else
    var w := Leave(f, env, b.at, b.travelDir);
    if w.fate.Landed? then Walk(b, Going, [], []) else w
  }

  datatype Flight = Flight(walk: Walk, progress: real)

  /** However fast, no more than so many cells in one tick. */
  function Travel(budget: real): real { if budget > MAX_STEPS then MAX_STEPS else budget }

  /** One tick: set out, then ride as many whole cells as are owed by now. */
  function Fly(f: Floor, env: Senses, b: Bird, progress: real, budget: real): Flight
    requires progress >= 0.0 && budget >= 0.0
  {
    var start := Start(f, env, b);
    if start.fate != Going || start.bird.Waiting? then Flight(start, progress)
    else
      var owed := progress + Travel(budget);
      var w := Advance(f, env, start.bird, owed.Floor);
      Flight(Prefixed(start.clones, [], w), if w.bird.Waiting? then 0.0 else owed - owed.Floor as real)
  }

  /** A walk with more before it. */
  function Prefixed(clones: seq<Emission>, visited: seq<Pos>, w: Walk): Walk {
    Walk(w.bird, w.fate, clones + w.clones, visited + w.visited)
  }

  lemma LeaveVisitsNone(f: Floor, env: Senses, p: Pos, travelDir: nat)
    ensures Leave(f, env, p, travelDir).visited == []
  {
    hide RouteFrom, Take;
  }

  // ---- where it can ever be ------------------------------------------------------------------

  ghost predicate Solid(f: Floor, p: Pos) {
    !(0 <= p.col <= 27 && 0 <= p.row <= 15) || (p in f.cells && (f.cells[p].Roost? || f.cells[p].Body? || f.cells[p].Pending? || f.cells[p].LaneOut?))
  }

  ghost predicate Aloft(f: Floor, b: Bird) { b.Riding? ==> !Solid(f, b.to) }

  lemma LeaveAloft(f: Floor, env: Senses, p: Pos, travelDir: nat)
    ensures Aloft(f, Leave(f, env, p, travelDir).bird)
  {
    hide RouteFrom, Step;
  }

  /** A pigeon never arrives anywhere solid or off the floor; it lands only on a
    * landing pad, with that pad's port, and falls only at a switch that filtered it. */
  lemma {:induction false} NeverInsideAWall(f: Floor, env: Senses, b: Bird, n: nat)
    requires Aloft(f, b)
    ensures var w := Advance(f, env, b, n);
            && (forall k :: 0 <= k < |w.visited| ==> !Solid(f, w.visited[k]))
            && Aloft(f, w.bird) && |w.visited| <= n
            && (w.fate.Landed? ==> w.visited != [] && w.visited[|w.visited| - 1] in f.cells && f.cells[w.visited[|w.visited| - 1]] == Landing(w.fate.port))
            && (w.fate.Fallen? ==> w.visited != [] && w.visited[|w.visited| - 1] in f.cells && f.cells[w.visited[|w.visited| - 1]].LaneIn?)
    decreases n
  {
    hide Take, Solid;
    if n > 0 && b.Riding? {
      var w := Leave(f, env, b.to, b.travelDir);
      LeaveAloft(f, env, b.to, b.travelDir);
      if w.fate == Going { NeverInsideAWall(f, env, w.bird, n - 1); }
    }
  }

  /** While it keeps riding, it arrives at exactly as many cells as it was given: none
    * is stepped over, at any speed. */
  lemma {:induction false} NoCellSkipped(f: Floor, env: Senses, b: Bird, n: nat)
    requires b.Riding?
    ensures var w := Advance(f, env, b, n);
            && (w.bird.Riding? && w.fate == Going ==> |w.visited| == n)
            && (n > 0 ==> w.visited != [] && w.visited[0] == b.to)
    decreases n
  {
    hide RouteFrom, Take;
    if n > 0 {
      var w := Leave(f, env, b.to, b.travelDir);
      if w.fate == Going {
        if w.bird.Riding? { NoCellSkipped(f, env, w.bird, n - 1); }
      } else {
        StoppedWaits(f, env, b.to, b.travelDir);
      }
    }
  }

  lemma StoppedWaits(f: Floor, env: Senses, p: Pos, travelDir: nat)
    ensures Leave(f, env, p, travelDir).fate != Going ==> Leave(f, env, p, travelDir).bird.Waiting?
  {
    hide RouteFrom, Take;
  }

  /** Speed does not change the way: covering `n` cells and then `m` more is covering
    * `n + m` at once, clones, path and end alike. */
  lemma {:induction false} AnySpeedSameWay(f: Floor, env: Senses, b: Bird, n: nat, m: nat)
    ensures var w := Advance(f, env, b, n);
            Advance(f, env, b, n + m) ==
              if w.fate != Going then w
              else var x := Advance(f, env, w.bird, m); Walk(x.bird, x.fate, w.clones + x.clones, w.visited + x.visited)
    decreases n
  {
    hide Leave;
    if n == 0 || b.Waiting? {
      var x := Advance(f, env, b, m);
      assert [] + x.clones == x.clones && [] + x.visited == x.visited;
    } else {
      var w := Leave(f, env, b.to, b.travelDir);
      if w.fate == Going {
        AnySpeedSameWay(f, env, w.bird, n - 1, m);
        var a := Advance(f, env, w.bird, n - 1);
        OneCell(f, env, b, n);
        OneCell(f, env, b, n + m);
        if a.fate == Going { PrefixedTwice(w.clones, [b.to], a.clones, a.visited, Advance(f, env, a.bird, m)); }
      }
    }
  }

  /** The first cell, and then the rest. */
  lemma OneCell(f: Floor, env: Senses, b: Bird, n: nat)
    requires n > 0 && b.Riding? && Leave(f, env, b.to, b.travelDir).fate == Going
    ensures var w := Leave(f, env, b.to, b.travelDir);
            Advance(f, env, b, n) == Prefixed(w.clones, [b.to], Advance(f, env, w.bird, n - 1))
  {
    hide Leave;
  }

  lemma PrefixedTwice(clones: seq<Emission>, visited: seq<Pos>, more: seq<Emission>, on: seq<Pos>, x: Walk)
    ensures Prefixed(clones, visited, Walk(x.bird, x.fate, more + x.clones, on + x.visited)) == Walk(x.bird, x.fate, clones + more + x.clones, visited + on + x.visited)
  {
    assert clones + (more + x.clones) == clones + more + x.clones;
    assert visited + (on + x.visited) == visited + on + x.visited;
  }

  // ---- through a switch -------------------------------------------------------------------------

  lemma {:induction false} PortEmission(lanes: seq<Lane>, exits: seq<nat>, e: Emission)
    ensures e in EmitAtPorts(lanes, exits) <==> exists i :: i in exits && i < |lanes| && e == Emission(lanes[i].outAt, lanes[i].outDir)
    decreases |exits|
  {
    if exits != [] {
      PortEmission(lanes, exits[1..], e);
      assert forall i :: i in exits <==> i == exits[0] || i in exits[1..];
    }
  }

  /** What a switch emits it emits at way-out cells of that very switch, each drawn with
    * its own number and direction, once for every port it decided on that is there; and
    * what it emits never steps back into it. */
  lemma SwitchEmitsAtItsPorts(f: Floor, env: Senses, p: Pos, travelDir: nat, e: Emission)
    requires FloorOk(f) && p in f.cells && f.cells[p].LaneIn?
    ensures var id, r := f.cells[p].app, RouteFrom(f, env, p, travelDir);
            && id in f.apps && (r == DropHere || (r.Emit? && r.emissions != []))
            && ((r.Emit? && e in r.emissions) <==>
                  e.at in f.apps[id].cells && e.at in f.cells && exists i :: i in env.exits(id, f.cells[p].index) && f.cells[e.at] == LaneOut(id, i, e.dir))
            && (r.Emit? && e in r.emissions ==> LooksOut(f.apps[id].cells, e.at, e.dir) && Step(e.at, e.dir) !in f.apps[id].cells)
  {
    hide EdgeDir, LaneAt, LanesApart, CellIn, LooksOut, OnRim;
    var id := f.cells[p].app;
    assert OfAppliance(f.cells[p]);
    var a := f.apps[id];
    PortEmission(a.lanes, env.exits(id, f.cells[p].index), e);
    assert WellPlaced(a) && Drawn(f.cells, id, a);
    LanesLook(a);
    var r := RouteFrom(f, env, p, travelDir);
    if r.Emit? && e in r.emissions {
      var i :| i in env.exits(id, f.cells[p].index) && i < |a.lanes| && e == Emission(a.lanes[i].outAt, a.lanes[i].outDir);
      OutCell(id, a, i);
      StepsOut(a.cells, e.at, e.dir);
    }
    if e.at in a.cells && e.at in f.cells && exists i :: i in env.exits(id, f.cells[p].index) && f.cells[e.at] == LaneOut(id, i, e.dir) {
      var i :| i in env.exits(id, f.cells[p].index) && f.cells[e.at] == LaneOut(id, i, e.dir);
      OutLane(id, a, i, e.at, e.dir);
    }
  }

  lemma OutLane(id: nat, a: Appliance, i: nat, p: Pos, dir: nat)
    requires CellIn(id, a, p) == LaneOut(id, i, dir)
    ensures i < |a.lanes| && a.lanes[i].outAt == p && a.lanes[i].outDir == dir
  {
  }

  lemma StepsOut(cells: set<Pos>, p: Pos, dir: nat)
    requires LooksOut(cells, p, dir)
    ensures Step(p, dir) !in cells
  {
  }

  lemma OutCell(id: nat, a: Appliance, i: nat)
    requires WellPlaced(a) && i < |a.lanes|
    ensures CellIn(id, a, a.lanes[i].outAt) == LaneOut(id, i, a.lanes[i].outDir)
  {
    hide EdgeDir, LaneAt;
    LaneFound(a.lanes, a.lanes[i].outAt, i);
    assert a.pending != Some(a.lanes[i].outAt);
  }

  // ---- the pigeon object ----------------------------------------------------------------------------

  class Pigeon {
    var bird: Bird
    var progress: real

    /** Between ticks less than a cell is owed, and a waiting pigeon owes nothing. */
    ghost predicate Valid()
      reads this
    {
      0.0 <= progress < 1.0 && (bird.Waiting? ==> progress == 0.0)
    }

    constructor (roost: Pos)
      ensures Valid() && bird == Waiting(roost, 0)
    {
      bird, progress := Waiting(roost, 0), 0.0;
    }

    /** One tick with `budget` cells of travel. */
    method Update(f: Floor, env: Senses, budget: real) returns (fate: Fate, clones: seq<Emission>, ghost visited: seq<Pos>)
      requires Valid() && budget >= 0.0
      modifies this
      ensures var flight := Fly(f, env, old(bird), old(progress), budget);
              && Walk(bird, fate, clones, visited) == flight.walk
              && (fate == Going ==> progress == flight.progress)
      ensures fate == Going ==> Valid()
      ensures |visited| <= 512 + 1
    {
      hide Leave;
      clones, visited := [], [];
      ghost var start := Start(f, env, bird);
      if bird.Waiting? {
        var w := Leave(f, env, bird.at, bird.travelDir);
        if w.fate.Landed? { return Going, [], []; }
        LeaveVisitsNone(f, env, bird.at, bird.travelDir);
        clones := w.clones;
        bird := w.bird;
        if w.fate == Fallen || w.bird.Waiting? { return w.fate, clones, []; }
      }
      assert start == Walk(bird, Going, clones, []);
      progress := progress + if budget > 512.0 then 512.0 else budget;
      AdvanceBound(f, env, bird, progress.Floor);
      var more;
      fate, more, visited := Ride(f, env);
      clones := clones + more;
    }

    /** Spend whole cells of progress, one arrival each. */
    method Ride(f: Floor, env: Senses) returns (fate: Fate, clones: seq<Emission>, ghost visited: seq<Pos>)
      requires bird.Riding? && progress >= 0.0
      modifies this
      ensures var w := Advance(f, env, old(bird), old(progress).Floor);
              && fate == w.fate && clones == w.clones && bird == w.bird && visited == w.visited
              && (fate == Going ==> progress == if w.bird.Waiting? then 0.0 else old(progress) - old(progress).Floor as real)
      ensures fate == Going ==> Valid()
    {
      hide Leave;
      ghost var b0, n0, owed := bird, progress.Floor, progress - progress.Floor as real;
      clones, visited := [], [];
      while progress >= 1.0
        invariant bird.Riding? && progress >= 0.0 && progress - progress.Floor as real == owed
        invariant Prefixed(clones, visited, Advance(f, env, bird, progress.Floor)) == Advance(f, env, b0, n0)
        decreases progress.Floor
      {
        var w := Leave(f, env, bird.to, bird.travelDir);
        StoppedWaits(f, env, bird.to, bird.travelDir);
        PrefixedMore(clones, visited, w.clones, bird.to, Advance(f, env, w.bird, progress.Floor - 1));
        clones, visited := clones + w.clones, visited + [bird.to];
        assert (progress - 1.0).Floor == progress.Floor - 1;
        progress := progress - 1.0;
        bird := w.bird;
        if w.fate != Going { return w.fate, clones, visited; }
        if bird.Waiting? {
          progress := 0.0;
          assert clones + [] == clones && visited + [] == visited;
          return Going, clones, visited;
        }
      }
      assert clones + [] == clones && visited + [] == visited;
      fate := Going;
    }
  }

  lemma PrefixedMore(clones: seq<Emission>, visited: seq<Pos>, more: seq<Emission>, at: Pos, w: Walk)
    ensures Prefixed(clones, visited, Walk(w.bird, w.fate, more + w.clones, [at] + w.visited)) == Prefixed(clones + more, visited + [at], w)
    ensures Prefixed(clones, visited, Walk(w.bird, w.fate, more, [at])) == Walk(w.bird, w.fate, clones + more, visited + [at])
  {
    assert clones + (more + w.clones) == clones + more + w.clones;
    assert visited + ([at] + w.visited) == visited + [at] + w.visited;
  }

  lemma {:induction false} AdvanceBound(f: Floor, env: Senses, b: Bird, n: nat)
    ensures |Advance(f, env, b, n).visited| <= n
    decreases n
  {
    hide Leave;
    if n > 0 && b.Riding? {
      var w := Leave(f, env, b.to, b.travelDir);
      if w.fate == Going { AdvanceBound(f, env, w.bird, n - 1); }
    }
  }
}
