/** Where each kind of cell sends a pigeon, told by the cells it comes from and goes to. */
module PigeonRouting {
  import opened Basics
  import opened FloorPlan
  import opened FloorEdits
  import opened PigeonWalk

  /** Direction 0 is east, 1 south, 2 west, 3 north. */
  predicate Heads(from: Pos, to: Pos, dir: nat) {
    || (dir == 0 && to == Pos(from.col + 1, from.row))
    || (dir == 1 && to == Pos(from.col, from.row + 1))
    || (dir == 2 && to == Pos(from.col - 1, from.row))
    || (dir == 3 && to == Pos(from.col, from.row - 1))
  }

  /** A bird between two neighbouring cells, heading from the one to the other. */
  predicate OnItsWay(b: Bird) { b.Riding? && Heads(b.at, b.to, b.travelDir) }

  /** It arrives at the next cell and is sent on towards `to`, or waits if that is solid. */
  ghost predicate SentTo(f: Floor, env: Senses, b: Bird, to: Pos, dir: nat, clones: seq<Emission>)
    requires b.Riding?
  {
    var w := Advance(f, env, b, 1);
    && w.visited == [b.to] && w.fate == Going && w.clones == clones
    && w.bird == if Solid(f, to) then Waiting(b.to, b.travelDir) else Riding(b.to, to, dir)
  }

  lemma StepHeads(p: Pos, q: Pos, dir: nat)
    requires dir < 4
    ensures Step(p, dir) == q <==> Heads(p, q, dir)
  {
  }

  /** From anything but a roost a pigeon may go wherever it is not solid. */
  lemma MayEnterIff(f: Floor, here: Pos, to: Pos)
    requires here in f.cells && !f.cells[here].Roost?
    ensures MayEnter(f, here, to) <==> !Solid(f, to)
  {
  }

  lemma OneArrival(f: Floor, env: Senses, b: Bird)
    requires b.Riding?
    ensures var w := Leave(f, env, b.to, b.travelDir);
            Advance(f, env, b, 1) == Walk(w.bird, w.fate, w.clones, [b.to])
  {
    hide Leave;
    var w := Leave(f, env, b.to, b.travelDir);
    assert Advance(f, env, w.bird, 0) == Walk(w.bird, Going, [], []);
    assert w.clones + [] == w.clones && [b.to] + [] == [b.to];
  }

  /** A cell that emits one way only. */
  lemma OneWay(f: Floor, env: Senses, b: Bird, to: Pos, dir: nat)
    requires b.Riding? && b.to in f.cells && !f.cells[b.to].Roost? && dir < 4 && Heads(b.to, to, dir)
    requires RouteFrom(f, env, b.to, b.travelDir) == Emit([Emission(b.to, dir)])
    ensures SentTo(f, env, b, to, dir, [])
  {
    hide RouteFrom, MayEnter, Solid, Step;
    OneArrival(f, env, b);
    StepHeads(b.to, to, dir);
    MayEnterIff(f, b.to, to);
  }

  // ---- machines -----------------------------------------------------------------------------

  /** Straight across a crossing, into the cell opposite the one it came from. */
  lemma CrossingGoesStraight(f: Floor, env: Senses, b: Bird)
    requires OnItsWay(b) && b.to in f.cells && f.cells[b.to] == Machine(Crossing)
    ensures SentTo(f, env, b, Pos(2 * b.to.col - b.at.col, 2 * b.to.row - b.at.row), b.travelDir, [])
  {
    hide SentTo;
    OneWay(f, env, b, Pos(2 * b.to.col - b.at.col, 2 * b.to.row - b.at.row), b.travelDir);
  }

  /** Off a belt, and on from a MIDI or learn box, the way it is set. */
  lemma BeltGoesItsWay(f: Floor, env: Senses, b: Bird, dir: nat, to: Pos)
    requires b.Riding? && b.to in f.cells && f.cells[b.to].Machine? && dir < 4 && Heads(b.to, to, dir)
    requires var c := f.cells[b.to].config; (c.Belt? || c.MidiBox? || c.LearnBox?) && c.dir == dir
    ensures SentTo(f, env, b, to, dir, [])
  {
    hide SentTo;
    OneWay(f, env, b, to, dir);
  }

  /** A filter has two ways: the one for what it matches, and the other. */
  lemma FilterHasTwoWays(f: Floor, env: Senses, b: Bird, to: Pos, dir: nat)
    requires b.Riding? && b.to in f.cells && f.cells[b.to].Machine? && f.cells[b.to].config.FilterBox? && dir < 4 && Heads(b.to, to, dir)
    requires var c := f.cells[b.to].config; if env.matches(b.to) then dir == c.matchDir else dir == c.defaultDir
    ensures SentTo(f, env, b, to, dir, [])
  {
    hide SentTo;
    OneWay(f, env, b, to, dir);
  }

  /** So has a meter: within its limit, and over it. */
  lemma MeterHasTwoWays(f: Floor, env: Senses, b: Bird, to: Pos, dir: nat)
    requires b.Riding? && b.to in f.cells && f.cells[b.to].Machine? && f.cells[b.to].config.MeterBox? && dir < 4 && Heads(b.to, to, dir)
    requires var c := f.cells[b.to].config; if env.passes(b.to) then dir == c.defaultDir else dir == c.overflowDir
    ensures SentTo(f, env, b, to, dir, [])
  {
    hide SentTo;
    OneWay(f, env, b, to, dir);
  }

  /** A lookup sends it where its table says, and a miss the way set for misses. */
  lemma LookupGoesWhereStored(f: Floor, env: Senses, b: Bird, to: Pos, dir: nat)
    requires b.Riding? && b.to in f.cells && f.cells[b.to].Machine? && f.cells[b.to].config.LookupBox? && dir < 4 && Heads(b.to, to, dir)
    requires env.stored(b.to) == Some(dir) || (env.stored(b.to) == None && f.cells[b.to].config.missDir == dir)
    ensures SentTo(f, env, b, to, dir, [])
  {
    hide SentTo;
    OneWay(f, env, b, to, dir);
  }

  /** The three ways on from a hub, in order: every way but back. */
  predicate WaysOn(at: Pos, p: Pos, x: nat, y: nat, z: nat) {
    x < y < z < 4 && forall d: nat :: d < 4 ==> (d == x || d == y || d == z <==> !Heads(p, at, d))
  }

  /** A hub sends it the first of the three ways that are not back, and asks for a clone
    * each way of the other two. */
  lemma HubGoesEveryWay(f: Floor, env: Senses, b: Bird, x: nat, y: nat, z: nat, to: Pos)
    requires OnItsWay(b) && b.to in f.cells && f.cells[b.to] == Machine(Hub) && WaysOn(b.at, b.to, x, y, z) && Heads(b.to, to, x)
    ensures SentTo(f, env, b, to, x, [Emission(b.to, y), Emission(b.to, z)])
  {
    hide MayEnter, Solid, Step;
    var p, back := b.to, (b.travelDir + 2) % 4;
    assert Heads(p, b.at, back);
    assert forall d: nat :: d < 4 && Heads(p, b.at, d) ==> d == back;
    TheThree(back, x, y, z) by { NotBack(b.at, p, back, x, y, z); }
    assert HubExits(b.travelDir) == [x, y, z];
    var es := EmitAll(p, [x, y, z]);
    assert es == [Emission(p, x), Emission(p, y), Emission(p, z)] && es[1..] == [Emission(p, y), Emission(p, z)];
    OneArrival(f, env, b);
    StepHeads(p, to, x);
    MayEnterIff(f, p, to);
  }

  lemma NotBack(at: Pos, p: Pos, back: nat, x: nat, y: nat, z: nat)
    requires WaysOn(at, p, x, y, z) && back < 4 && Heads(p, at, back)
    ensures x < y < z < 4 && x != back && y != back && z != back
  {
    assert back == back;
  }

  lemma TheThree(back: nat, x: nat, y: nat, z: nat)
    requires back < 4 && x < y < z < 4 && x != back && y != back && z != back
    ensures [x, y, z] == (if back != 0 then [0] else []) + (if back != 1 then [1] else []) + (if back != 2 then [2] else []) + (if back != 3 then [3] else [])
  {
  }

  // ---- hosts, ports and bare floor -------------------------------------------------------------

  /** On a landing pad it lands, at that pad's port. */
  lemma PadLandsIt(f: Floor, env: Senses, b: Bird)
    requires b.Riding? && b.to in f.cells && f.cells[b.to].Landing?
    ensures Advance(f, env, b, 1) == Walk(Waiting(b.to, b.travelDir), Landed(f.cells[b.to].port), [], [b.to])
  {
    OneArrival(f, env, b);
  }

  /** On bare floor there is nowhere to go yet. */
  lemma BareFloorHoldsIt(f: Floor, env: Senses, b: Bird)
    requires b.Riding? && b.to !in f.cells
    ensures Advance(f, env, b, 1) == Walk(Waiting(b.to, b.travelDir), Going, [], [b.to])
  {
    OneArrival(f, env, b);
  }

  /** On its way out of a port, or waiting in it. */
  ghost function OutOf(f: Floor, e: Emission, travelDir: nat): Bird {
    if Solid(f, Step(e.at, e.dir)) then Waiting(e.at, travelDir) else Riding(e.at, Step(e.at, e.dir), e.dir)
  }

  /** Into a switch: it comes out of the first port decided on that is there, a clone out of
    * each of the others, or falls if there is none. */
  lemma ThroughASwitch(f: Floor, env: Senses, b: Bird)
    requires FloorOk(f) && b.Riding? && b.to in f.cells && f.cells[b.to].LaneIn?
    ensures var w, r := Advance(f, env, b, 1), RouteFrom(f, env, b.to, b.travelDir);
            && w.visited == [b.to]
            && (r == DropHere ==> w.fate == Fallen && w.clones == [])
            && (r == DropHere || (r.Emit? && r.emissions != []))
            && (r.Emit? ==> w.fate == Going && w.clones == r.emissions[1..] && w.bird == OutOf(f, r.emissions[0], b.travelDir))
  {
    hide FloorOk, MayEnter, Solid, Step;
    OneArrival(f, env, b);
    var r := RouteFrom(f, env, b.to, b.travelDir);
    if r.Emit? {
      SwitchEmitsAtItsPorts(f, env, b.to, b.travelDir, r.emissions[0]);
      assert r.emissions[0] in r.emissions;
      var e := r.emissions[0];
      assert e.at in f.cells && f.cells[e.at].LaneOut?;
      MayEnterIff(f, e.at, Step(e.at, e.dir));
    }
  }

  /** Out of a roost it sets off the way the roost faces, if something is built there. */
  lemma RoostLetsItOut(f: Floor, env: Senses, p: Pos, travelDir: nat, to: Pos)
    requires p in f.cells && f.cells[p].Roost? && f.cells[p].facing < 4 && Heads(p, to, f.cells[p].facing)
    ensures Start(f, env, Waiting(p, travelDir))
         == Walk(if to in f.cells && !Solid(f, to) then Riding(p, to, f.cells[p].facing) else Waiting(p, travelDir), Going, [], [])
  {
    StepHeads(p, to, f.cells[p].facing);
  }

  /** A waiting pigeon tries again just as if it had only now arrived. */
  lemma WaitingTriesAgain(f: Floor, env: Senses, from: Pos, p: Pos, travelDir: nat)
    requires p !in f.cells || !f.cells[p].Landing?
    ensures var w := Advance(f, env, Riding(from, p, travelDir), 1);
            Start(f, env, Waiting(p, travelDir)) == Walk(w.bird, w.fate, w.clones, [])
  {
    OneArrival(f, env, Riding(from, p, travelDir));
    LeaveVisitsNone(f, env, p, travelDir);
  }

  /** The directions a machine is set to are four. */
  predicate SetFourWays(c: Config) {
    match c
    case Belt(dir) => dir < 4
    case FilterBox(a, b, _) => a < 4 && b < 4
    case MeterBox(a, b, _, _) => a < 4 && b < 4
    case MidiBox(dir, _) => dir < 4
    case LearnBox(dir, _, _) => dir < 4
    case LookupBox(_, dir, _, _) => dir < 4
    case _ => true
  }

  /** So are those on the floor, and those stored in tables. */
  ghost predicate FourWays(f: Floor, env: Senses) {
    && (forall p :: p in f.cells && f.cells[p].Machine? ==> SetFourWays(f.cells[p].config))
    && (forall p :: p in f.cells && f.cells[p].Roost? ==> f.cells[p].facing < 4)
    && (forall p :: env.stored(p).Some? ==> env.stored(p).value < 4)
  }

  lemma EmitsFourWays(f: Floor, env: Senses, p: Pos, travelDir: nat, e: Emission)
    requires FloorOk(f) && FourWays(f, env) && travelDir < 4
    requires RouteFrom(f, env, p, travelDir).Emit? && e in RouteFrom(f, env, p, travelDir).emissions
    ensures e.dir < 4
  {
    hide FloorOk, LooksOut;
    if f.cells[p].LaneIn? {
      SwitchEmitsAtItsPorts(f, env, p, travelDir, e);
      LookingOut(f.apps[f.cells[p].app].cells, e.at, e.dir);
    }
  }

  lemma LookingOut(cells: set<Pos>, p: Pos, dir: nat)
    requires LooksOut(cells, p, dir)
    ensures dir < 4
  {
  }

  lemma LeavesHeading(f: Floor, env: Senses, p: Pos, travelDir: nat)
    requires FloorOk(f) && FourWays(f, env) && travelDir < 4
    ensures var w := Leave(f, env, p, travelDir); w.bird.travelDir < 4 && (w.bird.Riding? ==> OnItsWay(w.bird))
  {
    hide FloorOk, FourWays, RouteFrom, MayEnter, Step, Heads;
    var r := RouteFrom(f, env, p, travelDir);
    if r.Emit? && r.emissions != [] {
      var e := r.emissions[0];
      EmitsFourWays(f, env, p, travelDir, e);
      StepHeads(e.at, Step(e.at, e.dir), e.dir);
    }
  }

  /** However far it goes, a pigeon rides from a cell to its neighbour, in the direction it
    * travels; through a switch it starts again at the way out. */
  lemma {:induction false} AlwaysOnItsWay(f: Floor, env: Senses, b: Bird, n: nat)
    requires FloorOk(f) && FourWays(f, env) && b.travelDir < 4 && (b.Riding? ==> OnItsWay(b))
    ensures var w := Advance(f, env, b, n); w.bird.travelDir < 4 && (w.bird.Riding? ==> OnItsWay(w.bird))
    decreases n
  {
    hide FloorOk, FourWays, Leave, Heads;
    if n > 0 && b.Riding? {
      LeavesHeading(f, env, b.to, b.travelDir);
      var w := Leave(f, env, b.to, b.travelDir);
      if w.fate == Going { AlwaysOnItsWay(f, env, w.bird, n - 1); }
    }
  }
}
