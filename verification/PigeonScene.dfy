/** A floor on which the full sky comes about: what every pigeon does there is worked
  * out cell by cell, and one frame is dropped twice while it flies and then delivered. */
module PigeonScene {
  import opened Basics
  import opened LoftCore
  import opened Cluster
  import opened Pigeons
  import opened PigeonLedger
  import opened PigeonRuns
  import opened FloorPlan
  import F = FloorEdits
  import R = Roosts
  import W = PigeonWalk

  // ---- from walks to outcomes ----------------------------------------------------------

  /** A clone takes off if the first segment of its way may be entered. */
  function Rides(f: Floor, clones: seq<W.Emission>): seq<bool> {
    seq(|clones|, k requires 0 <= k < |clones| => W.MayEnter(f, clones[k].at, W.Step(clones[k].at, clones[k].dir)))
  }

  function RetOf(fate: W.Fate): Ret {
    match fate
    case Going => Keep
    case Landed(port) => Land(port)
    case Fallen => Fall
  }

  /** What the game is told of a pigeon's tick. */
  function OutcomeOf(f: Floor, w: W.Walk): Outcome { Outcome(Rides(f, w.clones), RetOf(w.fate)) }

  /** A pigeon between ticks. */
  datatype Flyer = Flyer(bird: W.Bird, progress: real)

  function Flown(f: Floor, env: W.Senses, x: Flyer, budget: real): W.Flight
    requires x.progress >= 0.0 && budget >= 0.0
  {
    W.Fly(f, env, x.bird, x.progress, budget)
  }

  // ---- the floor ---------------------------------------------------------------------------

  /** Two hosts in the first two slots; a hub before one roost, and belts from it to
    * that host's own landing pad; nothing before the other roost. */
  const EDITS: seq<F.Edit> := [
    F.HostIn(R.At(0).roost, R.At(0).landing, 0, R.At(0).facing), F.HostIn(R.At(1).roost, R.At(1).landing, 1, R.At(1).facing),
    F.Set(Pos(1, 3), Hub), F.Set(Pos(2, 3), Belt(1)), F.Set(Pos(2, 4), Belt(1)), F.Set(Pos(2, 5), Belt(2)), F.Set(Pos(1, 5), Belt(2))]

  const SHOP := Floor(map[
    Pos(0, 3) := Roost(0, 0), Pos(0, 5) := Landing(0), Pos(27, 3) := Roost(1, 2), Pos(27, 5) := Landing(1),
    Pos(1, 3) := Machine(Hub), Pos(2, 3) := Machine(Belt(1)), Pos(2, 4) := Machine(Belt(1)),
    Pos(2, 5) := Machine(Belt(2)), Pos(1, 5) := Machine(Belt(2))], map[], 1)

  function Hosts(): Floor {
    BARE.(cells := map[Pos(0, 3) := Roost(0, 0), Pos(0, 5) := Landing(0), Pos(27, 3) := Roost(1, 2), Pos(27, 5) := Landing(1)])
  }

  /** A machine on a cell where nothing stands. */
  lemma Machined(edits: seq<F.Edit>, f: Floor, p: Pos, c: Config)
    requires F.Built(edits) == f && p !in f.cells
    ensures F.Built(edits + [F.Set(p, c)]) == f.(cells := f.cells[p := Machine(c)])
  {
    F.BuiltMore(edits, F.Set(p, c));
  }

  /** A host in a slot where nothing stands. */
  lemma Hosted(edits: seq<F.Edit>, f: Floor, roost: Pos, landing: Pos, port: nat, facing: nat)
    requires F.Built(edits) == f && roost !in f.cells && landing !in f.cells
    ensures F.Built(edits + [F.HostIn(roost, landing, port, facing)]) == f.(cells := f.cells[roost := Roost(port, facing)][landing := Landing(port)])
  {
    F.BuiltMore(edits, F.HostIn(roost, landing, port, facing));
  }

  lemma HostsBuilt()
    ensures F.Built(EDITS[..2]) == Hosts()
  {
    hide F.Built, F.Apply;
    assert EDITS[..2] == [EDITS[0]] + [EDITS[1]] && [] + [EDITS[0]] == [EDITS[0]];
    NothingBuilt();
    Hosted([], BARE, Pos(0, 3), Pos(0, 5), 0, 0);
    Hosted([EDITS[0]], BARE.(cells := map[Pos(0, 3) := Roost(0, 0), Pos(0, 5) := Landing(0)]), Pos(27, 3), Pos(27, 5), 1, 2);
  }

  lemma NothingBuilt()
    ensures F.Built([]) == BARE
  {
  }

  /** The player can lay out this floor. */
  lemma ShopIsBuilt()
    ensures F.Built(EDITS) == SHOP && FloorOk(SHOP)
  {
    hide FloorOk, F.Built, F.Apply;
    HostsBuilt();
    var f := Hosts();
    Machined(EDITS[..2], f, Pos(1, 3), Hub);
    assert EDITS[..3] == EDITS[..2] + [EDITS[2]] && EDITS[..4] == EDITS[..3] + [EDITS[3]] && EDITS[..5] == EDITS[..4] + [EDITS[4]]
           && EDITS[..6] == EDITS[..5] + [EDITS[5]] && EDITS == EDITS[..6] + [EDITS[6]];
    var g := f.(cells := f.cells[Pos(1, 3) := Machine(Hub)]);
    Machined(EDITS[..3], g, Pos(2, 3), Belt(1));
    var h := g.(cells := g.cells[Pos(2, 3) := Machine(Belt(1))]);
    Machined(EDITS[..4], h, Pos(2, 4), Belt(1));
    var k := h.(cells := h.cells[Pos(2, 4) := Machine(Belt(1))]);
    Machined(EDITS[..5], k, Pos(2, 5), Belt(2));
    var l := k.(cells := k.cells[Pos(2, 5) := Machine(Belt(2))]);
    Machined(EDITS[..6], l, Pos(1, 5), Belt(2));
    F.FloorStaysOk(EDITS);
  }

  // ---- five hundred pigeons on it ------------------------------------------------------------

  function HostOf(n: nat): PortId { if n == 0 then 0 else 1 }

  function Frame(n: nat): Token { Token(HostOf(n), n, MIN_FRAME, []) }

  /** Half a cell, half a cell, and five more. */
  function Budget(tick: nat): real { if tick < 2 then 0.5 else 5.0 }

  /** The pigeon of frame `n`, `ticks` ticks after it came out of its roost. */
  function Bird(env: W.Senses, n: nat, ticks: nat): (x: Flyer)
    ensures x.progress >= 0.0
    decreases ticks
  {
    if ticks == 0 then Flyer(W.Waiting(R.At(HostOf(n)).roost, 0), 0.0)
    else
      var flight := Flown(SHOP, env, Bird(env, n, ticks - 1), Budget(ticks - 1));
      Flyer(flight.walk.bird, flight.progress)
  }

  /** What all of them do in one tick, as the game is told. */
  function Told(env: W.Senses, tick: nat): nat -> Outcome {
    (n: nat) => OutcomeOf(SHOP, Flown(SHOP, env, Bird(env, n, tick), Budget(tick)).walk)
  }

  lemma OnTheRoost(env: W.Senses, budget: real)
    requires budget >= 0.0
    ensures Flown(SHOP, env, Flyer(W.Waiting(Pos(27, 3), 0), 0.0), budget) == W.Flight(W.Walk(W.Waiting(Pos(27, 3), 0), W.Going, [], []), 0.0)
    ensures Rides(SHOP, []) == []
  {
    hide W.Advance;
    assert W.Leave(SHOP, env, Pos(27, 3), 0) == W.Walk(W.Waiting(Pos(27, 3), 0), W.Going, [], []);
  }

  /** With nothing before its roost a pigeon waits on it. */
  lemma {:induction false} OthersWait(env: W.Senses, n: nat, tick: nat)
    requires n > 0
    ensures Bird(env, n, tick) == Flyer(W.Waiting(Pos(27, 3), 0), 0.0) && Told(env, tick)(n) == Outcome([], Keep)
    decreases tick
  {
    hide Flown;
    if tick > 0 { OthersWait(env, n, tick - 1); }
    OnTheRoost(env, Budget(tick));
    if tick > 0 { OnTheRoost(env, Budget(tick - 1)); }
  }

  lemma SetsOut(env: W.Senses)
    ensures Bird(env, 0, 1) == Flyer(W.Riding(Pos(0, 3), Pos(1, 3), 0), 0.5) && Told(env, 0)(0) == Outcome([], Keep)
  {
    assert Bird(env, 0, 0) == Flyer(W.Waiting(Pos(0, 3), 0), 0.0);
    assert Rides(SHOP, []) == [];
    assert 0.5.Floor == 0;
  }

  /** At the hub it asks for two clones, both ways clear, and rides straight on. */
  lemma AtTheHub(env: W.Senses)
    ensures Bird(env, 0, 2) == Flyer(W.Riding(Pos(1, 3), Pos(2, 3), 0), 0.0) && Told(env, 1)(0) == Outcome([true, true], Keep)
  {
    SetsOut(env);
    var b := W.Riding(Pos(0, 3), Pos(1, 3), 0);
    var down, up := W.Emission(Pos(1, 3), 1), W.Emission(Pos(1, 3), 3);
    assert W.EmitAll(Pos(1, 3), [0, 1, 3]) == [W.Emission(Pos(1, 3), 0), down, up];
    var w := W.Leave(SHOP, env, Pos(1, 3), 0);
    assert w == W.Walk(W.Riding(Pos(1, 3), Pos(2, 3), 0), W.Going, [down, up], []);
    assert W.Advance(SHOP, env, w.bird, 0) == W.Walk(w.bird, W.Going, [], []);
    assert (0.5 + 0.5).Floor == 1;
    var walk := Flown(SHOP, env, Bird(env, 0, 1), Budget(1)).walk;
    assert walk.clones == [down, up];
    assert Rides(SHOP, [down, up]) == [true, true];
  }

  /** The belts take it round to its host's own landing pad. */
  lemma ComesHome(env: W.Senses)
    ensures Told(env, 2)(0) == Outcome([], Land(0))
  {
    AtTheHub(env);
    Belts(env);
    assert Rides(SHOP, []) == [];
    assert (0.0 + 5.0).Floor == 5;
  }

  lemma OnBelt(env: W.Senses, from: Pos, p: Pos, travelDir: nat, dir: nat, n: nat)
    requires p in SHOP.cells && SHOP.cells[p] == Machine(Belt(dir)) && W.MayEnter(SHOP, p, W.Step(p, dir))
    ensures W.Advance(SHOP, env, W.Riding(from, p, travelDir), n + 1)
            == W.Prefixed([], [p], W.Advance(SHOP, env, W.Riding(p, W.Step(p, dir), dir), n))
  {
    assert W.Leave(SHOP, env, p, travelDir) == W.Walk(W.Riding(p, W.Step(p, dir), dir), W.Going, [], []);
  }

  lemma Belts(env: W.Senses)
    ensures var w := W.Advance(SHOP, env, W.Riding(Pos(1, 3), Pos(2, 3), 0), 5);
            w.clones == [] && w.fate == W.Landed(0) && w.bird.Waiting?
  {
    hide W.Advance;
    OnBelt(env, Pos(1, 3), Pos(2, 3), 0, 1, 4);
    OnBelt(env, Pos(2, 3), Pos(2, 4), 1, 1, 3);
    OnBelt(env, Pos(2, 4), Pos(2, 5), 1, 2, 2);
    OnBelt(env, Pos(2, 5), Pos(1, 5), 2, 2, 1);
    OnThePad(env);
  }

  lemma OnThePad(env: W.Senses)
    ensures W.Advance(SHOP, env, W.Riding(Pos(1, 5), Pos(0, 5), 2), 1) == W.Walk(W.Waiting(Pos(0, 5), 2), W.Landed(0), [], [Pos(0, 5)])
  {
    assert W.Leave(SHOP, env, Pos(0, 5), 2) == W.Walk(W.Waiting(Pos(0, 5), 2), W.Landed(0), [], []);
  }

  // ---- the game they play -------------------------------------------------------------------------

  function Frames(n: nat): seq<Token> { if n == 0 then [] else Frames(n - 1) + [Frame(n - 1)] }

  function Row(n: nat): seq<Fid> { if n == 0 then [] else Row(n - 1) + [n - 1] }

  function Arrivals(n: nat): seq<Command> { if n == 0 then [] else Arrivals(n - 1) + [Arrive(Frame(n - 1))] }

  lemma {:induction false} ArrivalsPlay(n: nat)
    requires n <= MAX_QUEUE
    ensures Play(Arrivals(n)) == Game(Frames(n), [], map[], [], 0) && |Frames(n)| == n
    ensures (forall k :: k in SeenIn(Arrivals(n)) ==> k < n) && Roomy(Arrivals(n))
  {
    if n > 0 {
      ArrivalsPlay(n - 1);
      assert Arrivals(n)[..|Arrivals(n)| - 1] == Arrivals(n - 1);
    }
  }

  lemma {:induction false} FramesRow(n: nat)
    ensures Fids(Frames(n)) == Row(n) && |Row(n)| == n && forall t :: t in Frames(n) ==> t.port in {0, 1}
    ensures forall i :: 0 <= i < n ==> Row(n)[i] == i
  {
    if n > 0 { FramesRow(n - 1); }
  }

  function Tick(env: W.Senses, tick: nat): Command { Turn({0, 1}, Told(env, tick)) }

  function Crowd(env: W.Senses): seq<Command> { Arrivals(500) + [Tick(env, 0)] }

  lemma CrowdGathers(env: W.Senses)
    ensures var g := Play(Crowd(env));
            && Roomy(Crowd(env)) && g.queue == [] && |g.pigeons| == MAX_PIGEONS && g.sent == []
            && g.pigeons[0] == 0 && multiset(g.pigeons)[0] == 1
  {
    hide SpawnAll, RideAll, Backlog, Arrivals, Frames, Row, Told;
    assert Crowd(env)[..|Crowd(env)| - 1] == Arrivals(500);
    var g := Play(Arrivals(500));
    ArrivalsPlay(500);
    FramesRow(500);
    AllTakeOff(g, {0, 1});
    var g1 := SpawnAll(g, {0, 1});
    forall k: nat | 0 < k
      ensures Told(env, 0)(k) == Outcome([], Keep)
    {
      OthersWait(env, k, 0);
    }
    SetsOut(env);
    AllKeep(g1, |g1.pigeons|, Told(env, 0));
    assert ClonesOf(g1.pigeons[0], []) == [];
    assert g1.pigeons == Row(500);
    CountOnce(Row(500), 500, 0);
  }

  lemma CrowdCount(g: Game, seen: set<Fid>)
    requires Ledger(g, seen) && multiset(g.pigeons)[0] == 1
    ensures RefOf(g, 0) == 1
  {
    hide VerbsOf, Waiting, Distinct, OnlyCopies, Finished;
    assert FrameOkIn(g, seen, 0);
  }

  /** The tick after a clone too many, one more for the same frame drops it again. */
  lemma SecondClone(g: Game, seen: set<Fid>)
    requires Ledger(g, seen) && |g.pigeons| == MAX_PIGEONS && g.sent == [] && g.pigeons[0] == 0 && RefOf(g, 0) == 1
    ensures var h := CloneAll(g, [Clone(0, true), Clone(0, true)]);
            h.pigeons == g.pigeons && h.queue == g.queue && 0 !in h.frameRefs && h.sent == [Verdict(Drop, 0, 0), Verdict(Drop, 0, 0)]
  {
    hide Ledger;
    var e := Clone(0, true);
    FullSkyFreesALiveFrame(g, seen, 0, true);
    var h := CloneAll(g, [e]);
    assert [e][1..] == [] && [e, e][1..] == [e];
    NoClones(CloneOne(g, e));
    assert h == CloneOne(g, e);
    NoClones(CloneOne(h, e));
    assert CloneAll(h, [e]) == CloneAll(CloneOne(h, e), []);
    assert CloneAll(g, [e, e]) == CloneAll(CloneOne(g, e), [e]);
    assert [] + [Verdict(Drop, 0, 0)] + [Verdict(Drop, 0, 0)] == [Verdict(Drop, 0, 0), Verdict(Drop, 0, 0)];
  }

  lemma TwoTurns(env: W.Senses, g: Game, seen: set<Fid>)
    requires Ledger(g, seen) && g.queue == [] && |g.pigeons| == MAX_PIGEONS && g.sent == [] && g.pigeons[0] == 0 && RefOf(g, 0) == 1
    ensures Obey(Obey(g, Tick(env, 1)), Tick(env, 2)).sent == [Verdict(Drop, 0, 0), Verdict(Drop, 0, 0), Verdict(Deliver, 0, 0)]
  {
    hide Ledger, Update, CloneAll, VerbsOf, Finals, Told;
    forall k: nat | 0 < k
      ensures Told(env, 1)(k) == Outcome([], Keep) && Told(env, 2)(k) == Outcome([], Keep)
    {
      OthersWait(env, k, 1);
      OthersWait(env, k, 2);
    }
    AtTheHub(env);
    FirstRides(g, {0, 1}, Told(env, 1));
    assert ClonesOf(0, [true, true]) == [Clone(0, true), Clone(0, true)];
    SecondClone(g, seen);
    var h := CloneAll(g, [Clone(0, true), Clone(0, true)]);
    ComesHome(env);
    FirstRides(h, {0, 1}, Told(env, 2));
    assert ClonesOf(h.pigeons[0], []) == [];
    NoClones(RideOne(h, 0, Land(0)));
  }

  /** A whole game from nothing, every outcome worked out on the floor: frame 0 meets
    * the hub in a full sky, is freed twice while it flies, and is then delivered. */
  lemma FreedAndDelivered(env: W.Senses)
    ensures var sent := Play(Crowd(env) + [Tick(env, 1), Tick(env, 2)]).sent;
            && sent == [Verdict(Drop, 0, 0), Verdict(Drop, 0, 0), Verdict(Deliver, 0, 0)]
            && Finals(VerbsOf(sent, 0)) == 3 && !Finished(VerbsOf(sent, 0)) && !OnlyCopies(VerbsOf(sent, 0))
  {
    hide Crowd, Ledger, Update, CloneAll, RideOne, Waiting, Distinct, SeenIn, Told, Tick, Obey;
    var commands := Crowd(env) + [Tick(env, 1), Tick(env, 2)];
    assert commands == Crowd(env) + [Tick(env, 1)] + [Tick(env, 2)];
    PlayMore(Crowd(env), Tick(env, 1));
    PlayMore(Crowd(env) + [Tick(env, 1)], Tick(env, 2));
    CrowdGathers(env);
    RunLedger(Crowd(env));
    var g, seen := Play(Crowd(env)), SeenIn(Crowd(env));
    CrowdCount(g, seen);
    TwoTurns(env, g, seen);
    ThreeVerbs();
  }

  lemma ThreeVerbs()
    ensures var vs := VerbsOf([Verdict(Drop, 0, 0), Verdict(Drop, 0, 0), Verdict(Deliver, 0, 0)], 0);
            Finals(vs) == 3 && !Finished(vs) && !OnlyCopies(vs)
  {
    var d, v := Verdict(Drop, 0, 0), Verdict(Deliver, 0, 0);
    VerbsMore([], d, 0);
    VerbsMore([d], d, 0);
    VerbsMore([d, d], v, 0);
    assert [] + [d] == [d] && [d] + [d] == [d, d] && [d, d] + [v] == [d, d, v];
    assert VerbsOf([d, d, v], 0) == [Drop, Drop, Deliver];
    assert [Drop, Drop, Deliver][..2] == [Drop, Drop] && [Drop, Drop][..1] == [Drop];
    assert [Drop, Drop][0] == Drop;
  }
}
