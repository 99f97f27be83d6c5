/** Whole games: any tokens, any board, any number of ticks. */
module PigeonRuns {
  import opened Basics
  import opened LoftCore
  import opened Cluster
  import opened Pigeons
  import opened PigeonLedger

  // ---- one tick ---------------------------------------------------------------------

  lemma {:induction false} BacklogCarried(pigeons: seq<Fid>, i: nat, outs: nat -> Outcome)
    requires i <= |pigeons|
    ensures forall e :: e in Backlog(pigeons, i, outs) ==> e.fid in pigeons
    decreases i
  {
    if i > 0 { BacklogCarried(pigeons, i - 1, outs); }
  }

  lemma {:induction false} RideAllQueue(g: Game, i: nat, outs: nat -> Outcome)
    requires i <= |g.pigeons|
    ensures RideAll(g, i, outs).queue == g.queue
    decreases i
  {
    if i > 0 { RideAllQueue(RideOne(g, i - 1, outs(i - 1).ret), i - 1, outs); }
  }

  lemma BacklogFlown(g: Game, seen: set<Fid>, outs: nat -> Outcome)
    requires Ledger(g, seen)
    ensures Flown(RideAll(g, |g.pigeons|, outs), seen, Backlog(g.pigeons, |g.pigeons|, outs))
  {
    hide Waiting, VerbsOf, Backlog, RideAll, OnlyCopies, Finished;
    RideAllQueue(g, |g.pigeons|, outs);
    BacklogCarried(g.pigeons, |g.pigeons|, outs);
    forall e | e in Backlog(g.pigeons, |g.pigeons|, outs)
      ensures e.fid in seen && e.fid !in Waiting(g.queue)
    {
      assert e.fid in multiset(g.pigeons);
      assert FrameOkIn(g, seen, e.fid);
    }
  }

  /** Some clone of this tick would find the sky full. */
  predicate TickCrowded(g: Game, roosts: set<PortId>, outs: nat -> Outcome) {
    var g1 := SpawnAll(g, roosts);
    Crowded(RideAll(g1, |g1.pigeons|, outs), Backlog(g1.pigeons, |g1.pigeons|, outs))
  }

  /** A tick leaves every count exact and every frame's verbs in order exactly
    * when no clone finds the sky full. */
  lemma TickExactIff(g: Game, seen: set<Fid>, roosts: set<PortId>, outs: nat -> Outcome)
    requires Ledger(g, seen)
    ensures Ledger(Update(g, roosts, outs), seen) <==> !TickCrowded(g, roosts, outs)
  {
    hide Ledger, Crowded, Flown, SpawnAll, RideAll, Backlog, CloneAll;
    var g1 := SpawnAll(g, roosts);
    SpawnAllKeeps(g, seen, roosts);
    RideAllKeeps(g1, seen, |g1.pigeons|, outs);
    BacklogFlown(g1, seen, outs);
    ClonesExactIff(RideAll(g1, |g1.pigeons|, outs), seen, Backlog(g1.pigeons, |g1.pigeons|, outs));
  }

  // ---- whole games ---------------------------------------------------------------------

  datatype Command = Arrive(token: Token) | Turn(roosts: set<PortId>, outs: nat -> Outcome)

  function Obey(g: Game, c: Command): Game {
    match c
    case Arrive(t) => Enqueue(g, t)
    case Turn(roosts, outs) => Update(g, roosts, outs)
  }

  function Play(commands: seq<Command>): Game {
    if commands == [] then EMPTY_GAME else Obey(Play(commands[..|commands| - 1]), commands[|commands| - 1])
  }

  function SeenIn(commands: seq<Command>): set<Fid> {
    if commands == [] then {}
    else SeenIn(commands[..|commands| - 1])
         + match commands[|commands| - 1] case Arrive(t) => {t.fid} case Turn(_, _) => {}
  }

  /** No frame id is handed out twice and no clone ever finds the sky full. */
  predicate Roomy(commands: seq<Command>)
    decreases |commands|
  {
    commands != [] ==>
      var before := commands[..|commands| - 1];
      && Roomy(before)
      && match commands[|commands| - 1]
         case Arrive(t) => t.fid !in SeenIn(before)
         case Turn(roosts, outs) => !TickCrowded(Play(before), roosts, outs)
  }

  lemma {:induction false} RunLedger(commands: seq<Command>)
    requires Roomy(commands)
    ensures Ledger(Play(commands), SeenIn(commands))
    decreases |commands|
  {
    hide Ledger, TickCrowded, Enqueue, Update;
    if commands == [] {
      EmptyLedger();
    } else {
      var before := commands[..|commands| - 1];
      RunLedger(before);
      match commands[|commands| - 1]
      case Arrive(t) => EnqueueKeeps(Play(before), SeenIn(before), t);
      case Turn(roosts, outs) =>
        assert SeenIn(before) + {} == SeenIn(before);
        TickExactIff(Play(before), SeenIn(before), roosts, outs);
    }
  }

  /** At every point of every such game a frame's reference count is the number
    * of pigeons carrying it, an enqueued frame is waiting, flying or finished and
    * only one of these, and its verbs are copy-delivers then at most one final. */
  lemma FramesEndOnce(commands: seq<Command>, f: Fid)
    requires Roomy(commands)
    ensures var g := Play(commands);
            var vs := VerbsOf(g.sent, f);
            && (f in g.frameRefs <==> f in g.pigeons)
            && (f in g.frameRefs ==> g.frameRefs[f] == multiset(g.pigeons)[f])
            && (f in SeenIn(commands) <==> f in Waiting(g.queue) || f in g.pigeons || Finished(vs))
            && !(f in Waiting(g.queue) && f in g.pigeons)
            && (f in Waiting(g.queue) ==> vs == [])
            && (f in g.pigeons ==> OnlyCopies(vs))
            && (f !in SeenIn(commands) ==> vs == [])
  {
    hide VerbsOf, Waiting, Distinct, Play, Roomy, SeenIn;
    RunLedger(commands);
    var g := Play(commands);
    assert FrameOkIn(g, SeenIn(commands), f);
    assert f in g.pigeons <==> f in multiset(g.pigeons);
    CopiesAreNotFinished(VerbsOf(g.sent, f));
  }

  lemma CopiesAreNotFinished(vs: seq<Verb>)
    ensures !(OnlyCopies(vs) && Finished(vs))
  {
  }

  // ---- capacities ----------------------------------------------------------------------------------------

  lemma {:induction false} SpawnedRoom(g: Game, roosts: set<PortId>)
    requires |g.pigeons| <= 500 && |g.queue| <= 10000
    ensures |SpawnAll(g, roosts).pigeons| <= 500 && |SpawnAll(g, roosts).queue| <= 10000
    decreases |g.queue|
  {
    if g.queue != [] && |g.pigeons| < MAX_PIGEONS { SpawnedRoom(Spawn(g.(queue := g.queue[1..]), g.queue[0], roosts), roosts); }
  }

  lemma {:induction false} RiddenRoom(g: Game, i: nat, outs: nat -> Outcome)
    requires i <= |g.pigeons|
    ensures |RideAll(g, i, outs).pigeons| <= |g.pigeons| && RideAll(g, i, outs).queue == g.queue
    decreases i
  {
    if i > 0 { RiddenRoom(RideOne(g, i - 1, outs(i - 1).ret), i - 1, outs); }
  }

  lemma {:induction false} ClonedRoom(g: Game, entries: seq<Clone>)
    requires |g.pigeons| <= 500
    ensures |CloneAll(g, entries).pigeons| <= 500 && CloneAll(g, entries).queue == g.queue
    decreases |entries|
  {
    if entries != [] { ClonedRoom(CloneOne(g, entries[0]), entries[1..]); }
  }

  /** However many frames come and whatever they do: at most five hundred fly and at most
    * ten thousand wait; below that a frame joins the line, and at it the first one goes. */
  lemma {:induction false} NeverOverCapacity(commands: seq<Command>, t: Token)
    ensures var g, h := Play(commands), Play(commands + [Arrive(t)]);
            && |g.pigeons| <= 500 && |g.queue| <= 10000
            && (|g.queue| < 10000 ==> h == g.(queue := g.queue + [t]))
            && (|g.queue| == 10000 ==> h.queue == g.queue[1..] + [t] && h.sent == g.sent + [Verdict(Drop, 0, g.queue[0].fid)]
                                       && h.pigeons == g.pigeons && h.frameRefs == g.frameRefs && h.droppedByMe == g.droppedByMe + 1)
    decreases |commands|
  {
    hide SpawnAll, RideAll, CloneAll, Backlog;
    PlayMore(commands, Arrive(t));
    if commands != [] {
      var before := commands[..|commands| - 1];
      NeverOverCapacity(before, t);
      var g := Play(before);
      match commands[|commands| - 1] {
        case Arrive(x) =>
        case Turn(roosts, outs) =>
          var g1 := SpawnAll(g, roosts);
          SpawnedRoom(g, roosts);
          RiddenRoom(g1, |g1.pigeons|, outs);
          ClonedRoom(RideAll(g1, |g1.pigeons|, outs), Backlog(g1.pigeons, |g1.pigeons|, outs));
      }
    }
    var q := Play(commands).queue;
    if |q| == 10000 { assert (q + [t])[1..] == q[1..] + [t]; }
  }

  // ---- the branch, in the flesh -------------------------------------------------------------

  /** A full sky in which frame `i` asks for one clone too many: the frame is
    * freed while its pigeon still flies ... */
  lemma FullSkyFreesALiveFrame(g: Game, seen: set<Fid>, i: nat, rides: bool)
    requires Ledger(g, seen) && |g.pigeons| >= MAX_PIGEONS && i < |g.pigeons| && RefOf(g, g.pigeons[i]) == 1
    ensures var f := g.pigeons[i];
            var h := CloneAll(g, [Clone(f, rides)]);
            && h.pigeons == g.pigeons && h.queue == g.queue && f !in h.frameRefs
            && h.sent == g.sent + [Verdict(Drop, 0, f)]
  {
    hide VerbsOf, Waiting, Distinct, OnlyCopies, Finished, Ledger;
    var e := Clone(g.pigeons[i], rides);
    assert [e][1..] == [];
    assert CloneAll(CloneOne(g, e), []) == CloneOne(g, e);
    assert CloneAll(g, [e]) == CloneAll(CloneOne(g, e), []);
  }

  /** ... and when that pigeon lands, the same frame gets a second final verb. */
  lemma SecondFinalVerb(g: Game, seen: set<Fid>, i: nat, port: PortId)
    requires Ledger(g, seen) && |g.pigeons| >= MAX_PIGEONS && i < |g.pigeons| && RefOf(g, g.pigeons[i]) == 1
    ensures var f := g.pigeons[i];
            var h := CloneAll(g, [Clone(f, true)]);
            && i < |h.pigeons|
            && RideOne(h, i, Land(port)).sent == g.sent + [Verdict(Drop, 0, f), Verdict(Deliver, port, f)]
            && Finals(VerbsOf(RideOne(h, i, Land(port)).sent, f)) >= 2
  {
    hide Ledger, CloneAll, VerbsOf, Finals;
    FullSkyFreesALiveFrame(g, seen, i, true);
    var f := g.pigeons[i];
    var d, e := Verdict(Drop, 0, f), Verdict(Deliver, port, f);
    VerbsMore(g.sent, d, f);
    VerbsMore(g.sent + [d], e, f);
    FinalsMore(VerbsOf(g.sent, f), Drop);
    FinalsMore(VerbsOf(g.sent, f) + [Drop], Deliver);
    assert g.sent + [d, e] == g.sent + [d] + [e];
  }

  // ---- steps of a crowded game -------------------------------------------------------------

  lemma PlayMore(commands: seq<Command>, c: Command)
    ensures Play(commands + [c]) == Obey(Play(commands), c)
  {
    assert (commands + [c])[..|commands|] == commands;
  }

  lemma NoClones(g: Game)
    ensures CloneAll(g, []) == g
  {
  }

  lemma {:induction false} CountOnce(s: seq<Fid>, n: nat, f: Fid)
    requires |s| == n && forall i :: 0 <= i < n ==> s[i] == i
    ensures multiset(s)[f] == if f < n then 1 else 0
  {
    if n > 0 {
      CountOnce(s[..n - 1], n - 1, f);
      assert s == s[..n - 1] + [s[n - 1]];
    }
  }

  function Fids(q: seq<Token>): seq<Fid> { seq(|q|, i requires 0 <= i < |q| => q[i].fid) }

  lemma {:induction false} AllTakeOff(g: Game, roosts: set<PortId>)
    requires |g.pigeons| + |g.queue| <= MAX_PIGEONS && forall t :: t in g.queue ==> t.port in roosts
    ensures SpawnAll(g, roosts).pigeons == g.pigeons + Fids(g.queue)
    ensures SpawnAll(g, roosts).queue == [] && SpawnAll(g, roosts).sent == g.sent
    decreases |g.queue|
  {
    if g.queue != [] {
      AllTakeOff(Spawn(g.(queue := g.queue[1..]), g.queue[0], roosts), roosts);
      assert Fids(g.queue) == [g.queue[0].fid] + Fids(g.queue[1..]);
    }
  }

  lemma {:induction false} AllKeep(g: Game, i: nat, outs: nat -> Outcome)
    requires i <= |g.pigeons| && forall k: nat :: 0 < k ==> outs(k) == Outcome([], Keep)
    ensures RideAll(g, i, outs) == if i == 0 then g else RideOne(g, 0, outs(0).ret)
    ensures Backlog(g.pigeons, i, outs) == if i == 0 then [] else ClonesOf(g.pigeons[0], outs(0).clones)
    decreases i
  {
    if i > 1 {
      AllKeep(g, i - 1, outs);
      assert ClonesOf(g.pigeons[i - 1], []) == [];
    } else if i == 1 {
      assert Backlog(g.pigeons, 0, outs) == [];
    }
  }

  /** Nothing waits, so a tick is one ride by the first pigeon and its clones. */
  lemma FirstRides(g: Game, roosts: set<PortId>, outs: nat -> Outcome)
    requires g.queue == [] && g.pigeons != [] && forall k: nat :: 0 < k ==> outs(k) == Outcome([], Keep)
    ensures Update(g, roosts, outs) == CloneAll(RideOne(g, 0, outs(0).ret), ClonesOf(g.pigeons[0], outs(0).clones))
  {
    hide RideAll, Backlog, CloneAll, RideOne;
    AllKeep(g, |g.pigeons|, outs);
  }
}
