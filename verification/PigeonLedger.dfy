/** Every step of the game keeps its ledger, except one: a clone that finds the
  * sky full gives back a reference it never took. */
module PigeonLedger {
  import opened Basics
  import opened LoftCore
  import opened Cluster
  import opened Pigeons

  lemma WaitingMore(queue: seq<Token>, t: Token)
    ensures Waiting(queue + [t]) == Waiting(queue) + {t.fid}
  {
    forall f
      ensures f in Waiting(queue + [t]) <==> f in Waiting(queue) + {t.fid}
    {
      if f == t.fid { assert (queue + [t])[|queue|] == t; }
    }
  }

  lemma WaitingLess(queue: seq<Token>)
    requires queue != [] && Distinct(queue)
    ensures Waiting(queue[1..]) == Waiting(queue) - {queue[0].fid} && queue[0].fid in Waiting(queue)
    ensures Distinct(queue[1..])
  {
    forall t | t in queue[1..]
      ensures t.fid != queue[0].fid && t in queue
    {
      var i :| 0 <= i < |queue[1..]| && queue[1..][i] == t;
      assert queue[i + 1] == t;
    }
    forall t | t in queue && t.fid != queue[0].fid
      ensures t in queue[1..]
    {
      var i :| 0 <= i < |queue| && queue[i] == t;
      assert queue[1..][i - 1] == t;
    }
  }

  lemma DistinctMore(queue: seq<Token>, t: Token)
    requires Distinct(queue) && t.fid !in Waiting(queue)
    ensures Distinct(queue + [t])
  {
    forall i, j | 0 <= i < j < |queue + [t]|
      ensures (queue + [t])[i].fid != (queue + [t])[j].fid
    {
      if j == |queue| { assert queue[i] in queue; }
    }
  }

  // ---- the queue -----------------------------------------------------------------------

  lemma PushKeeps(g: Game, seen: set<Fid>, t: Token)
    requires Ledger(g, seen) && t.fid !in seen
    ensures Ledger(g.(queue := g.queue + [t]), seen + {t.fid})
  {
    hide VerbsOf, Distinct;
    assert FrameOkIn(g, seen, t.fid);
    WaitingMore(g.queue, t);
    DistinctMore(g.queue, t);
    OthersKeep(g, g.(queue := g.queue + [t]), seen, seen + {t.fid}, t.fid);
  }

  /** The first in line is let go without ever flying. */
  lemma ShedKeeps(g: Game, seen: set<Fid>)
    requires Ledger(g, seen) && g.queue != []
    ensures Ledger(FreeUnflown(g.(queue := g.queue[1..]), g.queue[0].fid), seen)
  {
    hide VerbsOf, Distinct, Waiting;
    var f := g.queue[0].fid;
    var h := FreeUnflown(g.(queue := g.queue[1..]), f);
    assert FrameOkIn(g, seen, f);
    WaitingLess(g.queue);
    VerbsMore(g.sent, Verdict(Drop, 0, f), f);
    OthersKeep(g, h, seen, seen, f);
  }

  lemma EnqueueKeeps(g: Game, seen: set<Fid>, t: Token)
    requires Ledger(g, seen) && t.fid !in seen
    ensures Ledger(Enqueue(g, t), seen + {t.fid})
  {
    hide Ledger;
    PushKeeps(g, seen, t);
    if |g.queue| + 1 > MAX_QUEUE { ShedKeeps(g.(queue := g.queue + [t]), seen + {t.fid}); }
  }

  // ---- spawning ----------------------------------------------------------------------------

  lemma TakeOffKeeps(g: Game, seen: set<Fid>)
    requires Ledger(g, seen) && g.queue != []
    ensures var f := g.queue[0].fid;
            Ledger(g.(queue := g.queue[1..], frameRefs := g.frameRefs[f := 1], pigeons := g.pigeons + [f]), seen)
  {
    hide VerbsOf, Distinct, Waiting;
    var f := g.queue[0].fid;
    var h := g.(queue := g.queue[1..], frameRefs := g.frameRefs[f := 1], pigeons := g.pigeons + [f]);
    assert FrameOkIn(g, seen, f);
    WaitingLess(g.queue);
    OthersKeep(g, h, seen, seen, f);
  }

  lemma {:induction false} SpawnAllKeeps(g: Game, seen: set<Fid>, roosts: set<PortId>)
    requires Ledger(g, seen)
    ensures Ledger(SpawnAll(g, roosts), seen)
    decreases |g.queue|
  {
    hide Ledger;
    if g.queue != [] && |g.pigeons| < MAX_PIGEONS {
      var t, g1 := g.queue[0], g.(queue := g.queue[1..]);
      if t.port in roosts { TakeOffKeeps(g, seen); } else { ShedKeeps(g, seen); }
      SpawnAllKeeps(Spawn(g1, t, roosts), seen, roosts);
    }
  }

  // ---- riding ---------------------------------------------------------------------------------

  lemma RideOneKeeps(g: Game, seen: set<Fid>, i: nat, ret: Ret)
    requires Ledger(g, seen) && i < |g.pigeons|
    ensures Ledger(RideOne(g, i, ret), seen)
  {
    hide VerbsOf, Distinct, Waiting, OnlyCopies, Finished;
    if ret != Keep {
      var f := g.pigeons[i];
      var h := RideOne(g, i, ret);
      assert FrameOkIn(g, seen, f);
      WithoutOne(g.pigeons, i);
      if h.sent != g.sent {
        var v := h.sent[|h.sent| - 1];
        VerbsMore(g.sent, v, f);
        CopiesMore(VerbsOf(g.sent, f), v.verb);
      }
      OthersKeep(g, h, seen, seen, f);
    }
  }

  lemma {:induction false} RideAllKeeps(g: Game, seen: set<Fid>, i: nat, outs: nat -> Outcome)
    requires Ledger(g, seen) && i <= |g.pigeons|
    ensures Ledger(RideAll(g, i, outs), seen)
    decreases i
  {
    hide Ledger;
    if i > 0 {
      RideOneKeeps(g, seen, i - 1, outs(i - 1).ret);
      RideAllKeeps(RideOne(g, i - 1, outs(i - 1).ret), seen, i - 1, outs);
    }
  }

  // ---- cloning -----------------------------------------------------------------------------------

  /** How many of `entries` take off: those whose frame still flies and whose
    * exit is clear. */
  function Placeable(entries: seq<Clone>, flying: set<Fid>): nat
    decreases |entries|
  {
    if entries == [] then 0
    else (if entries[0].fid in flying && entries[0].rides then 1 else 0) + Placeable(entries[1..], flying)
  }

  /** By the time the last entry is looked at, the sky is full. */
  predicate Crowded(g: Game, entries: seq<Clone>) {
    entries != [] && |g.pigeons| + Placeable(entries[..|entries| - 1], g.frameRefs.Keys) >= MAX_PIGEONS
  }

  lemma CloneOneKeeps(g: Game, seen: set<Fid>, e: Clone)
    requires Ledger(g, seen) && |g.pigeons| < MAX_PIGEONS
    ensures var h := CloneOne(g, e);
            && Ledger(h, seen)
            && h.frameRefs.Keys == g.frameRefs.Keys
            && |h.pigeons| == |g.pigeons| + if e.fid in g.frameRefs && e.rides then 1 else 0
  {
    hide VerbsOf, Distinct, Waiting, OnlyCopies, Finished;
    var h := CloneOne(g, e);
    assert FrameOkIn(g, seen, e.fid);
    assert g.frameRefs == h.frameRefs || h.frameRefs.Keys == g.frameRefs.Keys + {e.fid} == g.frameRefs.Keys;
    OthersKeep(g, h, seen, seen, e.fid);
  }

  lemma PlaceableFirst(entries: seq<Clone>, flying: set<Fid>)
    requires |entries| > 1
    ensures var front := entries[..|entries| - 1];
            Placeable(front, flying) == (if entries[0].fid in flying && entries[0].rides then 1 else 0)
                                        + Placeable(entries[1..][..|entries| - 2], flying)
  {
    assert entries[..|entries| - 1][1..] == entries[1..][..|entries| - 2];
  }

  lemma CrowdedLater(g: Game, seen: set<Fid>, entries: seq<Clone>)
    requires Ledger(g, seen) && entries != [] && |g.pigeons| < MAX_PIGEONS
    ensures Crowded(g, entries) <==> Crowded(CloneOne(g, entries[0]), entries[1..])
  {
    hide Ledger, Placeable;
    CloneOneKeeps(g, seen, entries[0]);
    if |entries| > 1 { PlaceableFirst(entries, g.frameRefs.Keys); } else { PlaceableNone(g.frameRefs.Keys); }
  }

  lemma PlaceableNone(flying: set<Fid>)
    ensures Placeable([], flying) == 0
  {
  }

  lemma {:induction false} CloneAllKeeps(g: Game, seen: set<Fid>, entries: seq<Clone>)
    requires Ledger(g, seen) && !Crowded(g, entries)
    ensures Ledger(CloneAll(g, entries), seen)
    decreases |entries|
  {
    hide Ledger, CloneOne;
    if entries != [] {
      CloneOneKeeps(g, seen, entries[0]);
      CrowdedLater(g, seen, entries);
      CloneAllKeeps(CloneOne(g, entries[0]), seen, entries[1..]);
    }
  }

  // ---- the branch that breaks it -----------------------------------------------------------------

  /** More pigeons fly than are counted, or two final verbs went out. */
  ghost predicate Overdrawn(g: Game, f: Fid) {
    RefOf(g, f) < multiset(g.pigeons)[f] || Finals(VerbsOf(g.sent, f)) >= 2
  }

  lemma OverdrawnIsBroken(g: Game, seen: set<Fid>, f: Fid)
    requires Overdrawn(g, f)
    ensures !Ledger(g, seen)
  {
    hide VerbsOf, Distinct, Waiting, OnlyCopies, Finished;
    var vs := VerbsOf(g.sent, f);
    assert vs == [] ==> Finals(vs) == 0;
    if Finished(vs) { FinishedHasOneFinal(vs); }
    if OnlyCopies(vs) { CopiesHaveNoFinal(vs); }
    assert !FrameOkIn(g, seen, f);
  }

  lemma UnrefOverdraws(g: Game, seen: set<Fid>, f: Fid)
    requires Ledger(g, seen) && f in seen && f !in Waiting(g.queue)
    ensures Overdrawn(Unref(g, f), f)
  {
    hide VerbsOf, Distinct, Waiting, OnlyCopies, Finished;
    assert FrameOkIn(g, seen, f);
    var vs := VerbsOf(g.sent, f);
    VerbsMore(g.sent, Verdict(Drop, 0, f), f);
    FinalsMore(vs, Drop);
    if Finished(vs) { FinishedHasOneFinal(vs); }
  }

  lemma UnrefStaysOverdrawn(g: Game, f: Fid, k: Fid)
    requires Overdrawn(g, f)
    ensures Overdrawn(Unref(g, k), f)
  {
    hide VerbsOf;
    VerbsMore(g.sent, Verdict(Drop, 0, k), f);
    FinalsMore(VerbsOf(g.sent, f), Drop);
    assert VerbsOf(g.sent, f) + [] == VerbsOf(g.sent, f);
  }

  lemma {:induction false} CrowdStaysOverdrawn(g: Game, f: Fid, entries: seq<Clone>)
    requires Overdrawn(g, f) && |g.pigeons| >= MAX_PIGEONS
    ensures Overdrawn(CloneAll(g, entries), f)
    decreases |entries|
  {
    hide Overdrawn;
    if entries != [] {
      UnrefStaysOverdrawn(g, f, entries[0].fid);
      CrowdStaysOverdrawn(Unref(g, entries[0].fid), f, entries[1..]);
    }
  }

  ghost predicate Flown(g: Game, seen: set<Fid>, entries: seq<Clone>) {
    forall e :: e in entries ==> e.fid in seen && e.fid !in Waiting(g.queue)
  }

  lemma {:induction false} CrowdBreaks(g: Game, seen: set<Fid>, entries: seq<Clone>) returns (f: Fid)
    requires Ledger(g, seen) && Crowded(g, entries) && Flown(g, seen, entries)
    ensures Overdrawn(CloneAll(g, entries), f)
    decreases |entries|
  {
    hide Ledger, Overdrawn, Waiting, Placeable;
    assert entries[0] in entries;
    if |g.pigeons| >= MAX_PIGEONS {
      f := entries[0].fid;
      UnrefOverdraws(g, seen, f);
      CrowdStaysOverdrawn(Unref(g, f), f, entries[1..]);
    } else {
      CloneOneKeeps(g, seen, entries[0]);
      CrowdedLater(g, seen, entries);
      f := CrowdBreaks(CloneOne(g, entries[0]), seen, entries[1..]);
    }
  }

  /** The clone pass keeps the ledger exactly when it never finds the sky full. */
  lemma ClonesExactIff(g: Game, seen: set<Fid>, entries: seq<Clone>)
    requires Ledger(g, seen) && Flown(g, seen, entries)
    ensures Ledger(CloneAll(g, entries), seen) <==> !Crowded(g, entries)
  {
    hide Ledger, Overdrawn, Crowded, Flown;
    if Crowded(g, entries) {
      var f := CrowdBreaks(g, seen, entries);
      OverdrawnIsBroken(CloneAll(g, entries), seen, f);
    } else {
      CloneAllKeeps(g, seen, entries);
    }
  }
}
