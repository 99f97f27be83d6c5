/** The manager object itself: its queue, flock, counts and clone backlog are
  * updated in place, and each method is proved to do what the game's
  * specification says and to keep the ledger. */
module PigeonManager {
  import opened Basics
  import opened LoftCore
  import opened Cluster
  import opened Pigeons
  import opened PigeonLedger
  import opened PigeonRuns

  lemma {:induction false} CloneAllMore(g: Game, entries: seq<Clone>, e: Clone)
    ensures CloneAll(g, entries + [e]) == CloneOne(CloneAll(g, entries), e)
    decreases |entries|
  {
    hide CloneOne;
    if entries == [] {
      assert [e][1..] == [] && CloneAll(CloneOne(g, e), []) == CloneOne(g, e);
      assert [] + [e] == [e];
    } else {
      assert (entries + [e])[1..] == entries[1..] + [e];
      CloneAllMore(CloneOne(g, entries[0]), entries[1..], e);
    }
  }

  class Manager {
    var queue: seq<Token>
    var pigeons: seq<Fid>
    var frameRefs: map<Fid, nat>
    var cloneBacklog: seq<Clone>
    var droppedByMe: nat
    ghost var sent: seq<Verdict>
    ghost var seen: set<Fid>

    ghost function State(): Game
      reads this
    {
      Game(queue, pigeons, frameRefs, sent, droppedByMe)
    }

    /** Between ticks the backlog is empty. */
    ghost predicate Valid()
      reads this
    {
      cloneBacklog == [] && Ledger(State(), seen)
    }

    constructor ()
      ensures State() == EMPTY_GAME && seen == {} && Valid()
    {
      queue, pigeons, frameRefs, cloneBacklog, droppedByMe := [], [], map[], [], 0;
      sent, seen := [], {};
      new;
      EmptyLedger();
    }

    /** One verb to the bridge. */
    ghost method Tell(v: Verdict)
      modifies `sent
      ensures sent == old(sent) + [v]
    {
      sent := sent + [v];
    }

    method Enqueue(token: Token)
      requires Valid() && token.fid !in seen
      modifies this
      ensures Valid() && State() == Pigeons.Enqueue(old(State()), token) && seen == old(seen) + {token.fid}
    {
      hide Ledger;
      EnqueueKeeps(State(), seen, token);
      queue := queue + [token];
      seen := seen + {token.fid};
      if |queue| > MAX_QUEUE {
        var victim := queue[0];
        queue := queue[1..];
        Tell(Verdict(Drop, 0, victim.fid));
        droppedByMe := droppedByMe + 1;
      }
    }

    method Resolve(f: Fid, port: PortId)
      modifies `frameRefs, `sent
      ensures State() == Pigeons.Resolve(old(State()), f, port)
    {
      var refs := if f in frameRefs then frameRefs[f] else 1;
      if refs > 1 {
        frameRefs := frameRefs[f := refs - 1];
        Tell(Verdict(CopyDeliver, port, f));
      } else {
        frameRefs := frameRefs - {f};
        Tell(Verdict(Deliver, port, f));
      }
    }

    method Unref(f: Fid)
      modifies `frameRefs, `sent, `droppedByMe
      ensures State() == Pigeons.Unref(old(State()), f)
    {
      var refs := if f in frameRefs then frameRefs[f] else 1;
      if refs > 1 {
        frameRefs := frameRefs[f := refs - 1];
      } else {
        frameRefs := frameRefs - {f};
        Tell(Verdict(Drop, 0, f));
        droppedByMe := droppedByMe + 1;
      }
    }

    method Spawn(token: Token, roosts: set<PortId>)
      modifies `frameRefs, `sent, `droppedByMe, `pigeons
      ensures State() == Pigeons.Spawn(old(State()), token, roosts)
    {
      if token.port !in roosts {
        Tell(Verdict(Drop, 0, token.fid));
        droppedByMe := droppedByMe + 1;
        return;
      }
      frameRefs := frameRefs[token.fid := 1];
      pigeons := pigeons + [token.fid];
    }

    method DrainQueue(roosts: set<PortId>)
      modifies `queue, `frameRefs, `sent, `droppedByMe, `pigeons
      ensures State() == SpawnAll(old(State()), roosts)
    {
      hide Pigeons.Spawn;
      while |queue| > 0 && |pigeons| < MAX_PIGEONS
        invariant SpawnAll(State(), roosts) == SpawnAll(old(State()), roosts)
        decreases |queue|
      {
        var token := queue[0];
        queue := queue[1..];
        Spawn(token, roosts);
      }
    }

    /** One pigeon's turn: its clones are noted, then it stays, falls or lands. */
    method TakeTurn(i: nat, o: Outcome)
      requires i < |pigeons|
      modifies `frameRefs, `sent, `droppedByMe, `pigeons, `cloneBacklog
      ensures State() == RideOne(old(State()), i, o.ret)
      ensures cloneBacklog == old(cloneBacklog) + ClonesOf(old(pigeons)[i], o.clones)
      ensures i <= |pigeons| && pigeons[..i] == old(pigeons)[..i]
    {
      hide Pigeons.Resolve, Pigeons.Unref;
      var p := pigeons[i];
      cloneBacklog := cloneBacklog + ClonesOf(p, o.clones);
      if o.ret == Keep { return; }
      pigeons := Without(pigeons, i);
      match o.ret {
        case Keep => assert false;
        case Fall => Unref(p);
        case Land(port) => Resolve(p, port);
      }
    }

    /** Everyone rides, last to first, so removing one never shifts the rest. */
    method Ride(outs: nat -> Outcome)
      modifies `frameRefs, `sent, `droppedByMe, `pigeons, `cloneBacklog
      ensures State() == RideAll(old(State()), |old(pigeons)|, outs)
      ensures cloneBacklog == old(cloneBacklog) + Backlog(old(pigeons), |old(pigeons)|, outs)
    {
      hide RideOne, ClonesOf;
      ghost var g, b := State(), cloneBacklog;
      var i := |pigeons|;
      while i > 0
        invariant 0 <= i <= |pigeons| && i <= |g.pigeons| && pigeons[..i] == g.pigeons[..i]
        invariant RideAll(State(), i, outs) == RideAll(g, |g.pigeons|, outs)
        invariant cloneBacklog + Backlog(g.pigeons, i, outs) == b + Backlog(g.pigeons, |g.pigeons|, outs)
      {
        i := i - 1;
        assert pigeons[i] == g.pigeons[..i + 1][i];
        ghost var now := pigeons;
        TakeTurn(i, outs(i));
        assert pigeons[..i] == now[..i + 1][..i] == g.pigeons[..i];
      }
    }

    method PlaceClones()
      modifies `frameRefs, `sent, `droppedByMe, `pigeons, `cloneBacklog
      ensures State() == CloneAll(old(State()), old(cloneBacklog)) && cloneBacklog == []
    {
      hide CloneAll;
      ghost var g := State();
      var backlog := cloneBacklog;
      cloneBacklog := [];
      assert CloneAll(g, []) == g by { NoClones(g); }
      assert backlog[..0] == [];
      for k := 0 to |backlog|
        invariant State() == CloneAll(g, backlog[..k]) && cloneBacklog == []
      {
        var e := backlog[k];
        ghost var before := State();
        if |pigeons| >= MAX_PIGEONS {
          Unref(e.fid);
        } else if e.fid in frameRefs && e.rides {
          frameRefs := frameRefs[e.fid := frameRefs[e.fid] + 1];
          pigeons := pigeons + [e.fid];
        }
        assert State() == CloneOne(before, e);
        assert backlog[..k + 1] == backlog[..k] + [e];
        CloneAllMore(g, backlog[..k], e);
      }
      assert backlog[..|backlog|] == backlog;
    }

    /** One tick. The ledger comes out exact exactly when no clone of this tick
      * found the sky full. */
    method Update(roosts: set<PortId>, outs: nat -> Outcome)
      requires Valid()
      modifies this
      ensures State() == Pigeons.Update(old(State()), roosts, outs) && seen == old(seen)
      ensures Valid() <==> !TickCrowded(old(State()), roosts, outs)
    {
      hide Ledger, SpawnAll, RideAll, CloneAll, Backlog, TickCrowded;
      TickExactIff(State(), seen, roosts, outs);
      DrainQueue(roosts);
      ghost var g1 := State();
      Ride(outs);
      assert [] + Backlog(g1.pigeons, |g1.pigeons|, outs) == Backlog(g1.pigeons, |g1.pigeons|, outs);
      PlaceClones();
    }
  }
}
