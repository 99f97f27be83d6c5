/** The daemon itself: one object whose fields are updated in place, section by
  * section, exactly as the mutex-protected code does, each method proved to be
  * the state transformer of LoftCore and to keep the loft's books. */
module LoftDaemon {
  import opened Basics
  import opened LoftCore
  import opened LoftConservation

  lemma OneLessToDo(stale: set<Fid>, todo: set<Fid>, fid: Fid)
    requires fid in todo
    ensures |stale - (todo - {fid})| == |stale - todo| + if fid in stale then 1 else 0
  {
    if fid in stale {
      assert stale - (todo - {fid}) == (stale - todo) + {fid};
    } else {
      assert stale - (todo - {fid}) == stale - todo;
    }
  }

  /** Port counters when the frames in `todo` are still to be looked at. */
  ghost predicate TtlSoFar(l: Loft, now: Time, todo: set<Fid>, stats: map<PortId, PortStats>) {
    && stats.Keys == l.stats.Keys
    && forall p :: p in stats ==>
         stats[p] == if p in l.byID then l.stats[p].(ttl := l.stats[p].ttl + |StaleFrom(l, now, p) - todo|) else l.stats[p]
  }

  lemma TtlStart(l: Loft, now: Time)
    ensures TtlSoFar(l, now, l.frames.Keys, l.stats)
  {
    forall p | p in l.stats
      ensures StaleFrom(l, now, p) - l.frames.Keys == {}
    {
    }
  }

  lemma TtlEnd(l: Loft, now: Time, stats: map<PortId, PortStats>)
    requires TtlSoFar(l, now, {}, stats)
    ensures stats == SweepStats(l, now)
  {
    hide StaleFrom;
    forall p | p in stats
      ensures StaleFrom(l, now, p) - {} == StaleFrom(l, now, p)
    {
    }
  }

  function CountedTtl(l: Loft, now: Time, stats: map<PortId, PortStats>, fid: Fid): map<PortId, PortStats>
    requires fid in l.frames && l.byID <= stats.Keys
  {
    var p := l.frames[fid].port;
    if Stale(l.frames[fid].added, now, BUF_TTL) && p in l.byID then stats[p := stats[p].(ttl := stats[p].ttl + 1)] else stats
  }

  lemma IsStaleFrom(l: Loft, now: Time, p: PortId, fid: Fid)
    requires fid in l.frames
    ensures fid in StaleFrom(l, now, p) <==> Stale(l.frames[fid].added, now, BUF_TTL) && l.frames[fid].port == p
  {
  }

  lemma TtlStep(l: Loft, now: Time, todo: set<Fid>, stats: map<PortId, PortStats>, fid: Fid)
    requires TtlSoFar(l, now, todo, stats) && fid in todo && fid in l.frames && l.byID <= l.stats.Keys
    ensures TtlSoFar(l, now, todo - {fid}, CountedTtl(l, now, stats, fid))
  {
    hide StaleFrom;
    var after := CountedTtl(l, now, stats, fid);
    assert after.Keys == stats.Keys;
    forall p | p in after
      ensures after[p] == if p in l.byID then l.stats[p].(ttl := l.stats[p].ttl + |StaleFrom(l, now, p) - (todo - {fid})|) else l.stats[p]
    {
      OneLessToDo(StaleFrom(l, now, p), todo, fid);
      IsStaleFrom(l, now, p, fid);
    }
  }

  lemma TtlKeys(l: Loft, now: Time, todo: set<Fid>, stats: map<PortId, PortStats>)
    requires TtlSoFar(l, now, todo, stats)
    ensures stats.Keys == l.stats.Keys
  {
  }

  lemma LeftAtStart(l: Loft, now: Time)
    ensures l.frames == l.frames - (StaleFrames(l, now) - l.frames.Keys)
  {
    assert StaleFrames(l, now) - l.frames.Keys == {};
  }

  lemma LeftStep(l: Loft, now: Time, todo: set<Fid>, fid: Fid)
    requires fid in todo && fid in l.frames
    ensures var left := l.frames - (StaleFrames(l, now) - todo);
            && fid in left && left[fid] == l.frames[fid]
            && l.frames - (StaleFrames(l, now) - (todo - {fid})) == if Stale(l.frames[fid].added, now, BUF_TTL) then left - {fid} else left
  {
    var gone := StaleFrames(l, now);
    if fid in gone {
      assert gone - (todo - {fid}) == (gone - todo) + {fid};
    } else {
      assert gone - (todo - {fid}) == gone - todo;
    }
  }

  lemma RemoteLeftAtStart(l: Loft, now: Time)
    ensures l.reg.frames == l.reg.frames - (StaleRemote(l, now) - l.reg.frames.Keys)
  {
    assert StaleRemote(l, now) - l.reg.frames.Keys == {};
  }

  lemma RemoteLeftStep(l: Loft, now: Time, todo: set<Fid>, fid: Fid)
    requires fid in todo && fid in l.reg.frames
    ensures var left := l.reg.frames - (StaleRemote(l, now) - todo);
            && fid in left && left[fid] == l.reg.frames[fid]
            && l.reg.frames - (StaleRemote(l, now) - (todo - {fid})) == if Stale(l.reg.frames[fid].added, now, REMOTE_TTL) then left - {fid} else left
  {
    var gone := StaleRemote(l, now);
    if fid in gone {
      assert gone - (todo - {fid}) == (gone - todo) + {fid};
    } else {
      assert gone - (todo - {fid}) == gone - todo;
    }
  }

  lemma SweepIs(l: Loft, now: Time)
    ensures Sweep(l, now) == l.(frames := l.frames - StaleFrames(l, now), stats := SweepStats(l, now),
                                reg := l.reg.(frames := l.reg.frames - StaleRemote(l, now)), lastSweep := now,
                                hist := l.hist.(fate := l.hist.fate + Expiries(l, now)))
  {
    hide SweepStats, StaleRemote;
  }

  /** What is left of an edge's frames, and how many are gone, mid-walk. */
  lemma EdgeFramesStart(l: Loft, c: ConnId)
    ensures l.reg.frames == l.reg.frames - (FramesOf(l, c) - l.reg.frames.Keys)
    ensures |FramesOf(l, c) - l.reg.frames.Keys| == 0
  {
    assert FramesOf(l, c) - l.reg.frames.Keys == {};
  }

  lemma EdgeFramesStep(l: Loft, c: ConnId, todo: set<Fid>, fid: Fid)
    requires fid in todo && fid in l.reg.frames
    ensures var left := l.reg.frames - (FramesOf(l, c) - todo);
            var n := |FramesOf(l, c) - todo|;
            && fid in left && left[fid] == l.reg.frames[fid]
            && l.reg.frames - (FramesOf(l, c) - (todo - {fid})) == (if l.reg.frames[fid].conn == c then left - {fid} else left)
            && |FramesOf(l, c) - (todo - {fid})| == (if l.reg.frames[fid].conn == c then n + 1 else n)
  {
    var gone := FramesOf(l, c);
    OneLessToDo(gone, todo, fid);
    if fid in gone {
      assert gone - (todo - {fid}) == (gone - todo) + {fid};
    } else {
      assert gone - (todo - {fid}) == gone - todo;
    }
  }

  /** The synthesized ids of the edge ports looked at so far. */
  function SynthsOf(portMap: map<PortId, PortId>, seen: set<PortId>): set<PortId> {
    set r | r in seen && r in portMap :: portMap[r]
  }

  lemma SynthsStep(portMap: map<PortId, PortId>, ports: map<PortId, RemotePort>, todo: set<PortId>, r: PortId)
    requires r in todo && r in portMap
    ensures ports - SynthsOf(portMap, portMap.Keys - (todo - {r})) == ports - SynthsOf(portMap, portMap.Keys - todo) - {portMap[r]}
  {
    assert portMap.Keys - (todo - {r}) == (portMap.Keys - todo) + {r};
    assert SynthsOf(portMap, portMap.Keys - (todo - {r})) == SynthsOf(portMap, portMap.Keys - todo) + {portMap[r]};
  }

  lemma SynthsStart(portMap: map<PortId, PortId>, ports: map<PortId, RemotePort>)
    ensures ports - SynthsOf(portMap, portMap.Keys - portMap.Keys) == ports
  {
    assert portMap.Keys - portMap.Keys == {};
    assert SynthsOf(portMap, {}) == {};
  }

  lemma SynthsEnd(l: Loft, c: ConnId)
    requires c in l.reg.conns
    ensures SynthsOf(l.reg.conns[c].portMap, l.reg.conns[c].portMap.Keys - {}) == PortsOf(l, c)
  {
    var m := l.reg.conns[c].portMap;
    assert m.Keys - {} == m.Keys;
  }

  /** The walks read nothing but the remote frames. */
  lemma SameRemote(l: Loft, m: Loft, now: Time, c: ConnId)
    requires m.reg.frames == l.reg.frames
    ensures StaleRemote(m, now) == StaleRemote(l, now) && FramesOf(m, c) == FramesOf(l, c)
  {
  }

  lemma EdgeGoneBooks(l: Loft, c: ConnId)
    requires LoftInv(l) && c in l.reg.conns
    ensures LoftInv(EdgeGone(l, c)) && Grows(l, EdgeGone(l, c))
  {
    hide LoftInv, Grows, FramesOf, PortsOf;
    RegistryBooks(l, EdgeGone(l, c));
  }

  class Daemon {
    var byID: set<PortId>
    var stats: map<PortId, PortStats>
    var nextID: nat
    var frames: map<Fid, BufFrame>
    var nextFID: nat
    var router: bool
    var trunk: bool
    var noGame: nat
    var dropTrunk: nat
    var lastSweep: Time
    var conns: map<ConnId, Conn>
    var remotePorts: map<PortId, RemotePort>
    var remoteFrames: map<Fid, RemoteFrame>
    ghost var hist: History

    ghost function State(): Loft
      reads this
    {
      Loft(byID, stats, nextID, frames, nextFID, router, trunk, noGame, dropTrunk, lastSweep,
           Registry(conns, remotePorts, remoteFrames), hist)
    }

    constructor (now: Time)
      ensures State() == LoftCore.Init(now) && LoftInv(State())
    {
      byID, stats, nextID, frames, nextFID := {}, map[], 1, map[], 1;
      router, trunk, noGame, dropTrunk, lastSweep := false, false, 0, 0, now;
      conns, remotePorts, remoteFrames := map[], map[], map[];
      hist := History(map[], map[], 0, 0, 0);
      InitBooks(now);
    }

    method AddPort() returns (id: PortId)
      modifies this
      ensures id == old(nextID) && State() == LoftCore.AddPort(old(State()))
      ensures LoftInv(old(State())) && BeforeWrap(old(State())) ==> LoftInv(State()) && Grows(old(State()), State())
    {
      hide LoftInv, BeforeWrap, Grows;
      ghost var l := State();
      id := nextID;
      nextID := (nextID + 1) % PORT_IDS;
      byID := byID + {id};
      stats := stats[id := NO_STATS];
      if LoftInv(l) && BeforeWrap(l) { AddPortBooks(l); }
    }

    method RemovePort(p: PortId)
      modifies this
      ensures State() == LoftCore.RemovePort(old(State()), p)
      ensures LoftInv(old(State())) ==> LoftInv(State()) && Grows(old(State()), State())
    {
      ghost var l := State();
      byID := byID - {p};
      if LoftInv(l) { RemovePortBooks(l, p); }
    }

    /** A frame arrives. The token, if there is one, is what goes upstream. */
    method Ingest(p: PortId, data: Payload, now: Time) returns (tok: Option<Token>)
      requires p in stats
      modifies this
      ensures State() == LoftCore.Ingest(old(State()), p, data, now)
      ensures tok == match IngestOutcome(old(State()), p, data) case Accepted(t) => Some(t) case _ => None
      ensures LoftInv(old(State())) && BeforeWrap(old(State())) && old(lastSweep) <= now ==> LoftInv(State()) && Grows(old(State()), State())
    {
      hide LoftInv, BeforeWrap, Grows;
      ghost var l := State();
      tok := Arrive(p, data, now);
      if LoftInv(l) && BeforeWrap(l) && l.lastSweep <= now { IngestBooks(l, p, data, now); }
    }

    method Arrive(p: PortId, data: Payload, now: Time) returns (tok: Option<Token>)
      requires p in stats
      modifies this
      ensures State() == LoftCore.Ingest(old(State()), p, data, now)
      ensures tok == match IngestOutcome(old(State()), p, data) case Accepted(t) => Some(t) case _ => None
    {
      hide Buffer, CountRx, BuildToken;
      if |data| < MIN_FRAME { return None; }
      Received(p, |data|);
      if !router && !trunk {
        noGame := noGame + 1;
        hist := hist.(unrouted := hist.unrouted + 1);
        return None;
      }
      if |frames| >= MAX_BUFFERED {
        stats := stats[p := stats[p].(overflow := stats[p].overflow + 1)];
        hist := hist.(shed := hist.shed + 1);
        return None;
      }
      var fid := Store(p, data, now);
      return Some(BuildToken(p, fid, data));
    }

    method Received(p: PortId, len: nat)
      requires p in stats
      modifies this
      ensures State() == CountRx(old(State()), p, len)
      ensures p in stats && nextFID == old(nextFID) && frames == old(frames) && router == old(router) && trunk == old(trunk)
    {
      stats := stats[p := stats[p].(rxFrames := stats[p].rxFrames + 1, rxBytes := stats[p].rxBytes + len)];
      hist := hist.(received := hist.received + 1);
    }

    method Store(p: PortId, data: Payload, now: Time) returns (fid: Fid)
      modifies this
      ensures State() == Buffer(old(State()), p, data, now) && fid == old(nextFID)
    {
      fid := nextFID;
      nextFID := (nextFID + 1) % FRAME_IDS;
      frames := frames[fid := BufFrame(p, data, now, false)];
      hist := hist.(born := hist.born[fid := BufFrame(p, data, now, false)]);
    }

    /** Take a frame out for a verdict: freed if consuming, marked if copying. */
    method Take(fid: Fid, consume: bool, ghost cause: Vid) returns (data: Option<Payload>)
      modifies this
      ensures State() == Push(old(State()), fid, consume, cause)
      ensures data == if fid in old(frames) then Some(old(frames)[fid].data) else None
      ensures LoftInv(old(State())) ==> LoftInv(State()) && Grows(old(State()), State())
    {
      hide LoftInv, Grows;
      ghost var l := State();
      data := None;
      if fid in frames {
        data := Some(frames[fid].data);
        if consume {
          frames := frames - {fid};
          hist := hist.(fate := hist.fate[fid := Delivered(cause)]);
        } else {
          frames := frames[fid := frames[fid].(copied := true)];
        }
      }
      if LoftInv(l) { PushBooks(l, fid, consume, cause); }
    }

    /** Nothing happens unless both the frame and the port are here. */
    method DeliverLocal(p: PortId, fid: Fid, consume: bool, ghost cause: Vid) returns (data: Option<Payload>)
      requires byID <= stats.Keys
      modifies this
      ensures State() == LoftCore.DeliverLocal(old(State()), p, fid, consume, cause)
      ensures data == if CanDeliver(old(State()), p, fid) then Some(old(frames)[fid].data) else None
      ensures LoftInv(old(State())) ==> LoftInv(State()) && Grows(old(State()), State())
    {
      hide LoftInv, Grows;
      ghost var l := State();
      data := None;
      if fid in frames && p in byID {
        data := Take(fid, consume, cause);
        var len := |data.value|;
        stats := stats[p := stats[p].(txFrames := stats[p].txFrames + 1, txBytes := stats[p].txBytes + len)];
      }
      if LoftInv(l) { DeliverLocalBooks(l, p, fid, consume, cause); }
    }

    method DropLocal(fid: Fid)
      requires byID <= stats.Keys
      modifies this
      ensures State() == LoftCore.DropLocal(old(State()), fid)
      ensures LoftInv(old(State())) ==> LoftInv(State()) && Grows(old(State()), State())
    {
      hide LoftInv, Grows;
      ghost var l := State();
      if fid in frames {
        var f := frames[fid];
        frames := frames - {fid};
        hist := hist.(fate := hist.fate[fid := Dropped(!f.copied && f.port in byID)]);
        if !f.copied {
          if f.port in byID {
            stats := stats[f.port := stats[f.port].(consumer := stats[f.port].consumer + 1)];
          }
        }
      }
      if LoftInv(l) { DropLocalBooks(l, fid); }
    }

    /** A sibling pushed a payload here. */
    method ServePeer(p: PortId, data: Payload) returns (written: bool)
      requires byID <= stats.Keys
      modifies this
      ensures State() == PeerWrite(old(State()), p, data) && written == PeerAccepts(old(State()), p, data)
      ensures LoftInv(old(State())) ==> LoftInv(State()) && Grows(old(State()), State())
    {
      hide LoftInv, Grows;
      ghost var l := State();
      written := false;
      if |data| >= MIN_FRAME {
        if p in byID {
          stats := stats[p := stats[p].(txFrames := stats[p].txFrames + 1, txBytes := stats[p].txBytes + |data|)];
          written := true;
        }
      }
      if LoftInv(l) { PeerWriteBooks(l, p, data); }
    }

    /** Expire one frame if it is stale, counting it against its own port. */
    method ExpireIfStale(fid: Fid, now: Time)
      requires fid in frames && byID <= stats.Keys
      modifies `frames, `stats
      ensures frames == if Stale(old(frames)[fid].added, now, BUF_TTL) then old(frames) - {fid} else old(frames)
      ensures var p := old(frames)[fid].port;
              stats == if Stale(old(frames)[fid].added, now, BUF_TTL) && p in byID
                       then old(stats)[p := old(stats)[p].(ttl := old(stats)[p].ttl + 1)] else old(stats)
    {
      var f := frames[fid];
      if now - f.added > BUF_TTL {
        frames := frames - {fid};
        if f.port in byID {
          stats := stats[f.port := stats[f.port].(ttl := stats[f.port].ttl + 1)];
        }
      }
    }

    /** Expire stale frames one by one, deleting from the map while walking it. */
    method SweepFrames(now: Time)
      requires byID <= stats.Keys
      modifies `frames, `stats
      ensures frames == old(frames) - StaleFrames(old(State()), now)
      ensures stats == SweepStats(old(State()), now)
    {
      hide TtlSoFar, StaleFrames, SweepStats, Stale;
      ghost var l := State();
      var todo := frames.Keys;
      TtlStart(l, now);
      LeftAtStart(l, now);
      while todo != {}
        invariant todo <= l.frames.Keys
        invariant frames == l.frames - (StaleFrames(l, now) - todo)
        invariant TtlSoFar(l, now, todo, stats)
        decreases |todo|
      {
        var fid :| fid in todo;
        TtlKeys(l, now, todo, stats);
        TtlStep(l, now, todo, stats, fid);
        LeftStep(l, now, todo, fid);
        ExpireIfStale(fid, now);
        todo := todo - {fid};
      }
      assert StaleFrames(l, now) - {} == StaleFrames(l, now);
      TtlEnd(l, now, stats);
    }

    method SweepRemote(now: Time)
      modifies `remoteFrames
      ensures remoteFrames == old(remoteFrames) - StaleRemote(old(State()), now)
    {
      hide StaleRemote;
      ghost var l := State();
      var todo := remoteFrames.Keys;
      RemoteLeftAtStart(l, now);
      while todo != {}
        invariant todo <= l.reg.frames.Keys
        invariant remoteFrames == l.reg.frames - (StaleRemote(l, now) - todo)
        decreases |todo|
      {
        var fid :| fid in todo;
        RemoteLeftStep(l, now, todo, fid);
        if now - remoteFrames[fid].added > REMOTE_TTL {
          remoteFrames := remoteFrames - {fid};
        }
        todo := todo - {fid};
      }
      assert StaleRemote(l, now) - {} == StaleRemote(l, now);
    }

    method Housekeeping(now: Time)
      requires byID <= stats.Keys
      modifies this
      ensures State() == Sweep(old(State()), now)
      ensures LoftInv(old(State())) ==> LoftInv(State()) && Grows(old(State()), State())
    {
      hide LoftInv, Grows, StaleFrames, SweepStats, StaleRemote, Sweep, Expiries;
      ghost var l := State();
      SweepFrames(now);
      SameRemote(l, State(), now, 0);
      SweepRemote(now);
      lastSweep := now;
      hist := hist.(fate := hist.fate + Expiries(l, now));
      SweepIs(l, now);
      if LoftInv(l) { SweepBooks(l, now); }
    }

    // ---- the gateway's registry ------------------------------------------------

    method OpenTrunk(c: ConnId)
      modifies `conns
      ensures State() == LoftCore.OpenTrunk(old(State()), c)
    {
      conns := conns[c := Conn(None, map[])];
    }

    method Hello(c: ConnId, addr: Node)
      requires c in conns
      modifies `conns
      ensures State() == LoftCore.Hello(old(State()), c, addr)
    {
      conns := conns[c := conns[c].(addr := Some(addr))];
    }

    /** The id the consumer will know the port by, unless the port had one. */
    method RegisterRemotePort(c: ConnId, remoteID: PortId) returns (synth: Option<PortId>)
      requires c in conns
      modifies this
      ensures State() == LoftCore.RegisterRemotePort(old(State()), c, remoteID)
      ensures synth == if remoteID in old(conns)[c].portMap then None else Some(old(nextID))
    {
      if remoteID in conns[c].portMap { return None; }
      var id := nextID;
      nextID := (nextID + 1) % PORT_IDS;
      remotePorts := remotePorts[id := RemotePort(c, conns[c].addr, remoteID)];
      conns := conns[c := conns[c].(portMap := conns[c].portMap[remoteID := id])];
      return Some(id);
    }

    method UnregisterRemotePort(c: ConnId, remoteID: PortId)
      requires c in conns
      modifies this
      ensures State() == LoftCore.UnregisterRemotePort(old(State()), c, remoteID)
    {
      var e := conns[c];
      if remoteID in e.portMap {
        conns := conns[c := e.(portMap := e.portMap - {remoteID})];
        remotePorts := remotePorts - {e.portMap[remoteID]};
      }
    }

    /** The token to pass on, or nothing: then the edge is told to free the frame. */
    method OnToken(c: ConnId, tok: Token, now: Time) returns (fwd: Option<Token>)
      requires c in conns
      modifies this
      ensures State() == AdmitToken(old(State()), c, tok, now)
      ensures fwd == if TokenPasses(old(State()), c, tok) then Some(RewriteToken(old(State()), c, tok)) else None
    {
      if tok.port !in conns[c].portMap || !router {
        if !router { noGame := noGame + 1; }
        return None;
      }
      var synthPort, synthFID := conns[c].portMap[tok.port], nextFID;
      nextFID := (nextFID + 1) % FRAME_IDS;
      remoteFrames := remoteFrames[synthFID := RemoteFrame(c, tok.fid, synthPort, now)];
      return Some(tok.(port := synthPort, fid := synthFID));
    }

    method ForgetPorts(c: ConnId)
      requires c in conns
      modifies `remotePorts
      ensures remotePorts == old(remotePorts) - PortsOf(old(State()), c)
    {
      hide PortsOf, SynthsOf;
      ghost var l := State();
      var portMap := conns[c].portMap;
      var todo := portMap.Keys;
      SynthsStart(portMap, l.reg.ports);
      while todo != {}
        invariant todo <= portMap.Keys
        invariant remotePorts == l.reg.ports - SynthsOf(portMap, portMap.Keys - todo)
        decreases |todo|
      {
        var r :| r in todo;
        SynthsStep(portMap, l.reg.ports, todo, r);
        remotePorts := remotePorts - {portMap[r]};
        todo := todo - {r};
      }
      SynthsEnd(l, c);
    }

    method ForgetFrames(c: ConnId)
      modifies `remoteFrames, `dropTrunk
      ensures remoteFrames == old(remoteFrames) - FramesOf(old(State()), c)
      ensures dropTrunk == old(dropTrunk) + |FramesOf(old(State()), c)|
    {
      hide FramesOf;
      ghost var l := State();
      var todo := remoteFrames.Keys;
      EdgeFramesStart(l, c);
      while todo != {}
        invariant todo <= l.reg.frames.Keys
        invariant remoteFrames == l.reg.frames - (FramesOf(l, c) - todo)
        invariant dropTrunk == l.dropTrunk + |FramesOf(l, c) - todo|
        decreases |todo|
      {
        var fid :| fid in todo;
        EdgeFramesStep(l, c, todo, fid);
        if remoteFrames[fid].conn == c {
          remoteFrames := remoteFrames - {fid};
          dropTrunk := dropTrunk + 1;
        }
        todo := todo - {fid};
      }
      assert FramesOf(l, c) - {} == FramesOf(l, c);
    }

    /** Tear down everything an edge owned; its in-flight frames are trunk drops. */
    method EdgeGone(c: ConnId)
      requires c in conns
      modifies this
      ensures State() == LoftCore.EdgeGone(old(State()), c)
      ensures LoftInv(old(State())) ==> LoftInv(State()) && Grows(old(State()), State())
    {
      hide LoftInv, Grows, FramesOf, PortsOf;
      ghost var l := State();
      ForgetPorts(c);
      SameRemote(l, State(), 0, c);
      ForgetFrames(c);
      conns := conns - {c};
      if LoftInv(l) { EdgeGoneBooks(l, c); }
    }

    /** First half of a verdict: look both ids up; a drop forgets the frame at once. */
    method Lookup(drop: bool, p: PortId, fid: Fid) returns (rf: Option<RemoteFrame>, rp: Option<RemotePort>)
      modifies `remoteFrames
      ensures rf == if fid in old(remoteFrames) then Some(old(remoteFrames)[fid]) else None
      ensures rp == if !drop && p in remotePorts then Some(remotePorts[p]) else None
      ensures State() == if drop && fid in old(remoteFrames) then ForgetRemote(old(State()), fid) else old(State())
    {
      rf := if fid in remoteFrames then Some(remoteFrames[fid]) else None;
      rp := if !drop && p in remotePorts then Some(remotePorts[p]) else None;
      if drop && fid in remoteFrames {
        remoteFrames := remoteFrames - {fid};
      }
    }
  }
}
