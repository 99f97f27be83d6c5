/** A verdict that nothing interferes with does what it says: its own events, one after
  * the other, bring the frame's payload to the port, wherever either of them is. */
module ClusterArrival {
  import opened Basics
  import opened LoftCore
  import opened LoftConservation
  import opened Cluster
  import opened ClusterSafety
  import opened ClusterVerdicts
  import opened ClusterRuns
  import opened ClusterEnds

  /** The events in turn; one that cannot happen changes nothing. */
  ghost function Later(s: Cluster, events: seq<Event>): Cluster
    decreases |events|
  {
    if events == [] || !WellFormed(s) then s else Later(Step(s, events[0]), events[1..])
  }

  /** All that a verdict can cause. */
  function OwnEvents(v: Verdict, vid: Vid): seq<Event> { [VerdictIn(v), Act(vid), EdgeIn(vid), PeerIn(vid)] }

  /** The frame is buffered where it was announced to be, and if that is at an edge the
    * gateway has not forgotten it. */
  predicate FrameAtHand(s: Cluster, f: Fid) {
    && f in s.known && Buffered(s, s.known[f].origin) && GATEWAY in s.lofts
    && (s.known[f].origin.node != GATEWAY ==> f in Gw(s).reg.frames)
  }

  /** The port is registered where it was announced to be, and if that is at an edge the
    * gateway knows it and the address to reach it at. */
  predicate PortAtHand(s: Cluster, p: PortId) {
    && p in s.portOf && GATEWAY in s.lofts && s.portOf[p].node in s.lofts && s.portOf[p].port in s.lofts[s.portOf[p].node].byID
    && if s.portOf[p].node == GATEWAY then s.portOf[p].port == p else p in Gw(s).reg.ports && Gw(s).reg.ports[p].addr.Some?
  }

  /** One more frame of this length out of that port. */
  predicate OneMoreOut(s: Cluster, t: Cluster, x: Phys, len: nat) {
    && x.node in s.lofts && x.port in s.lofts[x.node].stats && x.node in t.lofts && x.port in t.lofts[x.node].stats
    && t.lofts[x.node].stats[x.port].txFrames == s.lofts[x.node].stats[x.port].txFrames + 1
    && t.lofts[x.node].stats[x.port].txBytes == s.lofts[x.node].stats[x.port].txBytes + len
  }

  /** The frame has left its buffer for good, or is marked and still there. */
  predicate HandedOut(s: Cluster, t: Cluster, o: Origin, consume: bool, vid: Vid)
    requires Buffered(s, o)
  {
    if consume then !Buffered(t, o) && HasEnded(t, o) && FateOf(t, o) == Delivered(vid)
    else Buffered(t, o) && HeldAs(t, o) == HeldAs(s, o).(copied := true)
  }

  // ---- what the gateway finds when it looks both ids up ------------------------------------------

  lemma FoundFrame(s: Cluster, f: Fid)
    requires Inv(s) && FrameAtHand(s, f)
    ensures var o, rf := s.known[f].origin, LookupFrame(Gw(s), f);
            && (rf.Some? <==> o.node != GATEWAY)
            && (rf.Some? ==> rf.value.conn in s.connNode && Origin(s.connNode[rf.value.conn], rf.value.remoteFID) == o)
            && (rf.None? ==> o == Origin(GATEWAY, f))
  {
    hide PortMapsInverse, RegPortsOk, PortIdsOk, TokensOk, TokensUnannounced, DoomedOk, InFlightOk, WritesOk, Linear, RolesOk, LoftInv;
    assert AnnouncedOk(s.lofts, s.portOf, f, s.known[f]);
    if f in Gw(s).reg.frames { assert RemoteFrameOk(s.connNode, s.known, f, Gw(s).reg.frames[f]); }
  }

  lemma FoundPort(s: Cluster, p: PortId)
    requires Inv(s) && PortAtHand(s, p)
    ensures var x, rp := s.portOf[p], LookupPort(Gw(s), p);
            && (rp.Some? <==> x.node != GATEWAY)
            && (rp.Some? ==> rp.value.conn in s.connNode && Phys(s.connNode[rp.value.conn], rp.value.remoteID) == x && rp.value.addr == Some(x.node))
            && (rp.None? ==> x == Phys(GATEWAY, p))
            && x.port in s.lofts[x.node].stats
  {
    hide PortMapsInverse, RegFramesOk, KnownOk, IdsOk, TokensOk, TokensUnannounced, DoomedOk, InFlightOk, WritesOk, Linear, RolesOk;
    if p in Gw(s).reg.ports { assert RemotePortOk(s.connNode, s.portOf, p, Gw(s).reg.ports[p]); }
    assert LoftInv(s.lofts[s.portOf[p].node]);
  }

  lemma LongEnough(s: Cluster, o: Origin)
    requires Inv(s) && Buffered(s, o)
    ensures |HeldAs(s, o).data| >= MIN_FRAME && !HasEnded(s, o) && s.lofts[o.node].byID <= s.lofts[o.node].stats.Keys
  {
    hide RolesOk, ConnsOk, PortMapsInverse, RegFramesOk, RegPortsOk, PortIdsOk, KnownOk, IdsOk, TokensOk, TokensUnannounced, DoomedOk, InFlightOk, WritesOk, Linear, CountersExact, PortsBelow, Unexpired;
    assert LoftInv(s.lofts[o.node]);
  }

  // ---- one event at a time ------------------------------------------------------------------------

  lemma Asks(s: Cluster, v: Verdict)
    requires Inv(s) && !v.verb.Drop?
    ensures WellFormed(s) && s.nextVid !in s.pending && s.nextVid !in s.net
    ensures var t, vid := Step(s, VerdictIn(v)), s.nextVid;
            && Inv(t) && WellFormed(t) && t.lofts == s.lofts && t.net == s.net && t.writes == s.writes && t.connNode == s.connNode
            && vid in t.verdicts && t.verdicts[vid] == v
            && vid in t.pending && t.pending[vid] == Pending(LookupFrame(Gw(s), v.fid), LookupPort(Gw(s), v.port))
  {
    hide Inv, WellFormed, FactsGrow, LookupFrame, LookupPort;
    InvWellFormed(s);
    LinearHolds(s);
    GatewayIsThere(s);
    assert Step(s, VerdictIn(v)) == DoVerdictIn(s, v);
    VerdictInKeeps(s, v);
    InvWellFormed(DoVerdictIn(s, v));
  }

  lemma GatewayIsThere(s: Cluster)
    requires Inv(s)
    ensures GATEWAY in s.lofts
  {
    hide RolesOk, ConnsOk, PortMapsInverse, RegFramesOk, RegPortsOk, PortIdsOk, KnownOk, IdsOk, TokensOk, TokensUnannounced, DoomedOk, InFlightOk, WritesOk, Linear, LoftInv;
  }

  /** The event is carried out, and what it leads to is again in order. */
  lemma Acts(s: Cluster, vid: Vid)
    requires Inv(s) && WellFormed(s) && vid in s.pending
    ensures var t := Step(s, Act(vid)); Enabled(s, Act(vid)) && t == DoAct(s, vid) && Inv(t) && WellFormed(t)
  {
    hide Inv, FactsGrow, DoAct, Execute;
    ActKeeps(s, vid);
    InvWellFormed(DoAct(s, vid));
  }

  lemma Obeys(s: Cluster, vid: Vid)
    requires Inv(s) && WellFormed(s) && Enabled(s, EdgeIn(vid))
    ensures Inv(Step(s, EdgeIn(vid))) && WellFormed(Step(s, EdgeIn(vid)))
  {
    hide Inv, FactsGrow, DoEdgeIn, Execute;
    EdgeInKeeps(s, vid);
    InvWellFormed(DoEdgeIn(s, vid));
  }

  lemma ObeysIs(s: Cluster, vid: Vid)
    requires WellFormed(s) && Enabled(s, EdgeIn(vid))
    ensures Step(s, EdgeIn(vid)) == DoEdgeIn(s, vid)
  {
    hide WellFormed, DoEdgeIn;
  }

  /** Nothing is different in what can be delivered where. */
  predicate SamePorts(s: Cluster, t: Cluster) {
    t.lofts.Keys == s.lofts.Keys && forall n :: n in s.lofts ==> t.lofts[n].byID == s.lofts[n].byID && t.lofts[n].stats == s.lofts[n].stats
  }

  /** The payload is on its way to `x`, taken out of the frame as it should be. */
  ghost predicate Pushed(s: Cluster, t: Cluster, vid: Vid, consume: bool, o: Origin, x: Phys)
    requires Buffered(s, o)
  {
    && SamePorts(s, t) && t.writes == s.writes && HandedOut(s, t, o, consume, vid)
    && vid !in t.pending && vid in t.net && t.net[vid] == Inject(o.node, Some(x.node), x.port, HeldAs(s, o).data)
  }

  lemma PushIs(s: Cluster, vid: Vid, consume: bool, o: Origin, x: Phys)
    requires Buffered(s, o) && vid !in s.pending
    ensures Pushed(s, PushOut(s, o.node, vid, consume, o.fid, Some(x.node), x.port), vid, consume, o, x)
  {
  }

  ghost predicate Arrived(s: Cluster, t: Cluster, vid: Vid, consume: bool, o: Origin, x: Phys)
    requires Buffered(s, o)
  {
    && t.writes == s.writes + [Write(vid, x.node, x.port, HeldAs(s, o).data)]
    && vid !in t.pending && vid !in t.net && HandedOut(s, t, o, consume, vid) && OneMoreOut(s, t, x, |HeldAs(s, o).data|)
  }

  lemma ExecuteIs(s: Cluster, vid: Vid, verb: Verb, o: Origin, p: PortId)
    requires Buffered(s, o) && vid !in s.pending && vid !in s.net && !verb.Drop?
    requires s.lofts[o.node].byID <= s.lofts[o.node].stats.Keys && p in s.lofts[o.node].byID
    ensures Arrived(s, Execute(s, o.node, vid, verb, p, o.fid), vid, verb.Deliver?, o, Phys(o.node, p))
  {
  }

  /** A push that is not lost is written. */
  lemma PushLands(s: Cluster, t: Cluster, vid: Vid, consume: bool, o: Origin, x: Phys)
    requires Buffered(s, o) && Pushed(s, t, vid, consume, o, x) && WellFormed(t) && |HeldAs(s, o).data| >= MIN_FRAME
    requires x.node in s.lofts && x.port in s.lofts[x.node].byID && x.port in s.lofts[x.node].stats
    ensures Arrived(s, Step(t, PeerIn(vid)), vid, consume, o, x)
  {
    assert Step(t, PeerIn(vid)) == DoPeerIn(t, vid);
  }

  lemma NothingToDo(s: Cluster, vid: Vid)
    requires WellFormed(s)
    ensures vid !in s.net ==> Step(s, EdgeIn(vid)) == s && Step(s, PeerIn(vid)) == s
    ensures vid in s.net && s.net[vid].Inject? ==> Step(s, EdgeIn(vid)) == s
  {
  }

  // ---- the four cases -----------------------------------------------------------------------------------

  /** What is known once the verdict has been looked up. */
  ghost predicate LookedUp(s: Cluster, vid: Vid, v: Verdict, q: Pending, o: Origin, x: Phys) {
    && WellFormed(s) && Inv(s) && vid in s.pending && s.pending[vid] == q && vid in s.verdicts && s.verdicts[vid] == v && vid !in s.net && !v.verb.Drop?
    && Buffered(s, o) && |HeldAs(s, o).data| >= MIN_FRAME && !HasEnded(s, o)
    && x.node in s.lofts && x.port in s.lofts[x.node].byID && x.port in s.lofts[x.node].stats
    && (if q.rf.Some? then q.rf.value.conn in s.connNode && Origin(s.connNode[q.rf.value.conn], q.rf.value.remoteFID) == o && o.node != GATEWAY
        else o == Origin(GATEWAY, v.fid))
    && (if q.rp.Some? then q.rp.value.conn in s.connNode && Phys(s.connNode[q.rp.value.conn], q.rp.value.remoteID) == x && q.rp.value.addr == Some(x.node)
        else x == Phys(GATEWAY, v.port))
  }

  /** The rest of the verdict's own events. */
  ghost function Rest(s: Cluster, vid: Vid): Cluster { Later(s, [Act(vid), EdgeIn(vid), PeerIn(vid)]) }

  lemma RestIs(s: Cluster, t: Cluster, u: Cluster, vid: Vid)
    requires WellFormed(s) && t == Step(s, Act(vid)) && WellFormed(t) && u == Step(t, EdgeIn(vid)) && WellFormed(u)
    ensures Rest(s, vid) == Step(u, PeerIn(vid))
  {
    hide WellFormed, Step;
    assert [Act(vid), EdgeIn(vid), PeerIn(vid)][1..] == [EdgeIn(vid), PeerIn(vid)];
    assert [EdgeIn(vid), PeerIn(vid)][1..] == [PeerIn(vid)] && [PeerIn(vid)][1..] == [];
    assert Later(u, [PeerIn(vid)]) == Later(Step(u, PeerIn(vid)), []);
    assert Later(t, [EdgeIn(vid), PeerIn(vid)]) == Later(u, [PeerIn(vid)]);
  }

  lemma OursToOurs(s: Cluster, vid: Vid, v: Verdict, q: Pending, o: Origin, x: Phys)
    requires LookedUp(s, vid, v, q, o, x) && q == Pending(None, None)
    ensures Arrived(s, Rest(s, vid), vid, v.verb.Deliver?, o, x)
  {
    hide Inv, Arrived, Execute, Step, HandedOut;
    Acts(s, vid);
    var s1 := s.(pending := s.pending - {vid});
    ExecuteIs(s1, vid, v.verb, o, x.port);
    var t := DoAct(s, vid);
    assert t == Execute(s1, GATEWAY, vid, v.verb, x.port, o.fid);
    ArrivedFrom(s, s1, t, vid, v.verb.Deliver?, o, x);
    NothingToDo(t, vid);
    RestIs(s, t, t, vid);
  }

  lemma ArrivedFrom(s: Cluster, s1: Cluster, t: Cluster, vid: Vid, consume: bool, o: Origin, x: Phys)
    requires Buffered(s, o) && s1.lofts == s.lofts && s1.writes == s.writes && Arrived(s1, t, vid, consume, o, x)
    ensures Arrived(s, t, vid, consume, o, x) && vid !in t.net
  {
  }

  lemma PushedFrom(s: Cluster, s1: Cluster, t: Cluster, vid: Vid, consume: bool, o: Origin, x: Phys)
    requires Buffered(s, o) && s1.lofts == s.lofts && s1.writes == s.writes && Pushed(s1, t, vid, consume, o, x)
    ensures Pushed(s, t, vid, consume, o, x) && vid in t.net && t.net[vid].Inject?
  {
  }

  lemma OursToTheirs(s: Cluster, vid: Vid, v: Verdict, q: Pending, o: Origin, x: Phys)
    requires LookedUp(s, vid, v, q, o, x) && q.rf.None? && q.rp.Some?
    ensures Arrived(s, Rest(s, vid), vid, v.verb.Deliver?, o, x)
  {
    hide Inv, Arrived, Pushed, PushOut, Step, HandedOut;
    Acts(s, vid);
    var s1, consume := s.(pending := s.pending - {vid}), v.verb.Deliver?;
    PushIs(s1, vid, consume, o, x);
    var t := DoAct(s, vid);
    assert t == PushOut(s1, GATEWAY, vid, consume, o.fid, Some(x.node), x.port);
    PushedFrom(s, s1, t, vid, consume, o, x);
    NothingToDo(t, vid);
    RestIs(s, t, t, vid);
    PushLands(s, t, vid, consume, o, x);
  }

  lemma TheirsStays(s: Cluster, vid: Vid, v: Verdict, q: Pending, o: Origin, x: Phys)
    requires LookedUp(s, vid, v, q, o, x) && q.rf.Some? && q.rp.Some? && q.rp.value.conn == q.rf.value.conn
    ensures Arrived(s, Rest(s, vid), vid, v.verb.Deliver?, o, x)
  {
    hide Inv, Arrived, Execute, Step, HandedOut;
    Acts(s, vid);
    var t := DoAct(s, vid);
    assert t.net == s.net[vid := Instruct(q.rf.value.conn, v.verb, x.port, o.fid)] && t.lofts == s.lofts && t.writes == s.writes && vid !in t.pending;
    Obeys(t, vid);
    ObeysIs(t, vid);
    var s1 := t.(net := t.net - {vid});
    ExecuteIs(s1, vid, v.verb, o, x.port);
    var u := DoEdgeIn(t, vid);
    assert u == Execute(s1, o.node, vid, v.verb, x.port, o.fid);
    ArrivedFrom(s, s1, u, vid, v.verb.Deliver?, o, x);
    NothingToDo(u, vid);
    RestIs(s, t, u, vid);
  }

  lemma TheirsLeaves(s: Cluster, vid: Vid, v: Verdict, q: Pending, o: Origin, x: Phys)
    requires LookedUp(s, vid, v, q, o, x) && q.rf.Some?
    requires q.rp.Some? ==> q.rp.value.conn != q.rf.value.conn
    ensures Arrived(s, Rest(s, vid), vid, v.verb.Deliver?, o, x)
  {
    hide Inv, Arrived, Pushed, PushOut, Step, HandedOut;
    Acts(s, vid);
    var t := DoAct(s, vid);
    var consume := v.verb.Deliver?;
    assert t.net == s.net[vid := SendRemote(q.rf.value.conn, consume, o.fid, x.port, Some(x.node))] && t.lofts == s.lofts && t.writes == s.writes && vid !in t.pending;
    Obeys(t, vid);
    ObeysIs(t, vid);
    var s1 := t.(net := t.net - {vid});
    PushIs(s1, vid, consume, o, x);
    var u := DoEdgeIn(t, vid);
    assert u == PushOut(s1, o.node, vid, consume, o.fid, Some(x.node), x.port);
    PushedFrom(s, s1, u, vid, consume, o, x);
    RestIs(s, t, u, vid);
    PushLands(s, u, vid, consume, o, x);
  }

  lemma AllArrive(s: Cluster, vid: Vid, v: Verdict, q: Pending, o: Origin, x: Phys)
    requires LookedUp(s, vid, v, q, o, x)
    ensures Arrived(s, Rest(s, vid), vid, v.verb.Deliver?, o, x)
  {
    hide LookedUp, Arrived, Rest;
    if q.rf.None? {
      if q.rp.None? { OursToOurs(s, vid, v, q, o, x); } else { OursToTheirs(s, vid, v, q, o, x); }
    } else if q.rp.Some? && q.rp.value.conn == q.rf.value.conn {
      TheirsStays(s, vid, v, q, o, x);
    } else {
      TheirsLeaves(s, vid, v, q, o, x);
    }
  }

  lemma OwnEventsAre(s: Cluster, v: Verdict, vid: Vid)
    requires WellFormed(s)
    ensures Later(s, OwnEvents(v, vid)) == Rest(Step(s, VerdictIn(v)), vid)
  {
    hide WellFormed, Step;
    assert OwnEvents(v, vid)[1..] == [Act(vid), EdgeIn(vid), PeerIn(vid)];
  }

  /** In every state a run can reach, wherever frame and port are: a (copy-)deliver that is
    * not disturbed writes that frame's payload to that port, once, and nothing else. The port
    * counts it, the frame is gone with the verdict as its fate or is kept and marked, and
    * nothing of the verdict is left on its way. */
  lemma VerdictArrives(s: Cluster, v: Verdict)
    requires Inv(s) && !v.verb.Drop? && FrameAtHand(s, v.fid) && PortAtHand(s, v.port)
    ensures var o, x, vid, t := s.known[v.fid].origin, s.portOf[v.port], s.nextVid, Later(s, OwnEvents(v, s.nextVid));
            && t.writes == s.writes + [Write(vid, x.node, x.port, HeldAs(s, o).data)]
            && vid !in t.pending && vid !in t.net
            && (v.verb.Deliver? ==> !Buffered(t, o) && HasEnded(t, o) && FateOf(t, o) == Delivered(vid))
            && (v.verb.CopyDeliver? ==> Buffered(t, o) && HeldAs(t, o) == HeldAs(s, o).(copied := true))
            && OneMoreOut(s, t, x, |HeldAs(s, o).data|)
  {
    hide Inv, WellFormed, OwnEvents, Later, Rest, FrameAtHand, PortAtHand, OneMoreOut;
    AtHandIs(s, v);
    Asks(s, v);
    var o, x, vid, t := s.known[v.fid].origin, s.portOf[v.port], s.nextVid, Step(s, VerdictIn(v));
    FoundFrame(s, v.fid);
    FoundPort(s, v.port);
    LongEnough(s, o);
    OwnEventsAre(s, v, vid);
    NowLookedUp(s, t, v, o, x);
    AllArrive(t, vid, v, Pending(LookupFrame(Gw(s), v.fid), LookupPort(Gw(s), v.port)), o, x);
    ArrivedSince(s, t, Later(s, OwnEvents(v, vid)), vid, v.verb.Deliver?, o, x);
  }

  lemma AtHandIs(s: Cluster, v: Verdict)
    requires FrameAtHand(s, v.fid) && PortAtHand(s, v.port)
    ensures v.fid in s.known && Buffered(s, s.known[v.fid].origin) && v.port in s.portOf && GATEWAY in s.lofts
    ensures s.portOf[v.port].node in s.lofts && s.portOf[v.port].port in s.lofts[s.portOf[v.port].node].byID
  {
  }

  lemma NowLookedUp(s: Cluster, t: Cluster, v: Verdict, o: Origin, x: Phys)
    requires GATEWAY in s.lofts && WellFormed(t) && Inv(t) && t.lofts == s.lofts && t.connNode == s.connNode && t.net == s.net && !v.verb.Drop?
    requires s.nextVid in t.pending && s.nextVid in t.verdicts && t.verdicts[s.nextVid] == v && s.nextVid !in s.net
    requires t.pending[s.nextVid] == Pending(LookupFrame(Gw(s), v.fid), LookupPort(Gw(s), v.port))
    requires Buffered(s, o) && |HeldAs(s, o).data| >= MIN_FRAME && !HasEnded(s, o)
    requires x.node in s.lofts && x.port in s.lofts[x.node].byID && x.port in s.lofts[x.node].stats
    requires var rf := LookupFrame(Gw(s), v.fid);
             if rf.Some? then rf.value.conn in s.connNode && Origin(s.connNode[rf.value.conn], rf.value.remoteFID) == o && o.node != GATEWAY
             else o == Origin(GATEWAY, v.fid)
    requires var rp := LookupPort(Gw(s), v.port);
             if rp.Some? then rp.value.conn in s.connNode && Phys(s.connNode[rp.value.conn], rp.value.remoteID) == x && rp.value.addr == Some(x.node)
             else x == Phys(GATEWAY, v.port)
    ensures LookedUp(t, s.nextVid, v, t.pending[s.nextVid], o, x)
  {
    hide Inv, WellFormed, LookupFrame, LookupPort;
  }

  lemma ArrivedSince(s: Cluster, s1: Cluster, t: Cluster, vid: Vid, consume: bool, o: Origin, x: Phys)
    requires Buffered(s, o) && s1.lofts == s.lofts && s1.writes == s.writes && Arrived(s1, t, vid, consume, o, x)
    ensures Arrived(s, t, vid, consume, o, x)
  {
  }

  // ---- drops --------------------------------------------------------------------------------------------

  /** All that a drop can cause. */
  function DropEvents(v: Verdict, vid: Vid): seq<Event> { [VerdictIn(v), Act(vid), EdgeIn(vid)] }

  /** The frame is gone, counted if its port is here and no copy was made. */
  ghost predicate Freed(s: Cluster, t: Cluster, o: Origin)
    requires Buffered(s, o)
  {
    var f, counted := HeldAs(s, o), !HeldAs(s, o).copied && PortIsHere(s, o);
    && !Buffered(t, o) && HasEnded(t, o) && FateOf(t, o) == Dropped(counted)
    && (f.port in s.lofts[o.node].stats ==>
          && f.port in t.lofts[o.node].stats
          && t.lofts[o.node].stats[f.port].consumer == s.lofts[o.node].stats[f.port].consumer + if counted then 1 else 0)
  }

  lemma DropIs(s: Cluster, vid: Vid, o: Origin, p: PortId)
    requires Buffered(s, o) && s.lofts[o.node].byID <= s.lofts[o.node].stats.Keys
    ensures var t := Execute(s, o.node, vid, Drop, p, o.fid);
            Freed(s, t, o) && t.writes == s.writes && t.pending == s.pending && t.net == s.net
  {
  }

  lemma AsksToDrop(s: Cluster, v: Verdict)
    requires Inv(s) && v.verb.Drop?
    ensures WellFormed(s) && s.nextVid !in s.pending && s.nextVid !in s.net
    ensures var t, vid, rf := Step(s, VerdictIn(v)), s.nextVid, LookupFrame(Gw(s), v.fid);
            && Inv(t) && WellFormed(t) && t.net == s.net && t.writes == s.writes && t.connNode == s.connNode
            && t.lofts == (if rf.Some? then s.lofts[GATEWAY := ForgetRemote(Gw(s), v.fid)] else s.lofts)
            && vid in t.verdicts && t.verdicts[vid] == v && vid in t.pending && t.pending[vid] == Pending(rf, None)
  {
    hide Inv, WellFormed, FactsGrow, LookupFrame, LookupPort, ForgetRemote;
    InvWellFormed(s);
    LinearHolds(s);
    GatewayIsThere(s);
    assert Step(s, VerdictIn(v)) == DoVerdictIn(s, v);
    VerdictInKeeps(s, v);
    InvWellFormed(DoVerdictIn(s, v));
  }

  lemma FreedSince(s: Cluster, t: Cluster, u: Cluster, o: Origin)
    requires Buffered(s, o) && (t.lofts == s.lofts || (GATEWAY in s.lofts && exists f :: t.lofts == s.lofts[GATEWAY := ForgetRemote(Gw(s), f)]))
    ensures Buffered(t, o) && (Freed(t, u, o) ==> Freed(s, u, o))
    ensures s.lofts[o.node].byID <= s.lofts[o.node].stats.Keys ==> t.lofts[o.node].byID <= t.lofts[o.node].stats.Keys
  {
  }

  lemma DropEventsAre(s: Cluster, t: Cluster, u: Cluster, v: Verdict, vid: Vid)
    requires WellFormed(s) && t == Step(s, VerdictIn(v)) && WellFormed(t) && u == Step(t, Act(vid)) && WellFormed(u)
    ensures Later(s, DropEvents(v, vid)) == Step(u, EdgeIn(vid))
  {
    hide WellFormed, Step;
    assert DropEvents(v, vid)[1..] == [Act(vid), EdgeIn(vid)] && [Act(vid), EdgeIn(vid)][1..] == [EdgeIn(vid)] && [EdgeIn(vid)][1..] == [];
    assert Later(u, [EdgeIn(vid)]) == Later(Step(u, EdgeIn(vid)), []);
    assert Later(t, [Act(vid), EdgeIn(vid)]) == Later(u, [EdgeIn(vid)]);
  }

  lemma DropOurs(t: Cluster, vid: Vid, v: Verdict, o: Origin)
    requires Inv(t) && WellFormed(t) && v.verb.Drop? && vid in t.pending && t.pending[vid] == Pending(None, None) && vid in t.verdicts && t.verdicts[vid] == v
    requires o == Origin(GATEWAY, v.fid) && Buffered(t, o) && vid !in t.net && t.lofts[o.node].byID <= t.lofts[o.node].stats.Keys
    ensures var u := Step(t, Act(vid));
            WellFormed(u) && Freed(t, Step(u, EdgeIn(vid)), o) && Step(u, EdgeIn(vid)).writes == t.writes
  {
    hide Inv, Execute, Step, Freed, Buffered;
    Acts(t, vid);
    var s1 := t.(pending := t.pending - {vid});
    FreedSince(t, s1, Execute(s1, GATEWAY, vid, Drop, v.port, v.fid), o);
    DropIs(s1, vid, o, v.port);
    NothingToDo(DoAct(t, vid), vid);
  }

  lemma DropTheirs(t: Cluster, vid: Vid, v: Verdict, rf: RemoteFrame, o: Origin)
    requires Inv(t) && WellFormed(t) && v.verb.Drop? && vid in t.pending && t.pending[vid] == Pending(Some(rf), None) && vid in t.verdicts && t.verdicts[vid] == v
    requires rf.conn in t.connNode && o == Origin(t.connNode[rf.conn], rf.remoteFID) && Buffered(t, o)
    requires t.lofts[o.node].byID <= t.lofts[o.node].stats.Keys
    ensures var u := Step(t, Act(vid));
            WellFormed(u) && Freed(t, Step(u, EdgeIn(vid)), o) && Step(u, EdgeIn(vid)).writes == t.writes
  {
    hide Inv, Execute, Step, Freed;
    Acts(t, vid);
    var u := DoAct(t, vid);
    assert u.net == t.net[vid := Instruct(rf.conn, Drop, 0, o.fid)] && u.lofts == t.lofts && u.writes == t.writes && u.connNode == t.connNode;
    assert Enabled(u, EdgeIn(vid)) by { CanObey(t, u, o, vid); }
    Obeys(u, vid);
    ObeysIs(u, vid);
    var s1 := u.(net := u.net - {vid});
    FreedSince(t, s1, Execute(s1, o.node, vid, Drop, 0, o.fid), o);
    DropIs(s1, vid, o, 0);
  }

  lemma CanObey(t: Cluster, u: Cluster, o: Origin, vid: Vid)
    requires WellFormed(t) && u.lofts == t.lofts && Buffered(t, o) && vid in u.net && !u.net[vid].Inject?
    requires u.net[vid].conn in u.connNode && u.connNode[u.net[vid].conn] == o.node
    ensures Enabled(u, EdgeIn(vid))
  {
  }

  /** A drop that is not disturbed frees the frame where it is buffered, writes nothing, and
    * counts in the frame's own port unless that is gone or a copy was made. */
  lemma DropArrives(s: Cluster, v: Verdict)
    requires Inv(s) && v.verb.Drop? && FrameAtHand(s, v.fid)
    ensures var o, t := s.known[v.fid].origin, Later(s, DropEvents(v, s.nextVid));
            Freed(s, t, o) && t.writes == s.writes
  {
    hide Inv, WellFormed, Later, FrameAtHand, Freed, Step, ForgetRemote;
    HeldIs(s, v.fid);
    AsksToDrop(s, v);
    var o, vid, t := s.known[v.fid].origin, s.nextVid, Step(s, VerdictIn(v));
    FoundFrame(s, v.fid);
    LongEnough(s, o);
    SameHeld(s, t, o, v.fid);
    if o.node == GATEWAY {
      DropOurs(t, vid, v, o);
    } else {
      DropTheirs(t, vid, v, LookupFrame(Gw(s), v.fid).value, o);
    }
    var u := Step(t, Act(vid));
    DropEventsAre(s, t, u, v, vid);
    FreedSince(s, t, Step(u, EdgeIn(vid)), o);
  }

  lemma SameHeld(s: Cluster, t: Cluster, o: Origin, f: Fid)
    requires Buffered(s, o) && GATEWAY in s.lofts && (t.lofts == s.lofts || t.lofts == s.lofts[GATEWAY := ForgetRemote(Gw(s), f)])
    requires s.lofts[o.node].byID <= s.lofts[o.node].stats.Keys
    ensures Buffered(t, o) && t.lofts[o.node].byID <= t.lofts[o.node].stats.Keys
  {
  }

  lemma HeldIs(s: Cluster, f: Fid)
    requires FrameAtHand(s, f)
    ensures f in s.known && Buffered(s, s.known[f].origin) && GATEWAY in s.lofts
  {
  }
}
