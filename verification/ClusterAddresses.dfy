/** Where the gateway learns the address of a remote port, and that it keeps it. */
module ClusterAddresses {
  import opened Basics
  import opened LoftCore
  import opened LoftConservation
  import opened Cluster
  import opened ClusterSafety
  import opened ClusterRuns
  import opened ClusterArrival

  /** Trunks and remote ports are as they were. */
  predicate SameTrunks(a: Registry, b: Registry) { b.conns == a.conns && b.ports == a.ports }

  predicate KeepsTrunks(s: Cluster, t: Cluster) {
    GATEWAY in s.lofts && GATEWAY in t.lofts && SameTrunks(Gw(s).reg, Gw(t).reg)
  }

  /** One loft at work. */
  lemma LoftWorks(s: Cluster, t: Cluster, n: Node, l: Loft)
    requires GATEWAY in s.lofts && n in s.lofts && t.lofts == s.lofts[n := l] && SameTrunks(s.lofts[n].reg, l.reg)
    ensures KeepsTrunks(s, t)
  {
  }

  lemma PortsAndFramesOnly(l: Loft, p: PortId, data: Payload, now: Time)
    ensures SameTrunks(l.reg, AddPort(l).reg) && SameTrunks(l.reg, RemovePort(l, p).reg) && SameTrunks(l.reg, Sweep(l, now).reg)
    ensures p in l.stats ==> SameTrunks(l.reg, Ingest(l, p, data, now).reg)
  {
    hide StaleFrames, StaleRemote, SweepStats;
  }

  lemma PayloadsOnly(l: Loft, p: PortId, fid: Fid, consume: bool, vid: Vid, data: Payload)
    requires l.byID <= l.stats.Keys
    ensures SameTrunks(l.reg, DeliverLocal(l, p, fid, consume, vid).reg) && SameTrunks(l.reg, Push(l, fid, consume, vid).reg)
    ensures SameTrunks(l.reg, DropLocal(l, fid).reg) && SameTrunks(l.reg, PeerWrite(l, p, data).reg)
    ensures SameTrunks(l.reg, TrunkDrop(l).reg) && SameTrunks(l.reg, ForgetRemote(l, fid).reg)
  {
  }

  lemma PortUpTrunks(s: Cluster, n: Node)
    requires GATEWAY in s.lofts && n in s.lofts
    ensures KeepsTrunks(s, DoPortUp(s, n))
  {
    hide AddPort, KeepsTrunks, SameTrunks;
    PortsAndFramesOnly(s.lofts[n], 0, [], 0);
    LoftWorks(s, DoPortUp(s, n), n, AddPort(s.lofts[n]));
  }

  lemma FrameInTrunks(s: Cluster, n: Node, p: PortId, data: Payload, c: ConnId)
    requires GATEWAY in s.lofts && n in s.lofts && p in s.lofts[n].stats
    ensures KeepsTrunks(s, DoFrameIn(s, n, p, data, c))
  {
    hide Ingest, IngestOutcome, KeepsTrunks, SameTrunks;
    PortsAndFramesOnly(s.lofts[n], p, data, s.now);
    LoftWorks(s, DoFrameIn(s, n, p, data, c), n, Ingest(s.lofts[n], p, data, s.now));
  }

  lemma LoftEventTrunks(s: Cluster, e: Event)
    requires WellFormed(s) && Enabled(s, e) && AtOneLoft(e)
    ensures KeepsTrunks(s, LoftEvent(s, e))
  {
    hide WellFormed, AddPort, RemovePort, Sweep, DoPortUp, DoFrameIn;
    match e
    case PortUp(n) => PortUpTrunks(s, n);
    case FrameIn(n, p, data, c) => FrameInTrunks(s, n, p, data, c);
    case PortDown(n, p) => PortsAndFramesOnly(s.lofts[n], p, [], 0); LoftWorks(s, LoftEvent(s, e), n, RemovePort(s.lofts[n], p));
    case Housekeeping(n) => PortsAndFramesOnly(s.lofts[n], 0, [], s.now); LoftWorks(s, LoftEvent(s, e), n, Sweep(s.lofts[n], s.now));
    case Attach(b) => LoftWorks(s, LoftEvent(s, e), GATEWAY, Gw(s).(router := b));
    case TrunkUp(n, b) => LoftWorks(s, LoftEvent(s, e), n, s.lofts[n].(trunk := b));
    case Tick(_) =>
  }

  lemma ExecuteLofts(s: Cluster, n: Node, vid: Vid, verb: Verb, p: PortId, fid: Fid)
    requires n in s.lofts && s.lofts[n].byID <= s.lofts[n].stats.Keys
    ensures Execute(s, n, vid, verb, p, fid).lofts
         == s.lofts[n := if verb.Drop? then DropLocal(s.lofts[n], fid) else DeliverLocal(s.lofts[n], p, fid, verb.Deliver?, vid)]
  {
    hide DropLocal, DeliverLocal, CanDeliver;
    if verb.Drop? {
      assert Execute(s, n, vid, verb, p, fid) == WithLoft(s, n, DropLocal(s.lofts[n], fid));
    } else {
      var s1 := WithLoft(s, n, DeliverLocal(s.lofts[n], p, fid, verb.Deliver?, vid));
      assert Execute(s, n, vid, verb, p, fid).lofts == s1.lofts;
    }
  }

  lemma ExecuteTrunks(s: Cluster, n: Node, vid: Vid, verb: Verb, p: PortId, fid: Fid)
    requires GATEWAY in s.lofts && n in s.lofts && s.lofts[n].byID <= s.lofts[n].stats.Keys
    ensures KeepsTrunks(s, Execute(s, n, vid, verb, p, fid))
  {
    hide DropLocal, DeliverLocal, CanDeliver, KeepsTrunks, SameTrunks, Execute;
    var l := s.lofts[n];
    PayloadsOnly(l, p, fid, verb.Deliver?, vid, []);
    ExecuteLofts(s, n, vid, verb, p, fid);
    LoftWorks(s, Execute(s, n, vid, verb, p, fid), n, if verb.Drop? then DropLocal(l, fid) else DeliverLocal(l, p, fid, verb.Deliver?, vid));
  }

  lemma PushOutTrunks(s: Cluster, n: Node, vid: Vid, consume: bool, fid: Fid, addr: Option<Node>, p: PortId)
    requires GATEWAY in s.lofts && n in s.lofts && s.lofts[n].byID <= s.lofts[n].stats.Keys
    ensures KeepsTrunks(s, PushOut(s, n, vid, consume, fid, addr, p))
  {
    hide Push, KeepsTrunks, SameTrunks;
    var t := PushOut(s, n, vid, consume, fid, addr, p);
    PayloadsOnly(s.lofts[n], p, fid, consume, vid, []);
    if fid in s.lofts[n].frames {
      assert t.lofts == s.lofts[n := Push(s.lofts[n], fid, consume, vid)];
      LoftWorks(s, t, n, Push(s.lofts[n], fid, consume, vid));
    } else {
      SameLofts(s, t);
    }
  }

  lemma ActTrunks(s: Cluster, vid: Vid)
    requires WellFormed(s) && Enabled(s, Act(vid))
    ensures KeepsTrunks(s, DoAct(s, vid))
  {
    hide Execute, PushOut, Send;
    var v, q, s1 := s.verdicts[vid], s.pending[vid], s.(pending := s.pending - {vid});
    if q.rf.None? {
      if v.verb.Drop? || q.rp.None? {
        ExecuteTrunks(s1, GATEWAY, vid, v.verb, v.port, v.fid);
      } else {
        PushOutTrunks(s1, GATEWAY, vid, v.verb.Deliver?, v.fid, q.rp.value.addr, q.rp.value.remoteID);
      }
    } else {
      SendTrunks(s, vid);
    }
  }

  lemma SameLofts(s: Cluster, t: Cluster)
    requires GATEWAY in s.lofts && t.lofts == s.lofts
    ensures KeepsTrunks(s, t)
  {
  }

  lemma SendIs(s: Cluster, vid: Vid, packet: Packet, v: Verdict)
    ensures Send(s, vid, packet, v).lofts == s.lofts && Send(s, vid, packet, v).writes == s.writes
  {
  }

  /** For a remote frame the gateway only sends word. */
  lemma OnlyMail(s: Cluster, vid: Vid)
    requires WellFormed(s) && Enabled(s, Act(vid)) && s.pending[vid].rf.Some?
    ensures DoAct(s, vid).lofts == s.lofts && DoAct(s, vid).writes == s.writes
  {
    hide Send, Execute, PushOut;
    var v, rf, rp, s1 := s.verdicts[vid], s.pending[vid].rf.value, s.pending[vid].rp, s.(pending := s.pending - {vid});
    if v.verb.Drop? {
      SendIs(s1, vid, Instruct(rf.conn, Drop, 0, rf.remoteFID), v);
    } else if rp.Some? && rp.value.conn == rf.conn {
      SendIs(s1, vid, Instruct(rf.conn, v.verb, rp.value.remoteID, rf.remoteFID), v);
    } else if rp.Some? {
      SendIs(s1, vid, SendRemote(rf.conn, v.verb.Deliver?, rf.remoteFID, rp.value.remoteID, rp.value.addr), v);
    } else {
      SendIs(s1, vid, SendRemote(rf.conn, v.verb.Deliver?, rf.remoteFID, v.port, Some(GATEWAY)), v);
    }
  }

  lemma SendTrunks(s: Cluster, vid: Vid)
    requires WellFormed(s) && Enabled(s, Act(vid)) && s.pending[vid].rf.Some?
    ensures KeepsTrunks(s, DoAct(s, vid))
  {
    hide DoAct, KeepsTrunks;
    OnlyMail(s, vid);
    SameLofts(s, DoAct(s, vid));
  }

  lemma EdgeInTrunks(s: Cluster, vid: Vid)
    requires WellFormed(s) && Enabled(s, EdgeIn(vid))
    ensures KeepsTrunks(s, DoEdgeIn(s, vid))
  {
    hide Execute, PushOut;
    var n, s1 := s.connNode[s.net[vid].conn], s.(net := s.net - {vid});
    match s.net[vid]
    case Instruct(_, verb, p, fid) => ExecuteTrunks(s1, n, vid, verb, p, fid);
    case SendRemote(_, consume, fid, dst, addr) => PushOutTrunks(s1, n, vid, consume, fid, addr, dst);
  }

  lemma PeerInTrunks(s: Cluster, vid: Vid)
    requires WellFormed(s) && Enabled(s, PeerIn(vid))
    ensures KeepsTrunks(s, DoPeerIn(s, vid))
  {
    hide PeerWrite, PeerAccepts, KeepsTrunks, SameTrunks;
    var k := s.net[vid];
    var l := s.lofts[k.addr.value];
    PayloadsOnly(l, k.port, 0, false, 0, k.data);
    LoftWorks(s, DoPeerIn(s, vid), k.addr.value, PeerWrite(l, k.port, k.data));
  }

  lemma VerdictInTrunks(s: Cluster, v: Verdict)
    requires WellFormed(s)
    ensures KeepsTrunks(s, DoVerdictIn(s, v))
  {
    hide ForgetRemote, LookupFrame, LookupPort;
    PayloadsOnly(Gw(s), 0, v.fid, false, 0, []);
    if DoVerdictIn(s, v).lofts != s.lofts { LoftWorks(s, DoVerdictIn(s, v), GATEWAY, ForgetRemote(Gw(s), v.fid)); }
  }

  lemma MailTrunks(s: Cluster, e: Event)
    requires WellFormed(s) && Enabled(s, e) && (e.Forget? || e.PeerFailed? || e.Lost?)
    ensures KeepsTrunks(s, VerdictEvent(s, e))
  {
    hide ForgetRemote, TrunkDrop;
    match e
    case Forget(f) => PayloadsOnly(Gw(s), 0, f, false, 0, []); LoftWorks(s, DoForget(s, f), GATEWAY, ForgetRemote(Gw(s), f));
    case PeerFailed(v) =>
      var n := s.net[v].from;
      PayloadsOnly(s.lofts[n], 0, 0, false, 0, []);
      LoftWorks(s, DoPeerFailed(s, v), n, TrunkDrop(s.lofts[n]));
    case Lost(v) =>
  }

  lemma VerdictEventTrunks(s: Cluster, e: Event)
    requires WellFormed(s) && Enabled(s, e) && OfAVerdict(e)
    ensures KeepsTrunks(s, VerdictEvent(s, e))
  {
    hide WellFormed, DoVerdictIn, DoAct, DoEdgeIn, DoPeerIn, KeepsTrunks;
    match e
    case VerdictIn(v) => VerdictInTrunks(s, v);
    case Act(v) => ActTrunks(s, v);
    case EdgeIn(v) => EdgeInTrunks(s, v);
    case PeerIn(v) => PeerInTrunks(s, v);
    case _ => MailTrunks(s, e);
  }

  /** What one event can do to the trunks and ports of the registry. */
  ghost predicate TrunksMove(s: Cluster, e: Event, t: Cluster)
    requires GATEWAY in s.lofts && GATEWAY in t.lofts
  {
    var a, b := Gw(s).reg, Gw(t).reg;
    && (forall c :: c in s.connNode && c in b.conns ==> c in a.conns && (a.conns[c].addr.Some? ==> b.conns[c].addr == a.conns[c].addr))
    && (forall q :: q in b.ports && q < Gw(s).nextID ==> q in a.ports && b.ports[q] == a.ports[q])
    && (forall q :: q in a.ports && q !in b.ports ==> e == PortRemoved(a.ports[q].conn, a.ports[q].remoteID) || e == TrunkLost(a.ports[q].conn))
  }

  lemma SameMove(s: Cluster, e: Event, t: Cluster)
    requires GATEWAY in s.lofts && GATEWAY in t.lofts && SameTrunks(Gw(s).reg, Gw(t).reg)
    ensures TrunksMove(s, e, t)
  {
  }

  lemma PortsNumbered(s: Cluster)
    requires Inv(s)
    ensures GATEWAY in s.lofts && forall q :: q in Gw(s).reg.ports ==> q < Gw(s).nextID
    ensures forall c :: c in Gw(s).reg.conns ==> c in s.connNode && AddrOk(Gw(s).reg.conns[c].addr, s.connNode[c])
    ensures PortMapsInverse(Gw(s).reg)
  {
    hide RolesOk, ConnsOk, PortMapsInverse, RegFramesOk, KnownOk, IdsOk, TokensOk, TokensUnannounced, DoomedOk, InFlightOk, WritesOk, Linear, LoftInv;
    forall q | q in Gw(s).reg.ports
      ensures q < Gw(s).nextID
    {
      assert RemotePortOk(s.connNode, s.portOf, q, Gw(s).reg.ports[q]);
    }
  }

  lemma TrunkEventMoves(s: Cluster, e: Event)
    requires Inv(s) && WellFormed(s) && Enabled(s, e) && OnATrunk(e)
    ensures var t := TrunkEvent(s, e); GATEWAY in t.lofts && TrunksMove(s, e, t)
  {
    hide Inv, WellFormed, PortMapsInverse, DoTokenIn, DoTrunkLost, TrunksMove;
    PortsNumbered(s);
    match e
    case Dial(c, n) => assert TrunksMove(s, e, DoDial(s, c, n)) by { DialMoves(s, c, n); }
    case HelloIn(c) => HelloMoves(s, c);
    case PortAdded(c, r) => AddedMoves(s, c, r);
    case PortRemoved(c, r) => RemovedMoves(s, c, r);
    case TokenIn(o) => TokenMoves(s, e, o);
    case TokenLost(o) => SameMove(s, e, s.(tokens := s.tokens - {o}));
    case TrunkLost(c) => LostMoves(s, c);
  }

  lemma DialMoves(s: Cluster, c: ConnId, n: Node)
    requires GATEWAY in s.lofts && c !in s.connNode
    ensures TrunksMove(s, Dial(c, n), DoDial(s, c, n))
  {
  }

  lemma HelloMoves(s: Cluster, c: ConnId)
    requires GATEWAY in s.lofts && c in Gw(s).reg.conns && c in s.connNode && AddrOk(Gw(s).reg.conns[c].addr, s.connNode[c])
    ensures TrunksMove(s, HelloIn(c), DoHello(s, c)) && Gw(DoHello(s, c)).reg.conns[c].addr == Some(s.connNode[c])
  {
  }

  lemma AddedMoves(s: Cluster, c: ConnId, r: PortId)
    requires GATEWAY in s.lofts && c in Gw(s).reg.conns && c in s.connNode && forall q :: q in Gw(s).reg.ports ==> q < Gw(s).nextID
    ensures TrunksMove(s, PortAdded(c, r), DoPortAdded(s, c, r))
  {
    hide TrunksMove;
    var g, t := Gw(s), DoPortAdded(s, c, r);
    assert Gw(t) == RegisterRemotePort(g, c, r);
    if r in g.reg.conns[c].portMap {
      assert Gw(t) == g;
      SameMove(s, PortAdded(c, r), t) by { Reflexive(g.reg); }
    } else {
      AddedReg(s, t, PortAdded(c, r), c, r);
    }
  }

  lemma AddedReg(s: Cluster, t: Cluster, e: Event, c: ConnId, r: PortId)
    requires GATEWAY in s.lofts && GATEWAY in t.lofts && c in Gw(s).reg.conns && forall q :: q in Gw(s).reg.ports ==> q < Gw(s).nextID
    requires var a, g := Gw(s).reg, Gw(s);
             && Gw(t).reg.ports == a.ports[g.nextID := RemotePort(c, a.conns[c].addr, r)]
             && Gw(t).reg.conns == a.conns[c := a.conns[c].(portMap := a.conns[c].portMap[r := g.nextID])]
    ensures TrunksMove(s, e, t)
  {
  }

  /** A port is registered under the next id, with the address its trunk has by then. */
  lemma AddedPort(s: Cluster, c: ConnId, r: PortId)
    requires GATEWAY in s.lofts && c in Gw(s).reg.conns && c in s.connNode && r !in Gw(s).reg.conns[c].portMap
    ensures var q, t := Gw(s).nextID, DoPortAdded(s, c, r);
            && GATEWAY in t.lofts && q in Gw(t).reg.ports && Gw(t).reg.ports[q] == RemotePort(c, Gw(s).reg.conns[c].addr, r)
            && q in t.portOf && t.portOf[q] == Phys(s.connNode[c], r)
  {
  }

  lemma RemovedMoves(s: Cluster, c: ConnId, r: PortId)
    requires GATEWAY in s.lofts && c in Gw(s).reg.conns && PortMapsInverse(Gw(s).reg)
    ensures TrunksMove(s, PortRemoved(c, r), DoPortRemoved(s, c, r))
  {
  }

  lemma TokenMoves(s: Cluster, e: Event, o: Origin)
    requires GATEWAY in s.lofts && o in s.tokens && s.tokens[o].conn in Gw(s).reg.conns
    ensures GATEWAY in DoTokenIn(s, o).lofts && TrunksMove(s, e, DoTokenIn(s, o))
  {
    hide AdmitToken, TokenPasses, RewriteToken, TrunksMove;
    AdmitTrunks(Gw(s), s.tokens[o].conn, s.tokens[o].token, s.now);
    LoftWorks(s, DoTokenIn(s, o), GATEWAY, AdmitToken(Gw(s), s.tokens[o].conn, s.tokens[o].token, s.now));
    SameMove(s, e, DoTokenIn(s, o));
  }

  lemma AdmitTrunks(l: Loft, c: ConnId, tok: Token, now: Time)
    requires c in l.reg.conns
    ensures SameTrunks(l.reg, AdmitToken(l, c, tok, now).reg)
  {
    hide TokenPasses;
  }

  lemma LostMoves(s: Cluster, c: ConnId)
    requires GATEWAY in s.lofts && c in Gw(s).reg.conns && PortMapsInverse(Gw(s).reg)
    ensures GATEWAY in DoTrunkLost(s, c).lofts && TrunksMove(s, TrunkLost(c), DoTrunkLost(s, c))
  {
    hide FramesOf;
    var a := Gw(s).reg;
    forall q | q in a.ports && q in PortsOf(Gw(s), c)
      ensures a.ports[q].conn == c
    {
      var r :| r in a.conns[c].portMap && a.conns[c].portMap[r] == q;
    }
  }

  lemma StepMoves(s: Cluster, e: Event)
    requires Inv(s) && WellFormed(s)
    ensures var t := Step(s, e); GATEWAY in s.lofts && GATEWAY in t.lofts && TrunksMove(s, e, t)
  {
    hide Inv, WellFormed, TrunksMove, LoftEvent, TrunkEvent, VerdictEvent, SameTrunks;
    PortsNumbered(s);
    if !Enabled(s, e) {
      assert SameTrunks(Gw(s).reg, Gw(s).reg) by { Reflexive(Gw(s).reg); }
      SameMove(s, e, s);
    } else if AtOneLoft(e) {
      LoftEventTrunks(s, e);
      SameMove(s, e, LoftEvent(s, e));
    } else if OnATrunk(e) {
      TrunkEventMoves(s, e);
    } else {
      VerdictEventTrunks(s, e);
      SameMove(s, e, VerdictEvent(s, e));
    }
  }

  lemma Reflexive(a: Registry)
    ensures SameTrunks(a, a)
  {
  }

  // ---- over runs --------------------------------------------------------------------------------------

  /** An edge that has said hello has that address on its trunk for as long as the trunk lasts. */
  lemma {:induction false} AddressKept(run: seq<Cluster>, events: seq<Event>, i: nat, j: nat, c: ConnId)
    requires IsRun(run, events) && |run| == |events| + 1 && i < j <= |events| && events[i] == HelloIn(c) && Enabled(run[i], events[i])
    requires GATEWAY in run[j].lofts && c in Gw(run[j]).reg.conns
    ensures c in run[j].connNode && c in run[i].connNode && run[j].connNode[c] == run[i].connNode[c]
    ensures Gw(run[j]).reg.conns[c].addr == Some(run[j].connNode[c])
    decreases j
  {
    hide Inv, WellFormed, IdsLeft, Step, TrunksMove;
    RunInv(run, events, j - 1);
    assert Moves(run[j - 1], events[j - 1], run[j]);
    StepMoves(run[j - 1], events[j - 1]);
    RunGrows(run, events, i, j);
    RunInv(run, events, i);
    PortsNumbered(run[i]);
    if j == i + 1 {
      HelloStep(run[i], c);
    } else {
      RunGrows(run, events, i, j - 1);
      OnlyDialAdds(run[j - 1], events[j - 1], run[j], c);
      AddressKept(run, events, i, j - 1, c);
    }
  }

  lemma HelloStep(s: Cluster, c: ConnId)
    requires Inv(s) && WellFormed(s) && Enabled(s, HelloIn(c))
    ensures GATEWAY in Step(s, HelloIn(c)).lofts && c in Gw(Step(s, HelloIn(c))).reg.conns
    ensures Gw(Step(s, HelloIn(c))).reg.conns[c].addr == Some(s.connNode[c])
  {
    hide Inv, WellFormed;
    PortsNumbered(s);
    assert Step(s, HelloIn(c)) == DoHello(s, c);
  }

  lemma OnlyDialAdds(s: Cluster, e: Event, t: Cluster, c: ConnId)
    requires GATEWAY in s.lofts && GATEWAY in t.lofts && TrunksMove(s, e, t) && c in s.connNode && c in Gw(t).reg.conns
    ensures c in Gw(s).reg.conns && (Gw(s).reg.conns[c].addr.Some? ==> Gw(t).reg.conns[c].addr == Gw(s).reg.conns[c].addr)
  {
  }

  /** A port keeps what it was registered with for as long as it is registered. */
  lemma {:induction false} PortKept(run: seq<Cluster>, events: seq<Event>, j: nat, k: nat, q: PortId)
    requires IsRun(run, events) && |run| == |events| + 1 && j <= k <= |events| && GATEWAY in run[j].lofts && GATEWAY in run[k].lofts
    requires q in run[j].portOf && q in Gw(run[k]).reg.ports
    ensures q in Gw(run[j]).reg.ports && Gw(run[k]).reg.ports[q] == Gw(run[j]).reg.ports[q]
    decreases k
  {
    hide Inv, WellFormed, IdsLeft, Step, TrunksMove;
    if j < k {
      RunInv(run, events, k - 1);
      assert Moves(run[k - 1], events[k - 1], run[k]);
      StepMoves(run[k - 1], events[k - 1]);
      RunGrows(run, events, j, k - 1);
      NumbersTaken(run[k - 1], q);
      SameIfOld(run[k - 1], events[k - 1], run[k], q);
      PortKept(run, events, j, k - 1, q);
    }
  }

  lemma NumbersTaken(s: Cluster, q: PortId)
    requires Inv(s) && q in s.portOf
    ensures GATEWAY in s.lofts && q < Gw(s).nextID
  {
    hide RolesOk, ConnsOk, PortMapsInverse, RegFramesOk, RegPortsOk, KnownOk, IdsOk, TokensOk, TokensUnannounced, DoomedOk, InFlightOk, WritesOk, Linear, LoftInv;
  }

  lemma SameIfOld(s: Cluster, e: Event, t: Cluster, q: PortId)
    requires GATEWAY in s.lofts && GATEWAY in t.lofts && TrunksMove(s, e, t) && q < Gw(s).nextID && q in Gw(t).reg.ports
    ensures q in Gw(s).reg.ports && Gw(t).reg.ports[q] == Gw(s).reg.ports[q]
  {
  }

  /** A port registered after its edge's hello carries that edge's own address, at every
    * later point of the run at which it is still registered. */
  lemma GreetedPortsCarryAddress(run: seq<Cluster>, events: seq<Event>, i: nat, j: nat, k: nat, c: ConnId, r: PortId)
    requires IsRun(run, events) && |run| == |events| + 1 && i < j < k <= |events|
    requires events[i] == HelloIn(c) && Enabled(run[i], events[i])
    requires events[j] == PortAdded(c, r) && Enabled(run[j], events[j]) && r !in Gw(run[j]).reg.conns[c].portMap
    ensures GATEWAY in run[k].lofts && c in run[k].connNode
    ensures var q, n := Gw(run[j]).nextID, run[k].connNode[c];
            && q in run[k].portOf && run[k].portOf[q] == Phys(n, r)
            && (q in Gw(run[k]).reg.ports ==> Gw(run[k]).reg.ports[q] == RemotePort(c, Some(n), r))
  {
    hide Inv, WellFormed, IdsLeft, Step;
    AddressKept(run, events, i, j, c);
    RunInv(run, events, j);
    RunInv(run, events, j + 1);
    RunInv(run, events, k);
    assert Moves(run[j], events[j], run[j + 1]);
    AddedStep(run[j], c, r);
    RunGrows(run, events, j, k);
    RunGrows(run, events, j + 1, k);
    PortsNumbered(run[j + 1]);
    PortsNumbered(run[k]);
    var q := Gw(run[j]).nextID;
    if q in Gw(run[k]).reg.ports { PortKept(run, events, j + 1, k, q); }
  }

  lemma AddedStep(s: Cluster, c: ConnId, r: PortId)
    requires WellFormed(s) && Enabled(s, PortAdded(c, r)) && r !in Gw(s).reg.conns[c].portMap
    ensures var q, t := Gw(s).nextID, Step(s, PortAdded(c, r));
            && GATEWAY in t.lofts && q in Gw(t).reg.ports && Gw(t).reg.ports[q] == RemotePort(c, Gw(s).reg.conns[c].addr, r)
            && q in t.portOf && t.portOf[q] == Phys(s.connNode[c], r)
  {
    hide DoPortAdded;
    assert Step(s, PortAdded(c, r)) == DoPortAdded(s, c, r);
    AddedPort(s, c, r);
  }
}
