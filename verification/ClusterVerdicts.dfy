/** The life of a verdict keeps the invariant: looked up, acted on, carried to
  * the loft that holds the frame, and written once at the port it named. */
module ClusterVerdicts {
  import opened Basics
  import opened LoftCore
  import opened LoftConservation
  import opened Cluster
  import opened ClusterSafety
  import opened ClusterEdits
  import opened ClusterInvariant

  /** The verdict is nowhere in flight and nothing has been written for it. */
  ghost predicate Idle(s: Cluster, vid: Vid) {
    && vid !in s.pending && vid !in s.net
    && forall i :: 0 <= i < |s.writes| ==> s.writes[i].cause != vid
  }

  // ---- issuing ---------------------------------------------------------------------------

  lemma LookupsOk(s: Cluster, v: Verdict)
    requires Inv(s)
    ensures var g := Gw(s);
            && (v.fid in g.reg.frames ==> RemoteFrameOk(s.connNode, s.known, v.fid, g.reg.frames[v.fid]))
            && (v.port in g.reg.ports ==> RemotePortOk(s.connNode, s.portOf, v.port, g.reg.ports[v.port]))
  {
    hide LoftsOk, RolesOk, ConnsOk, PortMapsInverse, PortIdsOk, KnownOk, IdsOk, TokensOk, TokensUnannounced, DoomedOk, InFlightOk, WritesOk, Linear, RemoteFrameOk, RemotePortOk;
  }

  function Issued(s: Cluster, v: Verdict, q: Pending): Cluster {
    s.(verdicts := s.verdicts[s.nextVid := v], pending := s.pending[s.nextVid := q], nextVid := s.nextVid + 1)
  }

  lemma IssuedKept(s: Cluster, v: Verdict, q: Pending)
    requires Inv(s)
    requires q.rf.Some? ==> RemoteFrameOk(s.connNode, s.known, v.fid, q.rf.value)
    requires q.rp.Some? ==> RemotePortOk(s.connNode, s.portOf, v.port, q.rp.value)
    ensures Kept(s, Issued(s, v, q))
  {
    hide LoftsOk, RolesOk, ConnsOk, PortMapsInverse, RegFramesOk, RegPortsOk, PortIdsOk, KnownOk, IdsOk, TokensOk, TokensUnannounced, DoomedOk, InFlightOk, WritesOk, RemoteFrameOk, RemotePortOk, PacketOk, Extends;
    var t := Issued(s, v, q);
    IssuedGrows(s, v, q);
    IssuedFlight(s, v, q);
    WritesMono(FactsOf(s), FactsOf(t), s.writes);
    IssuedDoomed(s, v, q);
  }

  lemma IssuedGrows(s: Cluster, v: Verdict, q: Pending)
    requires Linear(s)
    ensures FactsGrow(FactsOf(s), FactsOf(Issued(s, v, q)))
  {
    assert s.nextVid !in s.verdicts;
  }

  lemma IssuedFlight(s: Cluster, v: Verdict, q: Pending)
    requires Linear(s) && InFlightOk(FactsOf(s), s.pending, s.net)
    requires q.rf.Some? ==> RemoteFrameOk(s.connNode, s.known, v.fid, q.rf.value)
    requires q.rp.Some? ==> RemotePortOk(s.connNode, s.portOf, v.port, q.rp.value)
    ensures var t := Issued(s, v, q); InFlightOk(FactsOf(t), t.pending, t.net)
  {
    hide RemoteFrameOk, RemotePortOk, PacketOk, Extends, FactsGrow;
    var t := Issued(s, v, q);
    IssuedGrows(s, v, q);
    forall k | k in t.net
      ensures PacketOk(FactsOf(t), k, t.net[k])
    {
      PacketMono(FactsOf(s), FactsOf(t), k, s.net[k]);
    }
  }

  lemma IssuedDoomed(s: Cluster, v: Verdict, q: Pending)
    requires DoomedOk(s)
    ensures DoomedOk(Issued(s, v, q))
  {
  }

  lemma ForgetKeeps(s: Cluster, fid: Fid)
    requires Inv(s)
    ensures Kept(s, WithLoft(s, GATEWAY, ForgetRemote(Gw(s), fid)))
  {
    hide LoftsOk, ConnsOk, PortMapsInverse, RegFramesOk, RegPortsOk, PortIdsOk, KnownOk, IdsOk, TokensOk, TokensUnannounced, DoomedOk, InFlightOk, WritesOk, Linear, LoftInv;
    GatewayInside(s);
    RegistryBooks(Gw(s), ForgetRemote(Gw(s), fid));
    LoftStep(s, GATEWAY, ForgetRemote(Gw(s), fid));
  }

  lemma VerdictInKeeps(s: Cluster, v: Verdict)
    requires Inv(s)
    ensures Kept(s, DoVerdictIn(s, v))
  {
    hide LoftsOk, RolesOk, ConnsOk, PortMapsInverse, RegFramesOk, RegPortsOk, PortIdsOk, KnownOk, IdsOk, TokensOk, TokensUnannounced, DoomedOk, InFlightOk, WritesOk, Linear, RemoteFrameOk, RemotePortOk, FactsGrow, ForgetRemote;
    GatewayInside(s);
    LookupsOk(s, v);
    var q := Pending(LookupFrame(Gw(s), v.fid), if v.verb.Drop? then None else LookupPort(Gw(s), v.port));
    IssuedKept(s, v, q);
    if v.verb.Drop? && q.rf.Some? {
      ForgetKeeps(Issued(s, v, q), v.fid);
      KeptTwice(s, Issued(s, v, q), DoVerdictIn(s, v));
    }
  }

  // ---- carrying out at the frame's own loft ------------------------------------------------

  /** What a loft must know to carry out verdict `vid` on its frame `fid`. */
  ghost predicate MayExecute(s: Cluster, n: Node, vid: Vid, verb: Verb, p: PortId, fid: Fid)
    requires n in s.lofts
  {
    && (vid in s.verdicts ==> verb == s.verdicts[vid].verb)
    && (!verb.Drop? ==>
          && vid in s.verdicts
          && (fid in s.lofts[n].frames ==> HoldsFrame(FactsOf(s), vid, Origin(n, fid)))
          && (p in s.lofts[n].byID ==> s.verdicts[vid].port in s.portOf && s.portOf[s.verdicts[vid].port] == Phys(n, p)))
  }

  /** Fields no frame operation touches. */
  ghost predicate Steady(l: Loft, m: Loft) {
    && m.lastSweep == l.lastSweep && m.router == l.router && m.trunk == l.trunk
    && m.stats.Keys == l.stats.Keys && m.hist.born == l.hist.born && m.reg == l.reg
  }

  lemma DropSteady(l: Loft, fid: Fid)
    requires l.byID <= l.stats.Keys
    ensures Steady(l, DropLocal(l, fid))
  {
    assert DropLocal(l, fid).stats.Keys == l.stats.Keys;
  }

  lemma DropShape(l: Loft, fid: Fid)
    requires LoftInv(l)
    ensures var m := DropLocal(l, fid); LoftInv(m) && Grows(l, m) && Steady(l, m)
  {
    hide DropLocal, Grows, Steady, Accounted, BornWell, CountersExact, PortsBelow, Unexpired;
    DropLocalBooks(l, fid);
    DropSteady(l, fid);
  }

  lemma DeliverSteady(l: Loft, p: PortId, fid: Fid, consume: bool, cause: Vid)
    requires l.byID <= l.stats.Keys
    ensures var m := DeliverLocal(l, p, fid, consume, cause);
            && Steady(l, m)
            && (CanDeliver(l, p, fid) && consume ==> fid in m.hist.fate && m.hist.fate[fid] == Delivered(cause))
  {
    assert DeliverLocal(l, p, fid, consume, cause).stats.Keys == l.stats.Keys;
  }

  lemma BufferedIsBorn(l: Loft, fid: Fid)
    requires LoftInv(l) && fid in l.frames
    ensures fid in l.hist.born && l.hist.born[fid].data == l.frames[fid].data
  {
  }

  lemma DeliverShape(l: Loft, p: PortId, fid: Fid, consume: bool, cause: Vid)
    requires LoftInv(l)
    ensures var m := DeliverLocal(l, p, fid, consume, cause);
            LoftInv(m) && Grows(l, m) && Steady(l, m)
            && (CanDeliver(l, p, fid) ==>
                  && fid in l.hist.born && l.hist.born[fid].data == l.frames[fid].data
                  && (consume ==> fid in m.hist.fate && m.hist.fate[fid] == Delivered(cause)))
  {
    hide DeliverLocal, Grows, Steady, Accounted, BornWell, CountersExact, PortsBelow, Unexpired;
    DeliverLocalBooks(l, p, fid, consume, cause);
    DeliverSteady(l, p, fid, consume, cause);
    if CanDeliver(l, p, fid) { BufferedIsBorn(l, fid); }
  }

  lemma PushShape(l: Loft, fid: Fid, consume: bool, cause: Vid)
    requires LoftInv(l)
    ensures var m := Push(l, fid, consume, cause);
            LoftInv(m) && Grows(l, m) && Steady(l, m)
            && (fid in l.frames ==>
                  && fid in l.hist.born && l.hist.born[fid].data == l.frames[fid].data
                  && (consume ==> fid in m.hist.fate && m.hist.fate[fid] == Delivered(cause)))
  {
    PushBooks(l, fid, consume, cause);
  }

  lemma ReleasedHere(s: Cluster, n: Node, m: Loft, vid: Vid, fid: Fid, data: Payload)
    requires n in s.lofts && LoftsGrow(s.lofts, s.lofts[n := m])
    requires HoldsFrame(FactsOf(s), vid, Origin(n, fid)) && !s.verdicts[vid].verb.Drop?
    requires fid in m.hist.born && m.hist.born[fid].data == data
    requires s.verdicts[vid].verb.Deliver? ==> fid in m.hist.fate && m.hist.fate[fid] == Delivered(vid)
    ensures Released(FactsOf(WithLoft(s, n, m)), vid, data)
  {
  }

  lemma ExecuteKeeps(s: Cluster, n: Node, vid: Vid, verb: Verb, p: PortId, fid: Fid)
    requires Inv(s) && n in s.lofts && s.lofts[n].byID <= s.lofts[n].stats.Keys
    requires Idle(s, vid) && MayExecute(s, n, vid, verb, p, fid)
    ensures Kept(s, Execute(s, n, vid, verb, p, fid))
  {
    hide LoftsOk, ConnsOk, PortMapsInverse, RegFramesOk, RegPortsOk, PortIdsOk, KnownOk, IdsOk, TokensOk, TokensUnannounced, DoomedOk, InFlightOk, WritesOk, Linear, LoftInv, FactsGrow, Released, DeliverLocal, DropLocal, Grows;
    LoftInside(s, n);
    var l := s.lofts[n];
    if verb.Drop? {
      DropShape(l, fid);
      LoftStep(s, n, DropLocal(l, fid));
    } else {
      var m := DeliverLocal(l, p, fid, verb.Deliver?, vid);
      DeliverShape(l, p, fid, verb.Deliver?, vid);
      LoftStep(s, n, m);
      if CanDeliver(l, p, fid) {
        FactsLofts(s, WithLoft(s, n, m));
        ReleasedHere(s, n, m, vid, fid, l.frames[fid].data);
        PutWrite(WithLoft(s, n, m), Write(vid, n, p, l.frames[fid].data));
        FactsSame(WithLoft(s, n, m), Execute(s, n, vid, verb, p, fid));
        KeptTwice(s, WithLoft(s, n, m), Execute(s, n, vid, verb, p, fid));
      }
    }
  }

  lemma FactsLofts(s: Cluster, t: Cluster)
    requires FactsGrow(FactsOf(s), FactsOf(t))
    ensures LoftsGrow(s.lofts, t.lofts)
  {
  }

  lemma ReleaseKeeps(s: Cluster, n: Node, vid: Vid, consume: bool, fid: Fid, addr: Option<Node>, p: PortId)
    requires Inv(s) && n in s.lofts && Idle(s, vid)
    requires vid in s.verdicts && !s.verdicts[vid].verb.Drop? && consume == s.verdicts[vid].verb.Deliver?
    requires fid in s.lofts[n].frames ==> HoldsFrame(FactsOf(s), vid, Origin(n, fid))
    requires addr.Some? ==> Bound(s.portOf, s.verdicts[vid].port, addr.value, p)
    ensures Kept(s, PushOut(s, n, vid, consume, fid, addr, p))
  {
    hide LoftsOk, ConnsOk, PortMapsInverse, RegFramesOk, RegPortsOk, PortIdsOk, KnownOk, IdsOk, TokensOk, TokensUnannounced, DoomedOk, InFlightOk, WritesOk, Linear, LoftInv, FactsGrow, Released, Push, Grows, Bound;
    var l := s.lofts[n];
    if fid in l.frames {
      LoftInside(s, n);
      var m := Push(l, fid, consume, vid);
      PushShape(l, fid, consume, vid);
      LoftStep(s, n, m);
      FactsLofts(s, WithLoft(s, n, m));
      ReleasedHere(s, n, m, vid, fid, l.frames[fid].data);
      PutPacket(WithLoft(s, n, m), vid, Inject(n, addr, p, l.frames[fid].data));
      FactsSame(WithLoft(s, n, m), PushOut(s, n, vid, consume, fid, addr, p));
      KeptTwice(s, WithLoft(s, n, m), PushOut(s, n, vid, consume, fid, addr, p));
    } else {
      FactsSame(s, s);
    }
  }

  // ---- the two sections of a verdict ---------------------------------------------------------

  lemma PendingInside(s: Cluster, vid: Vid)
    requires Inv(s) && vid in s.pending
    ensures PendingOk(FactsOf(s), vid, s.pending[vid])
    ensures vid !in s.net && forall i :: 0 <= i < |s.writes| ==> s.writes[i].cause != vid
  {
    hide LoftsOk, RolesOk, ConnsOk, PortMapsInverse, RegFramesOk, RegPortsOk, PortIdsOk, KnownOk, IdsOk, TokensOk, TokensUnannounced, DoomedOk, WritesOk, PacketOk, PendingOk;
  }

  /** The gateway's own frames and ports stand for themselves. */
  lemma OwnIds(s: Cluster, p: PortId, fid: Fid)
    requires Inv(s)
    ensures fid in Gw(s).frames ==> fid in s.known && s.known[fid].origin == Origin(GATEWAY, fid)
    ensures p in Gw(s).byID ==> p in s.portOf && s.portOf[p] == Phys(GATEWAY, p)
  {
    hide RolesOk, ConnsOk, PortMapsInverse, RegFramesOk, RegPortsOk, KnownOk, TokensOk, TokensUnannounced, DoomedOk, WritesOk, InFlightOk, Linear;
    GatewayInside(s);
    if fid in Gw(s).frames { BufferedIsBorn(Gw(s), fid); }
  }

  lemma SendKeeps(s: Cluster, vid: Vid, k: Packet, v: Verdict)
    requires Inv(s) && Idle(s, vid) && vid in s.verdicts && PacketOk(FactsOf(s), vid, k)
    ensures Kept(s, Send(s, vid, k, v))
  {
    hide LoftsOk, RolesOk, ConnsOk, PortMapsInverse, RegFramesOk, RegPortsOk, PortIdsOk, KnownOk, IdsOk, TokensOk, TokensUnannounced, DoomedOk, InFlightOk, WritesOk, Linear, PacketOk, FactsGrow;
    PutPacket(s, vid, k);
    SetForget(s.(net := s.net[vid := k]), if v.verb.Deliver? then s.forget + {v.fid} else s.forget);
    FactsSame(s, Send(s, vid, k, v));
  }

  lemma ActLocalKeeps(s: Cluster, vid: Vid, q: Pending)
    requires Inv(s) && Idle(s, vid) && vid in s.verdicts && PendingOk(FactsOf(s), vid, q) && q.rf.None?
    requires Gw(s).byID <= Gw(s).stats.Keys
    ensures var v := s.verdicts[vid];
            && (v.verb.Drop? || q.rp.None? ==> Kept(s, Execute(s, GATEWAY, vid, v.verb, v.port, v.fid)))
            && (!v.verb.Drop? && q.rp.Some? ==>
                  Kept(s, PushOut(s, GATEWAY, vid, v.verb.Deliver?, v.fid, q.rp.value.addr, q.rp.value.remoteID)))
  {
    hide LoftsOk, RolesOk, ConnsOk, PortMapsInverse, RegFramesOk, RegPortsOk, PortIdsOk, KnownOk, IdsOk, TokensOk, TokensUnannounced, DoomedOk, InFlightOk, WritesOk, Linear, Kept, Execute, PushOut;
    GatewayInside(s);
    var v := s.verdicts[vid];
    OwnIds(s, v.port, v.fid);
    if v.verb.Drop? || q.rp.None? {
      ExecuteKeeps(s, GATEWAY, vid, v.verb, v.port, v.fid);
    } else {
      ReleaseKeeps(s, GATEWAY, vid, v.verb.Deliver?, v.fid, q.rp.value.addr, q.rp.value.remoteID);
    }
  }

  /** Cases three and four: the frame is at an edge, so the edge is instructed. */
  function RemotePacket(v: Verdict, q: Pending): Packet
    requires q.rf.Some?
  {
    var rf := q.rf.value;
    if v.verb.Drop? then Instruct(rf.conn, Drop, 0, rf.remoteFID)
    else if q.rp.Some? && q.rp.value.conn == rf.conn then Instruct(rf.conn, v.verb, q.rp.value.remoteID, rf.remoteFID)
    else SendRemote(rf.conn, v.verb.Deliver?, rf.remoteFID,
                    if q.rp.Some? then q.rp.value.remoteID else v.port,
                    if q.rp.Some? then q.rp.value.addr else Some(GATEWAY))
  }

  lemma RemotePacketOk(w: Facts, vid: Vid, q: Pending)
    requires PendingOk(w, vid, q) && q.rf.Some?
    ensures PacketOk(w, vid, RemotePacket(w.verdicts[vid], q))
  {
  }

  lemma ActKeeps(s: Cluster, vid: Vid)
    requires Inv(s) && vid in s.pending && vid in s.verdicts && Gw(s).byID <= Gw(s).stats.Keys
    ensures Kept(s, DoAct(s, vid))
  {
    hide LoftsOk, RolesOk, ConnsOk, PortMapsInverse, RegFramesOk, RegPortsOk, PortIdsOk, KnownOk, IdsOk, TokensOk, TokensUnannounced, DoomedOk, InFlightOk, WritesOk, Linear, PendingOk, PacketOk, FactsGrow, Execute, PushOut, Send;
    GatewayInside(s);
    var q := s.pending[vid];
    var s1 := s.(pending := s.pending - {vid});
    PendingInside(s, vid);
    DropPending(s, vid);
    FactsSame(s, s1);
    if q.rf.None? {
      ActLocalKeeps(s1, vid, q);
    } else {
      RemotePacketOk(FactsOf(s), vid, q);
      SendKeeps(s1, vid, RemotePacket(s.verdicts[vid], q), s.verdicts[vid]);
    }
    KeptTwice(s, s1, DoAct(s, vid));
  }

  // ---- packets arriving -----------------------------------------------------------------------

  lemma PacketInside(s: Cluster, vid: Vid)
    requires Inv(s) && vid in s.net
    ensures PacketOk(FactsOf(s), vid, s.net[vid])
    ensures Idle(s.(net := s.net - {vid}), vid)
  {
    hide LoftsOk, RolesOk, ConnsOk, PortMapsInverse, RegFramesOk, RegPortsOk, PortIdsOk, KnownOk, IdsOk, TokensOk, TokensUnannounced, DoomedOk, WritesOk, PacketOk, PendingOk;
  }

  lemma EdgeInKeeps(s: Cluster, vid: Vid)
    requires Inv(s) && vid in s.net && !s.net[vid].Inject? && s.net[vid].conn in s.connNode && s.connNode[s.net[vid].conn] in s.lofts
    requires var n := s.connNode[s.net[vid].conn]; s.lofts[n].byID <= s.lofts[n].stats.Keys
    ensures Kept(s, DoEdgeIn(s, vid))
  {
    hide LoftsOk, RolesOk, ConnsOk, PortMapsInverse, RegFramesOk, RegPortsOk, PortIdsOk, KnownOk, IdsOk, TokensOk, TokensUnannounced, DoomedOk, InFlightOk, WritesOk, Linear, FactsGrow, Execute, PushOut, Bound;
    var n := s.connNode[s.net[vid].conn];
    var s1 := s.(net := s.net - {vid});
    PacketInside(s, vid);
    DropPacket(s, vid);
    FactsSame(s, s1);
    match s.net[vid]
    case Instruct(_, verb, p, fid) =>
      ExecuteKeeps(s1, n, vid, verb, p, fid);
      KeptTwice(s, s1, DoEdgeIn(s, vid));
    case SendRemote(_, consume, fid, dst, addr) =>
      ReleaseKeeps(s1, n, vid, consume, fid, addr, dst);
      KeptTwice(s, s1, DoEdgeIn(s, vid));
  }

  lemma PeerSteady(l: Loft, p: PortId, data: Payload)
    requires l.byID <= l.stats.Keys
    ensures Steady(l, PeerWrite(l, p, data))
  {
    assert PeerWrite(l, p, data).stats.Keys == l.stats.Keys;
  }

  lemma PeerShape(l: Loft, p: PortId, data: Payload)
    requires LoftInv(l)
    ensures var m := PeerWrite(l, p, data); LoftInv(m) && Grows(l, m) && Steady(l, m)
  {
    hide PeerWrite, Grows, Steady, Accounted, BornWell, CountersExact, PortsBelow, Unexpired;
    PeerWriteBooks(l, p, data);
    PeerSteady(l, p, data);
  }

  lemma InjectKnows(w: Facts, vid: Vid, k: Packet)
    requires PacketOk(w, vid, k) && k.Inject?
    ensures vid in w.verdicts && Released(w, vid, k.data)
    ensures k.addr.Some? ==> Bound(w.portOf, w.verdicts[vid].port, k.addr.value, k.port)
  {
  }

  /** A payload that reaches a registered port reaches the port that was named. */
  lemma BoundPort(s: Cluster, vid: Vid, n: Node, p: PortId)
    requires Inv(s) && vid in s.verdicts && n in s.lofts && p in s.lofts[n].byID
    requires Bound(s.portOf, s.verdicts[vid].port, n, p)
    ensures s.verdicts[vid].port in s.portOf && s.portOf[s.verdicts[vid].port] == Phys(n, p)
  {
    hide LoftsOk, RolesOk, ConnsOk, PortMapsInverse, RegFramesOk, RegPortsOk, PortIdsOk, KnownOk, IdsOk, TokensOk, TokensUnannounced, DoomedOk, InFlightOk, WritesOk, Linear;
    OwnIds(s, s.verdicts[vid].port, 0);
  }

  lemma PeerInKeeps(s: Cluster, vid: Vid)
    requires Inv(s) && vid in s.net && s.net[vid].Inject? && s.net[vid].addr.Some? && s.net[vid].addr.value in s.lofts
    requires var n := s.net[vid].addr.value; s.lofts[n].byID <= s.lofts[n].stats.Keys
    ensures Kept(s, DoPeerIn(s, vid))
  {
    hide LoftsOk, ConnsOk, PortMapsInverse, RegFramesOk, RegPortsOk, PortIdsOk, KnownOk, IdsOk, TokensOk, TokensUnannounced, DoomedOk, InFlightOk, WritesOk, Linear, FactsGrow, Bound, PeerWrite, Released, LoftInv, Grows, PacketOk;
    var n, p, data := s.net[vid].addr.value, s.net[vid].port, s.net[vid].data;
    var s1 := s.(net := s.net - {vid});
    PacketInside(s, vid);
    InjectKnows(FactsOf(s), vid, s.net[vid]);
    DropPacket(s, vid);
    FactsSame(s, s1);
    LoftInside(s, n);
    var m := PeerWrite(s.lofts[n], p, data);
    PeerShape(s.lofts[n], p, data);
    LoftStep(s1, n, m);
    var s2 := WithLoft(s1, n, m);
    KeptTwice(s, s1, s2);
    if PeerAccepts(s.lofts[n], p, data) {
      BoundPort(s, vid, n, p);
      ReleasedMono(FactsOf(s), FactsOf(s2), vid, data);
      PutWrite(s2, Write(vid, n, p, data));
      FactsSame(s2, DoPeerIn(s, vid));
      KeptTwice(s, s2, DoPeerIn(s, vid));
    }
  }

  lemma PeerFailedKeeps(s: Cluster, vid: Vid)
    requires Inv(s) && vid in s.net && s.net[vid].Inject? && s.net[vid].from in s.lofts
    ensures Kept(s, DoPeerFailed(s, vid))
  {
    hide LoftsOk, ConnsOk, PortMapsInverse, RegFramesOk, RegPortsOk, PortIdsOk, KnownOk, IdsOk, TokensOk, TokensUnannounced, DoomedOk, InFlightOk, WritesOk, Linear, FactsGrow, LoftInv;
    var n := s.net[vid].from;
    LoftInside(s, n);
    RegistryBooks(s.lofts[n], TrunkDrop(s.lofts[n]));
    LoftStep(s, n, TrunkDrop(s.lofts[n]));
    var s1 := WithLoft(s, n, TrunkDrop(s.lofts[n]));
    DropPacket(s1, vid);
    FactsSame(s1, s1.(net := s1.net - {vid}));
    KeptTwice(s, s1, s1.(net := s1.net - {vid}));
  }
}
