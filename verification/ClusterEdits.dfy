/** The invariant is kept by each small edit a step is made of. */
module ClusterEdits {
  import opened Basics
  import opened LoftCore
  import opened LoftConservation
  import opened Cluster
  import opened ClusterSafety

  // ---- facts, once true, stay true --------------------------------------------------

  lemma BornMono(a: Lofts, b: Lofts, o: Origin)
    requires LoftsGrow(a, b) && IsBorn(a, o)
    ensures IsBorn(b, o) && FrameAt(b, o) == FrameAt(a, o)
  {
    assert Grows(a[o.node], b[o.node]);
  }

  lemma ReleasedMono(w: Facts, x: Facts, vid: Vid, data: Payload)
    requires FactsGrow(w, x) && Released(w, vid, data)
    ensures Released(x, vid, data)
  {
    var o := w.known[w.verdicts[vid].fid].origin;
    BornMono(w.lofts, x.lofts, o);
    assert Grows(w.lofts[o.node], x.lofts[o.node]);
  }

  lemma PacketMono(w: Facts, x: Facts, vid: Vid, k: Packet)
    requires FactsGrow(w, x) && PacketOk(w, vid, k)
    requires vid in x.verdicts ==> vid in w.verdicts
    ensures PacketOk(x, vid, k)
  {
    if k.Inject? { ReleasedMono(w, x, vid, k.data); }
  }

  lemma InFlightMono(w: Facts, x: Facts, pending: map<Vid, Pending>, net: map<Vid, Packet>)
    requires FactsGrow(w, x) && InFlightOk(w, pending, net)
    requires forall v :: v in net && v in x.verdicts ==> v in w.verdicts
    ensures InFlightOk(x, pending, net)
  {
    forall v | v in net
      ensures PacketOk(x, v, net[v])
    {
      PacketMono(w, x, v, net[v]);
    }
  }

  lemma WritesMono(w: Facts, x: Facts, writes: seq<Write>)
    requires FactsGrow(w, x) && WritesOk(w, writes)
    ensures WritesOk(x, writes)
  {
    forall y | y in writes
      ensures WriteOk(x, y)
    {
      ReleasedMono(w, x, y.cause, y.data);
    }
  }

  lemma KnownMono(a: Lofts, b: Lofts, portOf: map<PortId, Phys>, portOf': map<PortId, Phys>, known: map<Fid, Announced>)
    requires LoftsGrow(a, b) && Extends(portOf, portOf') && KnownOk(a, portOf, known)
    ensures KnownOk(b, portOf', known)
  {
    forall fid | fid in known
      ensures AnnouncedOk(b, portOf', fid, known[fid])
    {
      BornMono(a, b, known[fid].origin);
    }
  }

  lemma TokensMono(a: Lofts, b: Lofts, connNode: map<ConnId, Node>, connNode': map<ConnId, Node>, tokens: map<Origin, TokenMsg>)
    requires LoftsGrow(a, b) && Extends(connNode, connNode') && TokensOk(a, connNode, tokens)
    ensures TokensOk(b, connNode', tokens)
  {
    forall o | o in tokens
      ensures TokenOk(b, connNode', o, tokens[o])
    {
      BornMono(a, b, o);
    }
  }

  lemma DoomedMono(s: Cluster, t: Cluster)
    requires DoomedOk(s) && LoftsGrow(s.lofts, t.lofts) && Extends(s.connNode, t.connNode)
    requires t.net == s.net && t.verdicts == s.verdicts && InFlightOk(FactsOf(s), s.pending, s.net)
    requires forall o :: o in t.tokens ==> o in s.tokens || !IsBorn(s.lofts, o)
    requires forall f :: f in t.known ==> (f in s.known && t.known[f] == s.known[f]) || t.known[f].origin in s.tokens || !IsBorn(s.lofts, t.known[f].origin)
    ensures DoomedOk(t)
  {
    forall v | v in t.net && v !in t.verdicts && t.net[v].Instruct? && t.net[v].conn in t.connNode
      ensures var o := Origin(t.connNode[t.net[v].conn], t.net[v].fid);
              IsBorn(t.lofts, o) && o !in t.tokens && Unannounced(t.known, o)
    {
      assert PacketOk(FactsOf(s), v, s.net[v]);
      BornMono(s.lofts, t.lofts, Origin(s.connNode[s.net[v].conn], s.net[v].fid));
    }
  }

  // ---- edits to the world --------------------------------------------------------------

  ghost predicate SameFlight(s: Cluster, t: Cluster) {
    t.pending == s.pending && t.net == s.net && t.nextVid == s.nextVid && t.writes == s.writes && t.verdicts == s.verdicts
  }

  lemma WorldStep(s: Cluster, t: Cluster)
    requires Inv(s) && SameFlight(s, t) && FactsGrow(FactsOf(s), FactsOf(t))
    requires LoftsOk(t.lofts) && RolesOk(t.lofts, t.now) && ConnsOk(t.connNode, t.lofts.Keys)
    requires PortMapsInverse(Gw(t).reg) && RegPortsOk(Gw(t).reg, t.connNode, t.portOf)
    requires PortIdsOk(Gw(t).stats.Keys, t.portOf, Gw(t).nextID)
    requires RegFramesOk(Gw(t).reg.frames, t.connNode, t.known)
    requires KnownOk(t.lofts, t.portOf, t.known) && IdsOk(t.known, Gw(t).hist.born, Gw(t).nextFID)
    requires TokensOk(t.lofts, t.connNode, t.tokens) && TokensUnannounced(t.tokens, t.known)
    requires DoomedOk(t)
    ensures Inv(t)
  {
    hide LoftsOk, RolesOk, ConnsOk, PortMapsInverse, RegPortsOk, PortIdsOk, RegFramesOk, KnownOk, IdsOk, TokensOk, TokensUnannounced, DoomedOk, InFlightOk, WritesOk, FactsGrow;
    InFlightMonoAll(s, t);
    WritesMono(FactsOf(s), FactsOf(t), s.writes);
  }

  lemma InFlightMonoAll(s: Cluster, t: Cluster)
    requires Inv(s) && SameFlight(s, t) && FactsGrow(FactsOf(s), FactsOf(t))
    ensures InFlightOk(FactsOf(t), s.pending, s.net)
  {
    hide LoftsOk, RolesOk, ConnsOk, PortMapsInverse, RegPortsOk, PortIdsOk, RegFramesOk, KnownOk, IdsOk, TokensOk, TokensUnannounced, DoomedOk, InFlightOk, WritesOk, FactsGrow, Linear;
    InFlightMono(FactsOf(s), FactsOf(t), s.pending, s.net);
  }

  lemma ExtendsSelf<K, V>(m: map<K, V>)
    ensures Extends(m, m)
  {
  }

  lemma LoftEdit(lofts: Lofts, n: Node, m: Loft, now: Time)
    requires LoftsOk(lofts) && RolesOk(lofts, now) && n in lofts
    requires LoftInv(m) && Grows(lofts[n], m) && m.lastSweep <= now && BornBefore(m.hist.born, now)
    requires (n == GATEWAY ==> !m.trunk) && (n != GATEWAY ==> !m.router)
    ensures LoftsOk(lofts[n := m]) && RolesOk(lofts[n := m], now) && LoftsGrow(lofts, lofts[n := m])
  {
    hide LoftInv, Grows, BornBefore;
    forall k | k in lofts
      ensures Grows(lofts[k], lofts[n := m][k])
    {
      if k != n { GrowsSelf(lofts[k]); }
    }
    assert lofts[n := m].Keys == lofts.Keys;
  }

  lemma GrowsSelf(l: Loft)
    ensures Grows(l, l)
  {
  }

  /** One loft moves on; the registry of the gateway is untouched if it is an edge. */
  lemma EdgeStep(s: Cluster, n: Node, m: Loft)
    requires Inv(s) && n in s.lofts && n != GATEWAY
    requires LoftInv(m) && Grows(s.lofts[n], m) && m.lastSweep <= s.now && !m.router && BornBefore(m.hist.born, s.now)
    ensures Inv(WithLoft(s, n, m)) && FactsGrow(FactsOf(s), FactsOf(WithLoft(s, n, m)))
  {
    hide LoftsOk, RolesOk, ConnsOk, PortMapsInverse, RegPortsOk, PortIdsOk, RegFramesOk, KnownOk, IdsOk, TokensOk, TokensUnannounced, DoomedOk, InFlightOk, WritesOk, Linear, LoftInv, Extends, Grows, LoftsGrow;
    var t := WithLoft(s, n, m);
    LoftEdit(s.lofts, n, m, s.now);
    FactsEdit(s, t);
    assert t.lofts.Keys == s.lofts.Keys;
    KnownMono(s.lofts, t.lofts, s.portOf, s.portOf, s.known);
    TokensMono(s.lofts, t.lofts, s.connNode, s.connNode, s.tokens);
    DoomedMono(s, t);
    WorldStep(s, t);
  }

  lemma FactsEdit(s: Cluster, t: Cluster)
    requires LoftsGrow(s.lofts, t.lofts)
    requires t.connNode == s.connNode && t.portOf == s.portOf && t.known == s.known && t.verdicts == s.verdicts
    ensures FactsGrow(FactsOf(s), FactsOf(t))
    ensures Extends(s.connNode, t.connNode) && Extends(s.portOf, t.portOf) && Extends(s.known, t.known)
  {
  }

  /** The gateway moves on within what it already announced. */
  lemma GatewayStep(s: Cluster, m: Loft)
    requires Inv(s) && LoftInv(m) && Grows(Gw(s), m) && m.lastSweep <= s.now && !m.trunk
    requires m.stats.Keys == Gw(s).stats.Keys && m.hist.born == Gw(s).hist.born
    requires PortMapsInverse(m.reg) && RegPortsOk(m.reg, s.connNode, s.portOf)
    requires RegFramesOk(m.reg.frames, s.connNode, s.known)
    ensures Inv(WithLoft(s, GATEWAY, m)) && FactsGrow(FactsOf(s), FactsOf(WithLoft(s, GATEWAY, m)))
  {
    hide LoftsOk, RolesOk, ConnsOk, PortMapsInverse, RegPortsOk, PortIdsOk, RegFramesOk, KnownOk, IdsOk, TokensOk, TokensUnannounced, DoomedOk, InFlightOk, WritesOk, Linear, LoftInv, Extends, LoftsGrow;
    var t := WithLoft(s, GATEWAY, m);
    GatewayInside(s);
    GatewayFlags(s);
    LoftEdit(s.lofts, GATEWAY, m, s.now);
    FactsEdit(s, t);
    assert t.lofts.Keys == s.lofts.Keys;
    KnownMono(s.lofts, t.lofts, s.portOf, s.portOf, s.known);
    TokensMono(s.lofts, t.lofts, s.connNode, s.connNode, s.tokens);
    DoomedMono(s, t);
    CountersOnly(s, m);
    WorldStep(s, t);
  }

  lemma GatewayInside(s: Cluster)
    requires LoftsOk(s.lofts)
    ensures GATEWAY in s.lofts && LoftInv(Gw(s))
  {
    hide LoftInv;
  }

  lemma GatewayFlags(s: Cluster)
    requires GATEWAY in s.lofts && RolesOk(s.lofts, s.now)
    ensures !Gw(s).trunk && Gw(s).lastSweep <= s.now && BornBefore(Gw(s).hist.born, s.now)
  {
  }

  lemma CountersOnly(s: Cluster, m: Loft)
    requires GATEWAY in s.lofts && Gw(s).nextID <= m.nextID && Gw(s).nextFID <= m.nextFID
    requires PortIdsOk(Gw(s).stats.Keys, s.portOf, Gw(s).nextID) && IdsOk(s.known, Gw(s).hist.born, Gw(s).nextFID)
    ensures PortIdsOk(Gw(s).stats.Keys, s.portOf, m.nextID) && IdsOk(s.known, Gw(s).hist.born, m.nextFID)
  {
  }

  // ---- edits to what is in flight -------------------------------------------------------

  lemma DropPacket(s: Cluster, v: Vid)
    requires Inv(s)
    ensures Inv(s.(net := s.net - {v}))
  {
    hide LoftsOk, RolesOk, ConnsOk, PortMapsInverse, RegPortsOk, PortIdsOk, RegFramesOk, KnownOk, IdsOk, TokensOk, TokensUnannounced, WritesOk;
  }

  lemma DropPending(s: Cluster, v: Vid)
    requires Inv(s)
    ensures Inv(s.(pending := s.pending - {v}))
  {
    hide LoftsOk, RolesOk, ConnsOk, PortMapsInverse, RegPortsOk, PortIdsOk, RegFramesOk, KnownOk, IdsOk, TokensOk, TokensUnannounced, WritesOk;
  }

  lemma DropToken(s: Cluster, o: Origin)
    requires Inv(s)
    ensures Inv(s.(tokens := s.tokens - {o}))
  {
    hide LoftsOk, RolesOk, ConnsOk, PortMapsInverse, RegPortsOk, PortIdsOk, RegFramesOk, KnownOk, IdsOk, WritesOk, InFlightOk;
  }

  lemma SetForget(s: Cluster, forget: set<Fid>)
    requires Inv(s)
    ensures Inv(s.(forget := forget))
  {
    hide LoftsOk, RolesOk, ConnsOk, PortMapsInverse, RegPortsOk, PortIdsOk, RegFramesOk, KnownOk, IdsOk, TokensOk, TokensUnannounced, WritesOk, InFlightOk;
  }

  lemma SetNow(s: Cluster, now: Time)
    requires Inv(s) && s.now <= now
    ensures Inv(s.(now := now))
  {
    hide LoftsOk, ConnsOk, PortMapsInverse, RegPortsOk, PortIdsOk, RegFramesOk, KnownOk, IdsOk, TokensOk, TokensUnannounced, WritesOk, InFlightOk;
  }

  /** A verdict that is nowhere else goes into a packet. */
  lemma PutPacket(s: Cluster, v: Vid, k: Packet)
    requires Inv(s) && PacketOk(FactsOf(s), v, k)
    requires v in s.verdicts && v !in s.pending && v !in s.net
    requires forall i :: 0 <= i < |s.writes| ==> s.writes[i].cause != v
    ensures Inv(s.(net := s.net[v := k]))
  {
    hide LoftsOk, RolesOk, ConnsOk, PortMapsInverse, RegPortsOk, PortIdsOk, RegFramesOk, KnownOk, IdsOk, TokensOk, TokensUnannounced, WritesOk, PacketOk, PendingOk;
  }

  /** The gateway's own instruction to free a frame it will not announce. */
  lemma PutDoomed(s: Cluster, c: ConnId, fid: Fid)
    requires Inv(s) && c in s.connNode
    requires var o := Origin(s.connNode[c], fid); IsBorn(s.lofts, o) && o !in s.tokens && Unannounced(s.known, o)
    ensures Inv(s.(net := s.net[s.nextVid := Instruct(c, Drop, 0, fid)], nextVid := s.nextVid + 1))
  {
    hide LoftsOk, RolesOk, ConnsOk, PortMapsInverse, RegPortsOk, PortIdsOk, RegFramesOk, KnownOk, IdsOk, TokensOk, TokensUnannounced, WritesOk, PendingOk;
  }

  lemma SameDoomed(s: Cluster, t: Cluster)
    requires DoomedOk(s)
    requires t.net == s.net && t.verdicts == s.verdicts && t.connNode == s.connNode && t.lofts == s.lofts && t.tokens == s.tokens && t.known == s.known
    ensures DoomedOk(t)
  {
  }

  lemma PutWrite(s: Cluster, x: Write)
    requires Inv(s) && WriteOk(FactsOf(s), x)
    requires x.cause !in s.pending && x.cause !in s.net
    requires forall i :: 0 <= i < |s.writes| ==> s.writes[i].cause != x.cause
    ensures Inv(s.(writes := s.writes + [x]))
  {
    hide LoftsOk, RolesOk, ConnsOk, PortMapsInverse, RegPortsOk, PortIdsOk, RegFramesOk, KnownOk, IdsOk, TokensOk, TokensUnannounced, PacketOk, PendingOk, DoomedOk, InFlightOk;
    var t := s.(writes := s.writes + [x]);
    SameDoomed(s, t);
  }
}
