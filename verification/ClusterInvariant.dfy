/** Every event keeps the invariant, and no event ever unsays a fact. */
module ClusterInvariant {
  import opened Basics
  import opened LoftCore
  import opened LoftConservation
  import opened Cluster
  import opened ClusterSafety
  import opened ClusterEdits

  /** A loft works on its own frames and ports. */
  lemma LoftStep(s: Cluster, n: Node, m: Loft)
    requires Inv(s) && n in s.lofts
    requires LoftInv(m) && Grows(s.lofts[n], m) && m.lastSweep <= s.now
    requires m.router == s.lofts[n].router && m.trunk == s.lofts[n].trunk
    requires m.stats.Keys == s.lofts[n].stats.Keys && m.hist.born == s.lofts[n].hist.born
    requires m.reg.conns == s.lofts[n].reg.conns && m.reg.ports == s.lofts[n].reg.ports
    requires m.reg.frames.Keys <= s.lofts[n].reg.frames.Keys
    requires forall fid :: fid in m.reg.frames ==> m.reg.frames[fid] == s.lofts[n].reg.frames[fid]
    ensures Inv(WithLoft(s, n, m)) && FactsGrow(FactsOf(s), FactsOf(WithLoft(s, n, m)))
  {
    hide LoftsOk, ConnsOk, PortIdsOk, KnownOk, IdsOk, TokensOk, TokensUnannounced, DoomedOk, InFlightOk, WritesOk, Linear, LoftInv, Grows;
    if n == GATEWAY {
      GatewayStep(s, m);
    } else {
      EdgeStep(s, n, m);
    }
  }

  lemma LoftInside(s: Cluster, n: Node)
    requires LoftsOk(s.lofts) && n in s.lofts
    ensures LoftInv(s.lofts[n]) && s.lofts[n].byID <= s.lofts[n].stats.Keys
  {
  }

  ghost predicate Kept(s: Cluster, t: Cluster) {
    Inv(t) && FactsGrow(FactsOf(s), FactsOf(t))
  }

  lemma KeptTwice(s: Cluster, t: Cluster, u: Cluster)
    requires Kept(s, t) && Kept(t, u)
    ensures Kept(s, u)
  {
    hide Inv, Extends;
    GrowTwice(s.lofts, t.lofts, u.lofts);
    ExtendTwice(s.connNode, t.connNode, u.connNode);
    ExtendTwice(s.portOf, t.portOf, u.portOf);
    ExtendTwice(s.known, t.known, u.known);
    ExtendTwice(s.verdicts, t.verdicts, u.verdicts);
  }

  lemma ExtendTwice<K, V>(a: map<K, V>, b: map<K, V>, c: map<K, V>)
    requires Extends(a, b) && Extends(b, c)
    ensures Extends(a, c)
  {
  }

  lemma GrowTwice(a: Lofts, b: Lofts, c: Lofts)
    requires LoftsGrow(a, b) && LoftsGrow(b, c)
    ensures LoftsGrow(a, c)
  {
    forall n | n in a
      ensures Grows(a[n], c[n])
    {
      assert Grows(a[n], b[n]) && Grows(b[n], c[n]);
    }
  }

  lemma FactsSame(s: Cluster, t: Cluster)
    requires t.lofts == s.lofts && t.connNode == s.connNode && t.portOf == s.portOf && t.known == s.known && t.verdicts == s.verdicts
    ensures FactsGrow(FactsOf(s), FactsOf(t))
  {
  }

  // ---- ports, flags, housekeeping ------------------------------------------------------

  lemma PortDownKeeps(s: Cluster, n: Node, p: PortId)
    requires Inv(s) && n in s.lofts
    ensures Kept(s, WithLoft(s, n, RemovePort(s.lofts[n], p)))
  {
    RemovePortBooks(s.lofts[n], p);
    LoftStep(s, n, RemovePort(s.lofts[n], p));
  }

  lemma HousekeepingKeeps(s: Cluster, n: Node)
    requires Inv(s) && n in s.lofts
    ensures Kept(s, WithLoft(s, n, Sweep(s.lofts[n], s.now)))
  {
    SweepBooks(s.lofts[n], s.now);
    LoftStep(s, n, Sweep(s.lofts[n], s.now));
  }

  lemma AttachKeeps(s: Cluster, b: bool)
    requires Inv(s)
    ensures Kept(s, WithLoft(s, GATEWAY, Gw(s).(router := b)))
  {
    GatewayInside(s);
    RegistryBooks(Gw(s), Gw(s).(router := b));
    GatewayStep(s, Gw(s).(router := b));
  }

  lemma TrunkUpKeeps(s: Cluster, n: Node, b: bool)
    requires Inv(s) && n in s.lofts && n != GATEWAY
    ensures Kept(s, WithLoft(s, n, s.lofts[n].(trunk := b)))
  {
    LoftInside(s, n);
    RegistryBooks(s.lofts[n], s.lofts[n].(trunk := b));
    EdgeStep(s, n, s.lofts[n].(trunk := b));
  }

  lemma PortUpKeeps(s: Cluster, n: Node)
    requires Inv(s) && n in s.lofts && BeforeWrap(s.lofts[n])
    ensures Kept(s, DoPortUp(s, n))
  {
    AddPortBooks(s.lofts[n]);
    if n == GATEWAY {
      GatewayPortUp(s);
    } else {
      EdgeStep(s, n, AddPort(s.lofts[n]));
    }
  }

  lemma NewPortId(own: set<PortId>, portOf: map<PortId, Phys>, n: nat)
    requires PortIdsOk(own, portOf, n)
    ensures n !in portOf && Extends(portOf, portOf[n := Phys(GATEWAY, n)])
    ensures PortIdsOk(own + {n}, portOf[n := Phys(GATEWAY, n)], n + 1)
  {
  }

  lemma RegPortsMono(reg: Registry, connNode: map<ConnId, Node>, portOf: map<PortId, Phys>, connNode': map<ConnId, Node>, portOf': map<PortId, Phys>)
    requires RegPortsOk(reg, connNode, portOf) && Extends(connNode, connNode') && Extends(portOf, portOf')
    ensures RegPortsOk(reg, connNode', portOf')
  {
  }

  lemma RegFramesMono(frames: map<Fid, RemoteFrame>, connNode: map<ConnId, Node>, known: map<Fid, Announced>, connNode': map<ConnId, Node>, known': map<Fid, Announced>)
    requires RegFramesOk(frames, connNode, known) && Extends(connNode, connNode') && Extends(known, known')
    ensures RegFramesOk(frames, connNode', known')
  {
  }

  lemma PortUpShape(l: Loft)
    requires BeforeWrap(l)
    ensures var m := AddPort(l);
            && m.reg == l.reg && m.hist == l.hist && m.nextFID == l.nextFID && m.lastSweep == l.lastSweep
            && m.router == l.router && m.trunk == l.trunk
            && m.nextID == l.nextID + 1 && m.stats.Keys == l.stats.Keys + {l.nextID}
  {
    assert AddPort(l).stats.Keys == l.stats.Keys + {l.nextID};
  }

  lemma GatewayPortUp(s: Cluster)
    requires Inv(s) && BeforeWrap(Gw(s))
    ensures Kept(s, DoPortUp(s, GATEWAY))
  {
    hide LoftsOk, ConnsOk, PortMapsInverse, RegPortsOk, RegFramesOk, PortIdsOk, KnownOk, IdsOk, TokensOk, TokensUnannounced, DoomedOk, InFlightOk, WritesOk, Linear, LoftInv, LoftsGrow, Extends, AddPort, BeforeWrap;
    GatewayInside(s);
    var g := Gw(s);
    var t := DoPortUp(s, GATEWAY);
    GatewayFlags(s);
    AddPortBooks(g);
    PortUpShape(g);
    LoftEdit(s.lofts, GATEWAY, AddPort(g), s.now);
    NewPortId(g.stats.Keys, s.portOf, g.nextID);
    assert t.lofts.Keys == s.lofts.Keys;
    ExtendsSelf(s.connNode);
    ExtendsSelf(s.known);
    ExtendsSelf(s.verdicts);
    RegPortsMono(g.reg, s.connNode, s.portOf, t.connNode, t.portOf);
    KnownMono(s.lofts, t.lofts, s.portOf, t.portOf, s.known);
    TokensMono(s.lofts, t.lofts, s.connNode, s.connNode, s.tokens);
    DoomedMono(s, t);
    WorldStep(s, t);
  }

  // ---- frames coming in ----------------------------------------------------------------

  lemma FrameInKeeps(s: Cluster, n: Node, p: PortId, data: Payload, c: ConnId)
    requires Inv(s) && n in s.lofts && BeforeWrap(s.lofts[n]) && p in s.lofts[n].stats
    requires n != GATEWAY ==> c in s.connNode && s.connNode[c] == n
    ensures Kept(s, DoFrameIn(s, n, p, data, c))
  {
    hide ConnsOk, PortMapsInverse, RegPortsOk, RegFramesOk, PortIdsOk, KnownOk, IdsOk, TokensOk, TokensUnannounced, DoomedOk, InFlightOk, WritesOk, Linear, LoftInv, Extends, NextPortId, NextFrameId, LoftsGrow;
    var l := s.lofts[n];
    IngestBooks(l, p, data, s.now);
    if !IngestOutcome(l, p, data).Accepted? {
      assert Ingest(l, p, data, s.now).stats.Keys == l.stats.Keys;
      LoftStep(s, n, Ingest(l, p, data, s.now));
    } else if n == GATEWAY {
      GatewayFrameIn(s, p, data, c);
    } else {
      EdgeFrameIn(s, n, p, data, c);
    }
  }

  lemma AcceptedFields(l: Loft, p: PortId, data: Payload, now: Time)
    requires BeforeWrap(l) && p in l.stats && IngestOutcome(l, p, data).Accepted?
    ensures var m := Ingest(l, p, data, now);
            && m.reg == l.reg && m.router == l.router && m.trunk == l.trunk && m.lastSweep == l.lastSweep
            && m.nextID == l.nextID && m.nextFID == l.nextFID + 1 && m.stats.Keys == l.stats.Keys
            && m.hist.born == l.hist.born[l.nextFID := BufFrame(p, data, now, false)]
  {
    assert Ingest(l, p, data, now).stats.Keys == l.stats.Keys;
  }

  lemma NewBornBefore(born: Frames, fid: Fid, f: BufFrame, now: Time)
    requires BornBefore(born, now) && f.added <= now
    ensures BornBefore(born[fid := f], now)
  {
  }

  lemma AcceptedShape(l: Loft, p: PortId, data: Payload, now: Time)
    requires LoftInv(l) && BeforeWrap(l) && p in l.stats && IngestOutcome(l, p, data).Accepted?
    ensures var m := Ingest(l, p, data, now);
            && m.reg == l.reg && m.router == l.router && m.trunk == l.trunk && m.lastSweep == l.lastSweep
            && m.nextID == l.nextID && m.nextFID == l.nextFID + 1 && m.stats.Keys == l.stats.Keys
            && m.hist.born == l.hist.born[l.nextFID := BufFrame(p, data, now, false)]
            && l.nextFID !in l.hist.born
            && p < l.nextID
            && (BornBefore(l.hist.born, now) ==> BornBefore(m.hist.born, now))
  {
    hide Ingest, IngestOutcome, BeforeWrap, Accounted, CountersExact, Unexpired, BornBefore;
    AcceptedFields(l, p, data, now);
    if BornBefore(l.hist.born, now) { NewBornBefore(l.hist.born, l.nextFID, BufFrame(p, data, now, false), now); }
  }

  lemma EdgeFrameIn(s: Cluster, n: Node, p: PortId, data: Payload, c: ConnId)
    requires Inv(s) && n in s.lofts && n != GATEWAY && BeforeWrap(s.lofts[n]) && p in s.lofts[n].stats
    requires c in s.connNode && s.connNode[c] == n && IngestOutcome(s.lofts[n], p, data).Accepted?
    ensures Kept(s, DoFrameIn(s, n, p, data, c))
  {
    hide LoftsOk, ConnsOk, PortMapsInverse, RegPortsOk, RegFramesOk, PortIdsOk, KnownOk, IdsOk, TokensOk, TokensUnannounced, DoomedOk, InFlightOk, WritesOk, Linear, LoftInv, Extends, NextPortId, NextFrameId, LoftsGrow, IsBorn, FrameAt, Ingest, BeforeWrap, BornBefore;
    var l := s.lofts[n];
    var t := DoFrameIn(s, n, p, data, c);
    LoftInside(s, n);
    IngestBooks(l, p, data, s.now);
    AcceptedShape(l, p, data, s.now);
    LoftEdit(s.lofts, n, t.lofts[n], s.now);
    FactsEdit(s, t);
    assert t.lofts.Keys == s.lofts.Keys;
    KnownMono(s.lofts, t.lofts, s.portOf, t.portOf, s.known);
    TokensMono(s.lofts, t.lofts, s.connNode, s.connNode, s.tokens);
    NotBorn(s, Origin(n, l.nextFID));
    NewToken(t.lofts, t.connNode, s.tokens, s.known, n, l.nextFID, p, data, s.now, c);
    DoomedMono(s, t);
    WorldStep(s, t);
  }

  lemma NotBorn(s: Cluster, o: Origin)
    requires KnownOk(s.lofts, s.portOf, s.known) && TokensOk(s.lofts, s.connNode, s.tokens)
    requires o.node in s.lofts && o.fid !in s.lofts[o.node].hist.born
    ensures !IsBorn(s.lofts, o) && Unannounced(s.known, o) && o !in s.tokens
  {
  }

  lemma NewToken(lofts: Lofts, connNode: map<ConnId, Node>, tokens: map<Origin, TokenMsg>, known: map<Fid, Announced>, n: Node, fid: Fid, p: PortId, data: Payload, now: Time, c: ConnId)
    requires TokensOk(lofts, connNode, tokens) && TokensUnannounced(tokens, known)
    requires n in lofts && fid in lofts[n].hist.born && lofts[n].hist.born[fid] == BufFrame(p, data, now, false)
    requires c in connNode && connNode[c] == n && Unannounced(known, Origin(n, fid))
    ensures var after := tokens[Origin(n, fid) := TokenMsg(c, BuildToken(p, fid, data))];
            TokensOk(lofts, connNode, after) && TokensUnannounced(after, known)
  {
  }

  lemma GatewayFrameIn(s: Cluster, p: PortId, data: Payload, c: ConnId)
    requires Inv(s) && BeforeWrap(Gw(s)) && p in Gw(s).stats && IngestOutcome(Gw(s), p, data).Accepted?
    ensures Kept(s, DoFrameIn(s, GATEWAY, p, data, c))
  {
    hide LoftsOk, ConnsOk, PortMapsInverse, RegPortsOk, RegFramesOk, PortIdsOk, KnownOk, IdsOk, TokensOk, TokensUnannounced, DoomedOk, InFlightOk, WritesOk, Linear, LoftInv, Extends, NextPortId, NextFrameId, LoftsGrow, IsBorn, FrameAt, Ingest, BeforeWrap, BornBefore;
    GatewayInside(s);
    var g := Gw(s);
    var t := DoFrameIn(s, GATEWAY, p, data, c);
    var o := Origin(GATEWAY, g.nextFID);
    GatewayFlags(s);
    IngestBooks(g, p, data, s.now);
    AcceptedShape(g, p, data, s.now);
    LoftEdit(s.lofts, GATEWAY, Gw(t), s.now);
    assert t.lofts.Keys == s.lofts.Keys;
    NotBorn(s, o);
    KnownMono(s.lofts, t.lofts, s.portOf, t.portOf, s.known);
    TokensMono(s.lofts, t.lofts, s.connNode, s.connNode, s.tokens);
    NewAnnouncement(s.known, g.hist.born, g.nextFID, Announced(o, BuildToken(p, g.nextFID, data), s.now), BufFrame(p, data, s.now, false));
    AnnounceOwn(t.lofts, t.portOf, s.known, Gw(t).stats.Keys, Gw(t).nextID, p, data, g.nextFID, s.now);
    ExtendsSelf(s.connNode);
    ExtendsSelf(s.portOf);
    ExtendsSelf(s.verdicts);
    RegFramesMono(g.reg.frames, s.connNode, s.known, t.connNode, t.known);
    TokensStay(s.tokens, s.known, g.nextFID, Announced(o, BuildToken(p, g.nextFID, data), s.now));
    DoomedMono(s, t);
    WorldStep(s, t);
  }

  lemma NewAnnouncement(known: map<Fid, Announced>, own: map<Fid, BufFrame>, fid: Fid, a: Announced, f: BufFrame)
    requires IdsOk(known, own, fid) && Unannounced(known, a.origin)
    ensures fid !in known && Extends(known, known[fid := a])
    ensures IdsOk(known[fid := a], own, fid + 1)
    ensures a.origin == Origin(GATEWAY, fid) ==> IdsOk(known[fid := a], own[fid := f], fid + 1)
  {
  }

  lemma AnnounceOwn(lofts: Lofts, portOf: map<PortId, Phys>, known: map<Fid, Announced>, own: set<PortId>, nextID: nat, p: PortId, data: Payload, fid: Fid, now: Time)
    requires KnownOk(lofts, portOf, known) && PortIdsOk(own, portOf, nextID) && p in own
    requires GATEWAY in lofts && fid in lofts[GATEWAY].hist.born && lofts[GATEWAY].hist.born[fid] == BufFrame(p, data, now, false)
    ensures KnownOk(lofts, portOf, known[fid := Announced(Origin(GATEWAY, fid), BuildToken(p, fid, data), now)])
  {
  }

  lemma TokensStay(tokens: map<Origin, TokenMsg>, known: map<Fid, Announced>, fid: Fid, a: Announced)
    requires TokensUnannounced(tokens, known) && a.origin !in tokens
    ensures TokensUnannounced(tokens, known[fid := a])
  {
  }
}
