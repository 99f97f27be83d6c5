/** The gateway's dealings with its edges keep the invariant: trunks come and go,
  * ports are announced and withdrawn, tokens are announced or refused. */
module ClusterTrunk {
  import opened Basics
  import opened LoftCore
  import opened LoftConservation
  import opened Cluster
  import opened ClusterSafety
  import opened ClusterEdits
  import opened ClusterInvariant

  // ---- the two port tables stay inverse -------------------------------------------------

  lemma InverseOpen(reg: Registry, c: ConnId)
    requires PortMapsInverse(reg) && c !in reg.conns
    ensures PortMapsInverse(reg.(conns := reg.conns[c := Conn(None, map[])]))
  {
  }

  lemma InverseHello(reg: Registry, c: ConnId, addr: Option<Node>)
    requires PortMapsInverse(reg) && c in reg.conns
    ensures PortMapsInverse(reg.(conns := reg.conns[c := reg.conns[c].(addr := addr)]))
  {
  }

  lemma InverseAdd(reg: Registry, c: ConnId, r: PortId, q: PortId)
    requires PortMapsInverse(reg) && c in reg.conns && r !in reg.conns[c].portMap && q !in reg.ports
    ensures var e := reg.conns[c];
            PortMapsInverse(reg.(ports := reg.ports[q := RemotePort(c, e.addr, r)], conns := reg.conns[c := e.(portMap := e.portMap[r := q])]))
  {
  }

  lemma InverseRemove(reg: Registry, c: ConnId, r: PortId)
    requires PortMapsInverse(reg) && c in reg.conns && r in reg.conns[c].portMap
    ensures var e := reg.conns[c];
            PortMapsInverse(reg.(ports := reg.ports - {e.portMap[r]}, conns := reg.conns[c := e.(portMap := e.portMap - {r})]))
  {
  }

  lemma InverseGone(l: Loft, c: ConnId)
    requires PortMapsInverse(l.reg) && c in l.reg.conns
    ensures PortMapsInverse(EdgeGone(l, c).reg)
  {
    var m := EdgeGone(l, c).reg;
    forall q | q in m.ports
      ensures m.ports[q].conn in m.conns
    {
      var rp := l.reg.ports[q];
      assert l.reg.conns[rp.conn].portMap[rp.remoteID] == q;
    }
    forall e, r | e in m.conns && r in m.conns[e].portMap
      ensures m.conns[e].portMap[r] in m.ports
    {
      var q := l.reg.conns[e].portMap[r];
      assert l.reg.ports[q].conn == e;
      assert q !in PortsOf(l, c);
    }
  }

  // ---- trunks -----------------------------------------------------------------------------

  lemma RegPortsOpen(reg: Registry, connNode: map<ConnId, Node>, portOf: map<PortId, Phys>, c: ConnId, n: Node, nodes: set<Node>)
    requires RegPortsOk(reg, connNode, portOf) && ConnsOk(connNode, nodes) && c !in connNode && n in nodes && n != GATEWAY
    ensures Extends(connNode, connNode[c := n]) && ConnsOk(connNode[c := n], nodes) && c !in reg.conns
    ensures RegPortsOk(reg.(conns := reg.conns[c := Conn(None, map[])]), connNode[c := n], portOf)
  {
  }

  lemma DialKeeps(s: Cluster, c: ConnId, n: Node)
    requires Inv(s) && c !in s.connNode && n in s.lofts && n != GATEWAY
    ensures Kept(s, DoDial(s, c, n))
  {
    hide LoftsOk, ConnsOk, PortMapsInverse, RegFramesOk, RegPortsOk, PortIdsOk, KnownOk, IdsOk, TokensOk, TokensUnannounced, DoomedOk, InFlightOk, WritesOk, Linear, LoftInv, LoftsGrow, Extends;
    GatewayInside(s);
    var g := Gw(s);
    var t := DoDial(s, c, n);
    GatewayFlags(s);
    RegistryBooks(g, OpenTrunk(g, c));
    LoftEdit(s.lofts, GATEWAY, OpenTrunk(g, c), s.now);
    assert t.lofts.Keys == s.lofts.Keys;
    RegPortsOpen(g.reg, s.connNode, s.portOf, c, n, s.lofts.Keys);
    InverseOpen(g.reg, c);
    ExtendsSelf(s.portOf);
    ExtendsSelf(s.known);
    ExtendsSelf(s.verdicts);
    RegFramesMono(g.reg.frames, s.connNode, s.known, t.connNode, t.known);
    KnownMono(s.lofts, t.lofts, s.portOf, t.portOf, s.known);
    TokensMono(s.lofts, t.lofts, s.connNode, t.connNode, s.tokens);
    DoomedMono(s, t);
    WorldStep(s, t);
  }

  lemma HelloKeeps(s: Cluster, c: ConnId)
    requires Inv(s) && c in Gw(s).reg.conns && c in s.connNode
    ensures Kept(s, DoHello(s, c))
  {
    hide LoftsOk, PortMapsInverse, RegFramesOk, PortIdsOk, KnownOk, IdsOk, TokensOk, TokensUnannounced, DoomedOk, InFlightOk, WritesOk, Linear, LoftInv;
    GatewayInside(s);
    var m := Hello(Gw(s), c, s.connNode[c]);
    RegistryBooks(Gw(s), m);
    InverseHello(Gw(s).reg, c, Some(s.connNode[c]));
    GatewayStep(s, m);
  }

  lemma RegPortsRemove(l: Loft, c: ConnId, r: PortId, connNode: map<ConnId, Node>, portOf: map<PortId, Phys>)
    requires RegPortsOk(l.reg, connNode, portOf) && c in l.reg.conns
    ensures RegPortsOk(UnregisterRemotePort(l, c, r).reg, connNode, portOf)
  {
  }

  lemma PortRemovedKeeps(s: Cluster, c: ConnId, r: PortId)
    requires Inv(s) && c in Gw(s).reg.conns
    ensures Kept(s, DoPortRemoved(s, c, r))
  {
    hide LoftsOk, PortMapsInverse, RegFramesOk, RegPortsOk, PortIdsOk, KnownOk, IdsOk, TokensOk, TokensUnannounced, DoomedOk, InFlightOk, WritesOk, Linear, LoftInv;
    GatewayInside(s);
    var m := UnregisterRemotePort(Gw(s), c, r);
    RegistryBooks(Gw(s), m);
    if r in Gw(s).reg.conns[c].portMap { InverseRemove(Gw(s).reg, c, r); }
    RegPortsRemove(Gw(s), c, r, s.connNode, s.portOf);
    GatewayStep(s, m);
  }

  lemma TrunkLostKeeps(s: Cluster, c: ConnId)
    requires Inv(s) && c in Gw(s).reg.conns
    ensures Kept(s, DoTrunkLost(s, c))
  {
    hide LoftsOk, PortMapsInverse, PortIdsOk, KnownOk, IdsOk, TokensOk, TokensUnannounced, DoomedOk, InFlightOk, WritesOk, Linear, LoftInv;
    GatewayInside(s);
    var m := EdgeGone(Gw(s), c);
    RegistryBooks(Gw(s), m);
    InverseGone(Gw(s), c);
    GatewayStep(s, m);
  }

  lemma PortAddedKeeps(s: Cluster, c: ConnId, r: PortId)
    requires Inv(s) && BeforeWrap(Gw(s)) && c in Gw(s).reg.conns && c in s.connNode
    ensures Kept(s, DoPortAdded(s, c, r))
  {
    hide LoftsOk, PortMapsInverse, RegFramesOk, PortIdsOk, RegPortsOk, KnownOk, IdsOk, TokensOk, TokensUnannounced, DoomedOk, InFlightOk, WritesOk, Linear, LoftInv, BeforeWrap, NextPortId;
    GatewayInside(s);
    if r in Gw(s).reg.conns[c].portMap {
      GatewaySame(s);
    } else {
      NewPortAdded(s, c, r);
    }
  }

  lemma GatewaySame(s: Cluster)
    requires Inv(s)
    ensures Kept(s, WithLoft(s, GATEWAY, Gw(s)))
  {
    GrowsSelf(Gw(s));
    GatewayStep(s, Gw(s));
  }

  lemma NewRemotePortId(own: set<PortId>, portOf: map<PortId, Phys>, n: nat, x: Phys)
    requires PortIdsOk(own, portOf, n)
    ensures n !in portOf && n !in own && Extends(portOf, portOf[n := x])
    ensures PortIdsOk(own, portOf[n := x], n + 1)
  {
  }

  lemma NewRegPort(reg: Registry, connNode: map<ConnId, Node>, portOf: map<PortId, Phys>, c: ConnId, r: PortId, q: PortId)
    requires RegPortsOk(reg, connNode, portOf) && c in reg.conns && c in connNode && q !in portOf
    ensures q !in reg.ports
    ensures var e := reg.conns[c];
            RegPortsOk(reg.(ports := reg.ports[q := RemotePort(c, e.addr, r)], conns := reg.conns[c := e.(portMap := e.portMap[r := q])]),
                       connNode, portOf[q := Phys(connNode[c], r)])
  {
  }

  lemma NewPortAdded(s: Cluster, c: ConnId, r: PortId)
    requires Inv(s) && BeforeWrap(Gw(s)) && c in Gw(s).reg.conns && c in s.connNode && r !in Gw(s).reg.conns[c].portMap
    ensures Kept(s, DoPortAdded(s, c, r))
  {
    hide BornBefore, LoftsOk, PortMapsInverse, RegFramesOk, PortIdsOk, RegPortsOk, KnownOk, IdsOk, TokensOk, TokensUnannounced, DoomedOk, InFlightOk, WritesOk, Linear, LoftInv, BeforeWrap, NextPortId, LoftsGrow, Extends;
    GatewayInside(s);
    var g := Gw(s);
    var t := DoPortAdded(s, c, r);
    GatewayFlags(s);
    IdsAdvance(g);
    RegistryBooks(g, Gw(t));
    LoftEdit(s.lofts, GATEWAY, Gw(t), s.now);
    assert t.lofts.Keys == s.lofts.Keys;
    NewRemotePortId(g.stats.Keys, s.portOf, g.nextID, Phys(s.connNode[c], r));
    NewRegPort(g.reg, s.connNode, s.portOf, c, r, g.nextID);
    InverseAdd(g.reg, c, r, g.nextID);
    ExtendsSelf(s.connNode);
    ExtendsSelf(s.known);
    ExtendsSelf(s.verdicts);
    KnownMono(s.lofts, t.lofts, s.portOf, t.portOf, s.known);
    TokensMono(s.lofts, t.lofts, s.connNode, s.connNode, s.tokens);
    DoomedMono(s, t);
    WorldStep(s, t);
  }

  // ---- tokens -------------------------------------------------------------------------------

  lemma TokenInKeeps(s: Cluster, o: Origin)
    requires Inv(s) && BeforeWrap(Gw(s)) && o in s.tokens && s.tokens[o].conn in Gw(s).reg.conns
    ensures Kept(s, DoTokenIn(s, o))
  {
    hide LoftsOk, PortMapsInverse, RegFramesOk, PortIdsOk, RegPortsOk, KnownOk, IdsOk, TokensOk, TokensUnannounced, DoomedOk, InFlightOk, WritesOk, Linear, LoftInv, BeforeWrap, NextFrameId, FactsGrow;
    GatewayInside(s);
    if TokenPasses(Gw(s), s.tokens[o].conn, s.tokens[o].token) {
      TokenAnnounced(s, o);
    } else {
      TokenRefused(s, o);
    }
  }

  lemma TokenInside(s: Cluster, o: Origin)
    requires TokensOk(s.lofts, s.connNode, s.tokens) && TokensUnannounced(s.tokens, s.known) && o in s.tokens
    ensures s.tokens[o].conn in s.connNode && s.connNode[s.tokens[o].conn] == o.node
    ensures s.tokens[o].token.fid == o.fid && IsBorn(s.lofts, o) && Unannounced(s.known, o)
  {
  }

  lemma RefusedAtGateway(s: Cluster, o: Origin)
    requires Inv(s) && o in s.tokens && s.tokens[o].conn in Gw(s).reg.conns
    requires !TokenPasses(Gw(s), s.tokens[o].conn, s.tokens[o].token)
    ensures Kept(s, WithLoft(s, GATEWAY, AdmitToken(Gw(s), s.tokens[o].conn, s.tokens[o].token, s.now)))
  {
    hide LoftsOk, PortMapsInverse, RegFramesOk, PortIdsOk, RegPortsOk, KnownOk, IdsOk, TokensOk, TokensUnannounced, DoomedOk, InFlightOk, WritesOk, Linear, LoftInv, FactsGrow;
    GatewayInside(s);
    var m := AdmitToken(Gw(s), s.tokens[o].conn, s.tokens[o].token, s.now);
    RegistryBooks(Gw(s), m);
    GatewayFlags(s);
    GatewayStep(s, m);
  }

  lemma RefusedFreed(s: Cluster, o: Origin)
    requires Inv(s) && o in s.tokens
    ensures Kept(s, s.(tokens := s.tokens - {o}, net := s.net[s.nextVid := Instruct(s.tokens[o].conn, Drop, 0, s.tokens[o].token.fid)], nextVid := s.nextVid + 1))
  {
    hide LoftsOk, RolesOk, ConnsOk, PortMapsInverse, RegFramesOk, PortIdsOk, RegPortsOk, KnownOk, IdsOk, TokensOk, TokensUnannounced, DoomedOk, InFlightOk, WritesOk, Linear, FactsGrow, IsBorn, Unannounced;
    TokenInside(s, o);
    DropToken(s, o);
    var t := s.(tokens := s.tokens - {o});
    PutDoomed(t, s.tokens[o].conn, s.tokens[o].token.fid);
    FactsSame(s, t.(net := t.net[t.nextVid := Instruct(s.tokens[o].conn, Drop, 0, s.tokens[o].token.fid)], nextVid := t.nextVid + 1));
  }

  lemma TokenRefused(s: Cluster, o: Origin)
    requires Inv(s) && o in s.tokens && s.tokens[o].conn in Gw(s).reg.conns
    requires !TokenPasses(Gw(s), s.tokens[o].conn, s.tokens[o].token)
    ensures Kept(s, DoTokenIn(s, o))
  {
    hide LoftsOk, RolesOk, ConnsOk, PortMapsInverse, RegFramesOk, PortIdsOk, RegPortsOk, KnownOk, IdsOk, TokensOk, TokensUnannounced, DoomedOk, InFlightOk, WritesOk, Linear, FactsGrow, AdmitToken, TokenPasses;
    GatewayInside(s);
    RefusedAtGateway(s, o);
    var s1 := WithLoft(s, GATEWAY, AdmitToken(Gw(s), s.tokens[o].conn, s.tokens[o].token, s.now));
    RefusedFreed(s1, o);
    KeptTwice(s, s1, DoTokenIn(s, o));
  }

  /** What the consumer is told about an edge's frame is true. */
  lemma AnnounceRemote(s: Cluster, o: Origin)
    requires Inv(s) && o in s.tokens && s.tokens[o].conn in Gw(s).reg.conns
    requires TokenPasses(Gw(s), s.tokens[o].conn, s.tokens[o].token)
    ensures AnnouncedOk(s.lofts, s.portOf, Gw(s).nextFID, Announced(o, RewriteToken(Gw(s), s.tokens[o].conn, s.tokens[o].token), s.now))
    ensures o.node != GATEWAY
  {
    hide LoftsOk, RegFramesOk, PortIdsOk, KnownOk, IdsOk, TokensUnannounced, DoomedOk, InFlightOk, WritesOk, Linear, LoftInv;
    GatewayInside(s);
    var c, tok := s.tokens[o].conn, s.tokens[o].token;
    assert TokenOk(s.lofts, s.connNode, o, s.tokens[o]);
    var q := Gw(s).reg.conns[c].portMap[tok.port];
    assert q in Gw(s).reg.ports && RemotePortOk(s.connNode, s.portOf, q, Gw(s).reg.ports[q]);
  }

  lemma AnnouncedMono(a: Lofts, b: Lofts, portOf: map<PortId, Phys>, fid: Fid, x: Announced)
    requires LoftsGrow(a, b) && AnnouncedOk(a, portOf, fid, x)
    ensures AnnouncedOk(b, portOf, fid, x)
  {
    BornMono(a, b, x.origin);
  }

  lemma KnownAdd(lofts: Lofts, portOf: map<PortId, Phys>, known: map<Fid, Announced>, fid: Fid, a: Announced)
    requires KnownOk(lofts, portOf, known) && AnnouncedOk(lofts, portOf, fid, a)
    ensures KnownOk(lofts, portOf, known[fid := a])
  {
  }

  lemma TokensLess(lofts: Lofts, connNode: map<ConnId, Node>, tokens: map<Origin, TokenMsg>, known: map<Fid, Announced>, o: Origin)
    requires TokensOk(lofts, connNode, tokens) && TokensUnannounced(tokens, known)
    ensures TokensOk(lofts, connNode, tokens - {o}) && TokensUnannounced(tokens - {o}, known)
  {
  }

  /** The id is given out and recorded ... */
  function Named(s: Cluster, o: Origin, a: Announced): Cluster
    requires GATEWAY in s.lofts
  {
    WithLoft(s, GATEWAY, Gw(s).(nextFID := Gw(s).nextFID + 1)).(known := s.known[Gw(s).nextFID := a], tokens := s.tokens - {o})
  }

  lemma NamedKept(s: Cluster, o: Origin, a: Announced)
    requires Inv(s) && o in s.tokens && a.origin == o && o.node != GATEWAY && AnnouncedOk(s.lofts, s.portOf, Gw(s).nextFID, a)
    ensures Kept(s, Named(s, o, a))
  {
    hide BornBefore, LoftsOk, PortMapsInverse, RegFramesOk, PortIdsOk, RegPortsOk, KnownOk, IdsOk, TokensOk, TokensUnannounced, DoomedOk, InFlightOk, WritesOk, Linear, LoftInv, LoftsGrow, Extends, IsBorn, Unannounced, AnnouncedOk, Grows;
    GatewayInside(s);
    var g := Gw(s);
    var t := Named(s, o, a);
    GatewayFlags(s);
    RegistryBooks(g, Gw(t));
    LoftEdit(s.lofts, GATEWAY, Gw(t), s.now);
    assert t.lofts.Keys == s.lofts.Keys;
    TokenInside(s, o);
    NewAnnouncement(s.known, g.hist.born, g.nextFID, a, BufFrame(0, [], 0, false));
    AnnouncedMono(s.lofts, t.lofts, s.portOf, g.nextFID, a);
    ExtendsSelf(s.connNode);
    ExtendsSelf(s.portOf);
    ExtendsSelf(s.verdicts);
    KnownMono(s.lofts, t.lofts, s.portOf, s.portOf, s.known);
    KnownAdd(t.lofts, s.portOf, s.known, g.nextFID, a);
    TokensMono(s.lofts, t.lofts, s.connNode, s.connNode, s.tokens);
    TokensLess(t.lofts, t.connNode, s.tokens, s.known, o);
    TokensStay(t.tokens, s.known, g.nextFID, a);
    RegFramesMono(g.reg.frames, s.connNode, s.known, t.connNode, t.known);
    DoomedMono(s, t);
    WorldStep(s, t);
  }

  /** ... and then entered in the table of remote frames. */
  function Entered(s: Cluster, fid: Fid, rf: RemoteFrame): Cluster
    requires GATEWAY in s.lofts
  {
    WithLoft(s, GATEWAY, Gw(s).(reg := Gw(s).reg.(frames := Gw(s).reg.frames[fid := rf])))
  }

  lemma EnteredKept(s: Cluster, fid: Fid, rf: RemoteFrame)
    requires Inv(s) && RemoteFrameOk(s.connNode, s.known, fid, rf)
    ensures Kept(s, Entered(s, fid, rf))
  {
    hide LoftsOk, PortMapsInverse, RegFramesOk, PortIdsOk, RegPortsOk, KnownOk, IdsOk, TokensOk, TokensUnannounced, DoomedOk, InFlightOk, WritesOk, Linear, LoftInv, FactsGrow, RemoteFrameOk;
    GatewayInside(s);
    var m := Gw(s).(reg := Gw(s).reg.(frames := Gw(s).reg.frames[fid := rf]));
    GatewayFlags(s);
    RegistryBooks(Gw(s), m);
    NewRegFrame(Gw(s).reg.frames, s.connNode, s.known, fid, rf);
    SamePorts(Gw(s).reg, m.reg, s.connNode, s.portOf);
    GatewayStep(s, m);
  }

  lemma TokenInIs(s: Cluster, o: Origin)
    requires GATEWAY in s.lofts && BeforeWrap(Gw(s)) && o in s.tokens && s.tokens[o].conn in Gw(s).reg.conns
    requires TokenPasses(Gw(s), s.tokens[o].conn, s.tokens[o].token)
    ensures var g, c, tok := Gw(s), s.tokens[o].conn, s.tokens[o].token;
            DoTokenIn(s, o) == Entered(Named(s, o, Announced(o, RewriteToken(g, c, tok), s.now)), g.nextFID,
                                       RemoteFrame(c, tok.fid, g.reg.conns[c].portMap[tok.port], s.now))
  {
  }

  lemma TokenAnnounced(s: Cluster, o: Origin)
    requires Inv(s) && BeforeWrap(Gw(s)) && o in s.tokens && s.tokens[o].conn in Gw(s).reg.conns
    requires TokenPasses(Gw(s), s.tokens[o].conn, s.tokens[o].token)
    ensures Kept(s, DoTokenIn(s, o))
  {
    hide LoftsOk, RolesOk, ConnsOk, PortMapsInverse, RegFramesOk, PortIdsOk, RegPortsOk, KnownOk, IdsOk, TokensOk, TokensUnannounced, DoomedOk, InFlightOk, WritesOk, Linear, LoftInv, FactsGrow, IsBorn, Unannounced, AnnouncedOk, Entered, DoTokenIn;
    GatewayInside(s);
    var g, c, tok := Gw(s), s.tokens[o].conn, s.tokens[o].token;
    var a := Announced(o, RewriteToken(g, c, tok), s.now);
    var rf := RemoteFrame(c, tok.fid, g.reg.conns[c].portMap[tok.port], s.now);
    AnnounceRemote(s, o);
    TokenInside(s, o);
    TokenInIs(s, o);
    NamedKept(s, o, a);
    EnteredKept(Named(s, o, a), g.nextFID, rf);
    KeptTwice(s, Named(s, o, a), DoTokenIn(s, o));
  }

  lemma NewRegFrame(frames: map<Fid, RemoteFrame>, connNode: map<ConnId, Node>, known: map<Fid, Announced>, fid: Fid, rf: RemoteFrame)
    requires RegFramesOk(frames, connNode, known) && RemoteFrameOk(connNode, known, fid, rf)
    ensures RegFramesOk(frames[fid := rf], connNode, known)
  {
  }

  lemma SamePorts(reg: Registry, after: Registry, connNode: map<ConnId, Node>, portOf: map<PortId, Phys>)
    requires PortMapsInverse(reg) && RegPortsOk(reg, connNode, portOf)
    requires after.conns == reg.conns && after.ports == reg.ports
    ensures PortMapsInverse(after) && RegPortsOk(after, connNode, portOf)
  {
  }
}
