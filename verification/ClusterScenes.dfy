/** Three short runs in which a frame is lost without a trace. */
module ClusterScenes {
  import opened Basics
  import opened LoftCore
  import opened LoftConservation
  import opened Cluster
  import opened ClusterSafety
  import opened ClusterRuns
  import opened ClusterEnds
  import opened ClusterFates

  // ---- the lofts, step by step ----------------------------------------------------------------

  const DATA: Payload := [0, 0, 0, 0, 0, 0, 0, 0, 0, 0, 0, 0, 0, 0]
  const FRAME := BufFrame(1, DATA, 0, false)
  const SENT := PortStats(1, 14, 0, 0, 0, 0, 0)
  const TOLD := Token(2, 1, 14, DATA)
  const NOBODY := Registry(map[], map[], map[])
  const ONE_TRUNK := Registry(map[0 := Conn(None, map[])], map[], map[])
  const GREETED := Registry(map[0 := Conn(Some(1), map[])], map[], map[])
  const ONE_PORT := Registry(map[0 := Conn(Some(1), map[1 := 2])], map[2 := RemotePort(0, Some(1), 1)], map[])
  const ONE_FRAME := ONE_PORT.(frames := map[1 := RemoteFrame(0, 1, 2, 0)])

  function GatewayLoft(ports: set<PortId>, stats: map<PortId, PortStats>, nextID: nat, nextFID: nat, reg: Registry): Loft {
    Loft(ports, stats, nextID, map[], nextFID, true, false, 0, 0, 0, reg, History(map[], map[], 0, 0, 0))
  }

  /** The edge, with what it buffers and what became of it. */
  function EdgeLoft(frames: Frames, fate: Fates): Loft {
    Loft({1}, map[1 := SENT], 2, frames, 2, false, true, 0, 0, 0, NOBODY, History(map[1 := FRAME], fate, 1, 0, 0))
  }

  const EMPTY_EDGE := Loft({1}, map[1 := NO_STATS], 2, map[], 1, false, true, 0, 0, 0, NOBODY, History(map[], map[], 0, 0, 0))

  const OWN := map[1 := Phys(0, 1)]
  const BOTH := map[1 := Phys(0, 1), 2 := Phys(1, 1)]
  const HEARD := map[1 := Announced(Origin(1, 1), TOLD, 0)]

  /** Nothing asked yet. */
  function Quiet(g: Loft, e: Loft, connNode: map<ConnId, Node>, tokens: map<Origin, TokenMsg>, known: map<Fid, Announced>, portOf: map<PortId, Phys>): Cluster {
    Cluster(map[0 := g, 1 := e], connNode, tokens, map[], {}, map[], 0, 0, map[], known, portOf, [])
  }

  function AtFirst(): Cluster { Start({1}, 0) }

  function Attached(): Cluster { Quiet(Init(0).(router := true), Init(0), map[], map[], map[], map[]) }

  function Trunked(): Cluster { Quiet(Init(0).(router := true), Init(0).(trunk := true), map[], map[], map[], map[]) }

  function EdgePortUp(): Cluster { Quiet(Init(0).(router := true), EMPTY_EDGE, map[], map[], map[], map[]) }

  function PortsUp(): Cluster { Quiet(GatewayLoft({1}, map[1 := NO_STATS], 2, 1, NOBODY), EMPTY_EDGE, map[], map[], map[], OWN) }

  function Dialled(): Cluster {
    Quiet(GatewayLoft({1}, map[1 := NO_STATS], 2, 1, ONE_TRUNK), EMPTY_EDGE, map[0 := 1], map[], map[], OWN)
  }

  function Greeted(): Cluster {
    Quiet(GatewayLoft({1}, map[1 := NO_STATS], 2, 1, GREETED), EMPTY_EDGE, map[0 := 1], map[], map[], OWN)
  }

  function PortKnown(): Cluster {
    Quiet(GatewayLoft({1}, map[1 := NO_STATS], 3, 1, ONE_PORT), EMPTY_EDGE, map[0 := 1], map[], map[], BOTH)
  }

  function FrameHeld(): Cluster {
    Quiet(GatewayLoft({1}, map[1 := NO_STATS], 3, 1, ONE_PORT), EdgeLoft(map[1 := FRAME], map[]), map[0 := 1],
          map[Origin(1, 1) := TokenMsg(0, Token(1, 1, 14, DATA))], map[], BOTH)
  }

  function FrameHeard(): Cluster {
    Quiet(GatewayLoft({1}, map[1 := NO_STATS], 3, 2, ONE_FRAME), EdgeLoft(map[1 := FRAME], map[]), map[0 := 1], map[], HEARD, BOTH)
  }

  function PortGone(): Cluster {
    Quiet(GatewayLoft({}, map[1 := NO_STATS], 3, 2, ONE_FRAME), EdgeLoft(map[1 := FRAME], map[]), map[0 := 1], map[], HEARD, BOTH)
  }

  lemma SetGateway(g: Loft, e: Loft, g2: Loft)
    ensures map[0 := g, 1 := e][0 := g2] == map[0 := g2, 1 := e]
  {
  }

  lemma SetEdge(g: Loft, e: Loft, e2: Loft)
    ensures map[0 := g, 1 := e][1 := e2] == map[0 := g, 1 := e2]
  {
  }

  predicate LoftFine(l: Loft) { l.byID <= l.stats.Keys && BeforeWrap(l) }

  /** Two lofts, and nothing in the mail that should not be. */
  predicate SceneFine(s: Cluster, g: Loft, e: Loft) {
    && s.lofts == map[0 := g, 1 := e] && LoftFine(g) && LoftFine(e)
    && (forall c :: c in s.connNode ==> s.connNode[c] == 1)
    && s.pending.Keys <= s.verdicts.Keys
  }

  lemma FineMoves(s: Cluster, g: Loft, e: Loft, event: Event, t: Cluster)
    requires SceneFine(s, g, e)
    ensures WellFormed(s) && IdsLeft(s)
    ensures t == Step(s, event) ==> Moves(s, event, t)
  {
    hide Step;
  }

  // ---- one event of each kind, on two lofts ------------------------------------------------------

  lemma OnAttach(s: Cluster, g: Loft, e: Loft)
    requires SceneFine(s, g, e)
    ensures Moves(s, Attach(true), s.(lofts := map[0 := g.(router := true), 1 := e]))
  {
    FineMoves(s, g, e, Attach(true), s.(lofts := map[0 := g.(router := true), 1 := e]));
    SetGateway(g, e, g.(router := true));
  }

  lemma OnTrunkUp(s: Cluster, g: Loft, e: Loft)
    requires SceneFine(s, g, e)
    ensures Moves(s, TrunkUp(1, true), s.(lofts := map[0 := g, 1 := e.(trunk := true)]))
  {
    FineMoves(s, g, e, TrunkUp(1, true), s.(lofts := map[0 := g, 1 := e.(trunk := true)]));
    SetEdge(g, e, e.(trunk := true));
  }

  lemma OnPortUpEdge(s: Cluster, g: Loft, e: Loft)
    requires SceneFine(s, g, e)
    ensures Moves(s, PortUp(1), s.(lofts := map[0 := g, 1 := AddPort(e)]))
  {
    hide AddPort;
    FineMoves(s, g, e, PortUp(1), s.(lofts := map[0 := g, 1 := AddPort(e)]));
    SetEdge(g, e, AddPort(e));
  }

  lemma OnPortUp(s: Cluster, g: Loft, e: Loft)
    requires SceneFine(s, g, e)
    ensures Moves(s, PortUp(0), s.(lofts := map[0 := AddPort(g), 1 := e], portOf := s.portOf[g.nextID := Phys(0, g.nextID)]))
  {
    hide AddPort;
    FineMoves(s, g, e, PortUp(0), s.(lofts := map[0 := AddPort(g), 1 := e], portOf := s.portOf[g.nextID := Phys(0, g.nextID)]));
    SetGateway(g, e, AddPort(g));
  }

  lemma OnPortDown(s: Cluster, g: Loft, e: Loft, p: PortId)
    requires SceneFine(s, g, e)
    ensures Moves(s, PortDown(0, p), s.(lofts := map[0 := RemovePort(g, p), 1 := e]))
  {
    hide RemovePort;
    FineMoves(s, g, e, PortDown(0, p), s.(lofts := map[0 := RemovePort(g, p), 1 := e]));
    SetGateway(g, e, RemovePort(g, p));
  }

  lemma OnDial(s: Cluster, g: Loft, e: Loft, c: ConnId)
    requires SceneFine(s, g, e) && c !in s.connNode
    ensures Moves(s, Dial(c, 1), s.(lofts := map[0 := OpenTrunk(g, c), 1 := e], connNode := s.connNode[c := 1]))
  {
    hide OpenTrunk;
    FineMoves(s, g, e, Dial(c, 1), s.(lofts := map[0 := OpenTrunk(g, c), 1 := e], connNode := s.connNode[c := 1]));
    SetGateway(g, e, OpenTrunk(g, c));
  }

  lemma OnHello(s: Cluster, g: Loft, e: Loft, c: ConnId)
    requires SceneFine(s, g, e) && c in g.reg.conns && c in s.connNode
    ensures Moves(s, HelloIn(c), s.(lofts := map[0 := Hello(g, c, 1), 1 := e]))
  {
    hide Hello;
    FineMoves(s, g, e, HelloIn(c), s.(lofts := map[0 := Hello(g, c, 1), 1 := e]));
    SetGateway(g, e, Hello(g, c, 1));
  }

  lemma OnPortAdded(s: Cluster, g: Loft, e: Loft, c: ConnId, r: PortId)
    requires SceneFine(s, g, e) && c in g.reg.conns && c in s.connNode && r !in g.reg.conns[c].portMap
    ensures Moves(s, PortAdded(c, r), s.(lofts := map[0 := RegisterRemotePort(g, c, r), 1 := e], portOf := s.portOf[g.nextID := Phys(1, r)]))
  {
    hide RegisterRemotePort;
    FineMoves(s, g, e, PortAdded(c, r), s.(lofts := map[0 := RegisterRemotePort(g, c, r), 1 := e], portOf := s.portOf[g.nextID := Phys(1, r)]));
    SetGateway(g, e, RegisterRemotePort(g, c, r));
  }

  lemma OnFrameInEdge(s: Cluster, g: Loft, e: Loft, p: PortId, data: Payload, c: ConnId)
    requires SceneFine(s, g, e) && p in e.stats && c in s.connNode && IngestOutcome(e, p, data).Accepted?
    ensures var tok := IngestOutcome(e, p, data).token;
            Moves(s, FrameIn(1, p, data, c), s.(lofts := map[0 := g, 1 := Ingest(e, p, data, s.now)], tokens := s.tokens[Origin(1, tok.fid) := TokenMsg(c, tok)]))
  {
    hide Ingest, IngestOutcome;
    var tok := IngestOutcome(e, p, data).token;
    FineMoves(s, g, e, FrameIn(1, p, data, c), s.(lofts := map[0 := g, 1 := Ingest(e, p, data, s.now)], tokens := s.tokens[Origin(1, tok.fid) := TokenMsg(c, tok)]));
    SetEdge(g, e, Ingest(e, p, data, s.now));
  }

  lemma OnTokenIn(s: Cluster, g: Loft, e: Loft, o: Origin)
    requires SceneFine(s, g, e) && o in s.tokens && s.tokens[o].conn in g.reg.conns && TokenPasses(g, s.tokens[o].conn, s.tokens[o].token)
    ensures var c, tok := s.tokens[o].conn, s.tokens[o].token;
            Moves(s, TokenIn(o), s.(lofts := map[0 := AdmitToken(g, c, tok, s.now), 1 := e], tokens := s.tokens - {o},
                                    known := s.known[g.nextFID := Announced(o, RewriteToken(g, c, tok), s.now)]))
  {
    hide AdmitToken, RewriteToken, TokenPasses;
    var c, tok := s.tokens[o].conn, s.tokens[o].token;
    FineMoves(s, g, e, TokenIn(o), s.(lofts := map[0 := AdmitToken(g, c, tok, s.now), 1 := e], tokens := s.tokens - {o},
                                      known := s.known[g.nextFID := Announced(o, RewriteToken(g, c, tok), s.now)]));
    SetGateway(g, e, AdmitToken(g, c, tok, s.now));
  }

  // ---- the opening: a frame at the edge, announced, and a port of the gateway's withdrawn ---------

  lemma Extended(run: seq<Cluster>, events: seq<Event>, e: Event, t: Cluster)
    requires IsRun(run, events) && Moves(run[|events|], e, t)
    ensures IsRun(run + [t], events + [e])
  {
    hide Moves;
    var longer, more := run + [t], events + [e];
    forall i | 0 <= i < |more|
      ensures Moves(longer[i], more[i], longer[i + 1])
    {
      if i < |events| { assert Moves(run[i], events[i], run[i + 1]); }
    }
  }

  lemma Started()
    ensures AtFirst() == Quiet(Init(0), Init(0), map[], map[], map[], map[])
  {
    assert {1} + {GATEWAY} == {0, 1};
    assert Start({1}, 0).lofts == map[0 := Init(0), 1 := Init(0)];
  }

  lemma ToAttached()
    ensures Moves(AtFirst(), Attach(true), Attached())
  {
    hide Moves;
    Started();
    OnAttach(AtFirst(), Init(0), Init(0));
  }

  lemma ToTrunked()
    ensures Moves(Attached(), TrunkUp(1, true), Trunked())
  {
    hide Moves;
    OnTrunkUp(Attached(), Init(0).(router := true), Init(0));
  }

  lemma ToEdgePortUp()
    ensures Moves(Trunked(), PortUp(1), EdgePortUp())
  {
    hide Moves;
    OnPortUpEdge(Trunked(), Init(0).(router := true), Init(0).(trunk := true));
    assert AddPort(Init(0).(trunk := true)) == EMPTY_EDGE;
  }

  lemma ToPortsUp()
    ensures Moves(EdgePortUp(), PortUp(0), PortsUp())
  {
    hide Moves;
    OnPortUp(EdgePortUp(), Init(0).(router := true), EMPTY_EDGE);
    assert AddPort(Init(0).(router := true)) == GatewayLoft({1}, map[1 := NO_STATS], 2, 1, NOBODY);
  }

  lemma ToDialled()
    ensures Moves(PortsUp(), Dial(0, 1), Dialled())
  {
    hide Moves;
    OnDial(PortsUp(), GatewayLoft({1}, map[1 := NO_STATS], 2, 1, NOBODY), EMPTY_EDGE, 0);
  }

  lemma ToGreeted()
    ensures Moves(Dialled(), HelloIn(0), Greeted())
  {
    hide Moves;
    OnHello(Dialled(), GatewayLoft({1}, map[1 := NO_STATS], 2, 1, ONE_TRUNK), EMPTY_EDGE, 0);
    assert ONE_TRUNK.conns[0 := Conn(Some(1), map[])] == GREETED.conns;
  }

  lemma ToPortKnown()
    ensures Moves(Greeted(), PortAdded(0, 1), PortKnown())
  {
    hide Moves;
    OnPortAdded(Greeted(), GatewayLoft({1}, map[1 := NO_STATS], 2, 1, GREETED), EMPTY_EDGE, 0, 1);
    assert GREETED.conns[0 := Conn(Some(1), map[1 := 2])] == ONE_PORT.conns;
  }

  lemma ToFrameHeld()
    ensures Moves(PortKnown(), FrameIn(1, 1, DATA, 0), FrameHeld())
  {
    hide Moves;
    OnFrameInEdge(PortKnown(), GatewayLoft({1}, map[1 := NO_STATS], 3, 1, ONE_PORT), EMPTY_EDGE, 1, DATA, 0);
    assert Ingest(EMPTY_EDGE, 1, DATA, 0) == EdgeLoft(map[1 := FRAME], map[]);
  }

  lemma ToFrameHeard()
    ensures Moves(FrameHeld(), TokenIn(Origin(1, 1)), FrameHeard())
  {
    hide Moves;
    var g, o := GatewayLoft({1}, map[1 := NO_STATS], 3, 1, ONE_PORT), Origin(1, 1);
    OnTokenIn(FrameHeld(), g, EdgeLoft(map[1 := FRAME], map[]), o);
    assert AdmitToken(g, 0, Token(1, 1, 14, DATA), 0) == GatewayLoft({1}, map[1 := NO_STATS], 3, 2, ONE_FRAME);
    assert FrameHeld().tokens - {o} == map[];
  }

  lemma ToPortGone()
    ensures Moves(FrameHeard(), PortDown(0, 1), PortGone())
  {
    hide Moves;
    OnPortDown(FrameHeard(), GatewayLoft({1}, map[1 := NO_STATS], 3, 2, ONE_FRAME), EdgeLoft(map[1 := FRAME], map[]), 1);
    assert {1} - {1} == {};
  }

  // ---- verdicts about the frame ----------------------------------------------------------------------

  const RF := RemoteFrame(0, 1, 2, 0)

  function HeldGateway(): Loft { GatewayLoft({}, map[1 := NO_STATS], 3, 2, ONE_FRAME) }

  function FreedGateway(): Loft { GatewayLoft({}, map[1 := NO_STATS], 3, 2, ONE_PORT) }

  /** The edge after a deliver, or after a copy-deliver. */
  function Emptied(verb: Verb): Loft {
    if verb.Deliver? then EdgeLoft(map[], map[1 := Delivered(0)]) else EdgeLoft(map[1 := FRAME.(copied := true)], map[])
  }

  function Asked(verb: Verb): Cluster {
    PortGone().(verdicts := map[0 := Verdict(verb, 1, 1)], pending := map[0 := Pending(Some(RF), None)], nextVid := 1)
  }

  function Sent(verb: Verb): Cluster {
    Asked(verb).(pending := map[], net := map[0 := SendRemote(0, verb.Deliver?, 1, 1, Some(0))], forget := if verb.Deliver? then {1} else {})
  }

  function Pushed(verb: Verb): Cluster {
    Sent(verb).(lofts := map[0 := HeldGateway(), 1 := Emptied(verb)], net := map[0 := Inject(1, Some(0), 1, DATA)])
  }

  function Refused(verb: Verb): Cluster { Pushed(verb).(net := map[]) }

  function DropAsked(): Cluster {
    Refused(CopyDeliver).(lofts := map[0 := FreedGateway(), 1 := Emptied(CopyDeliver)],
                          verdicts := map[0 := Verdict(CopyDeliver, 1, 1), 1 := Verdict(Drop, 0, 1)],
                          pending := map[1 := Pending(Some(RF), None)], nextVid := 2)
  }

  function DropSent(): Cluster { DropAsked().(pending := map[], net := map[1 := Instruct(0, Drop, 0, 1)]) }

  function DropDone(): Cluster {
    DropSent().(lofts := map[0 := FreedGateway(), 1 := EdgeLoft(map[], map[1 := Dropped(false)])], net := map[])
  }

  lemma OnDeliverIn(s: Cluster, g: Loft, e: Loft, v: Verdict)
    requires SceneFine(s, g, e) && !v.verb.Drop?
    ensures Moves(s, VerdictIn(v), s.(verdicts := s.verdicts[s.nextVid := v], nextVid := s.nextVid + 1,
                                      pending := s.pending[s.nextVid := Pending(LookupFrame(g, v.fid), LookupPort(g, v.port))]))
  {
    hide LookupFrame, LookupPort;
    FineMoves(s, g, e, VerdictIn(v), DoVerdictIn(s, v));
  }

  lemma OnDropIn(s: Cluster, g: Loft, e: Loft, v: Verdict)
    requires SceneFine(s, g, e) && v.verb.Drop? && v.fid in g.reg.frames
    ensures Moves(s, VerdictIn(v), s.(verdicts := s.verdicts[s.nextVid := v], nextVid := s.nextVid + 1,
                                      pending := s.pending[s.nextVid := Pending(Some(g.reg.frames[v.fid]), None)],
                                      lofts := map[0 := ForgetRemote(g, v.fid), 1 := e]))
  {
    hide ForgetRemote;
    FineMoves(s, g, e, VerdictIn(v), DoVerdictIn(s, v));
    SetGateway(g, e, ForgetRemote(g, v.fid));
  }

  lemma OnActSend(s: Cluster, g: Loft, e: Loft, vid: Vid, rf: RemoteFrame)
    requires SceneFine(s, g, e) && vid in s.pending && s.pending[vid] == Pending(Some(rf), None)
    ensures var v, s1 := s.verdicts[vid], s.(pending := s.pending - {vid});
            && (v.verb.Drop? ==> Moves(s, Act(vid), Send(s1, vid, Instruct(rf.conn, Drop, 0, rf.remoteFID), v)))
            && (!v.verb.Drop? ==> Moves(s, Act(vid), Send(s1, vid, SendRemote(rf.conn, v.verb.Deliver?, rf.remoteFID, v.port, Some(GATEWAY)), v)))
  {
    hide Execute, PushOut, Send;
    FineMoves(s, g, e, Act(vid), DoAct(s, vid));
  }

  lemma OnEdgePush(s: Cluster, g: Loft, e: Loft, vid: Vid)
    requires SceneFine(s, g, e) && vid in s.net && s.net[vid].SendRemote? && s.net[vid].conn in s.connNode && s.net[vid].fid in e.frames
    ensures var k := s.net[vid];
            Moves(s, EdgeIn(vid), s.(lofts := map[0 := g, 1 := Push(e, k.fid, k.consume, vid)], net := s.net[vid := Inject(1, k.addr, k.dstPort, e.frames[k.fid].data)]))
  {
    hide Push;
    var k := s.net[vid];
    FineMoves(s, g, e, EdgeIn(vid), DoEdgeIn(s, vid));
    SetEdge(g, e, Push(e, k.fid, k.consume, vid));
    assert (s.net - {vid})[vid := Inject(1, k.addr, k.dstPort, e.frames[k.fid].data)] == s.net[vid := Inject(1, k.addr, k.dstPort, e.frames[k.fid].data)];
  }

  lemma OnEdgeDrop(s: Cluster, g: Loft, e: Loft, vid: Vid)
    requires SceneFine(s, g, e) && vid in s.net && s.net[vid].Instruct? && s.net[vid].verb.Drop? && s.net[vid].conn in s.connNode
    ensures Moves(s, EdgeIn(vid), s.(lofts := map[0 := g, 1 := DropLocal(e, s.net[vid].fid)], net := s.net - {vid}))
  {
    hide DropLocal;
    FineMoves(s, g, e, EdgeIn(vid), DoEdgeIn(s, vid));
    SetEdge(g, e, DropLocal(e, s.net[vid].fid));
  }

  lemma OnPeerRefused(s: Cluster, g: Loft, e: Loft, vid: Vid)
    requires SceneFine(s, g, e) && vid in s.net && s.net[vid].Inject? && s.net[vid].addr == Some(0) && s.net[vid].port !in g.byID
    ensures Moves(s, PeerIn(vid), s.(net := s.net - {vid}))
  {
    FineMoves(s, g, e, PeerIn(vid), DoPeerIn(s, vid));
    SetGateway(g, e, g);
  }

  lemma ToAsked(verb: Verb)
    requires !verb.Drop?
    ensures Moves(PortGone(), VerdictIn(Verdict(verb, 1, 1)), Asked(verb))
  {
    hide Moves;
    OnDeliverIn(PortGone(), HeldGateway(), EdgeLoft(map[1 := FRAME], map[]), Verdict(verb, 1, 1));
  }

  lemma ToSent(verb: Verb)
    requires !verb.Drop?
    ensures Moves(Asked(verb), Act(0), Sent(verb))
  {
    hide Moves;
    OnActSend(Asked(verb), HeldGateway(), EdgeLoft(map[1 := FRAME], map[]), 0, RF);
    var forget: set<Fid> := {};
    assert forget + {1} == {1};
    assert map[0 := Pending(Some(RF), None)] - {0} == map[];
  }

  lemma ToPushed(verb: Verb)
    requires !verb.Drop?
    ensures Moves(Sent(verb), EdgeIn(0), Pushed(verb))
  {
    hide Moves;
    var e := EdgeLoft(map[1 := FRAME], map[]);
    OnEdgePush(Sent(verb), HeldGateway(), e, 0);
    assert e.frames - {1} == map[] && e.frames[1 := FRAME.(copied := true)] == map[1 := FRAME.(copied := true)];
    assert Push(e, 1, verb.Deliver?, 0) == Emptied(verb);
    assert Sent(verb).net[0 := Inject(1, Some(0), 1, DATA)] == Pushed(verb).net;
  }

  lemma ToRefused(verb: Verb)
    requires !verb.Drop?
    ensures Moves(Pushed(verb), PeerIn(0), Refused(verb))
  {
    hide Moves;
    OnPeerRefused(Pushed(verb), HeldGateway(), Emptied(verb), 0);
    assert Pushed(verb).net - {0} == map[];
  }

  lemma ToDropAsked()
    ensures Moves(Refused(CopyDeliver), VerdictIn(Verdict(Drop, 0, 1)), DropAsked())
  {
    hide Moves;
    OnDropIn(Refused(CopyDeliver), HeldGateway(), Emptied(CopyDeliver), Verdict(Drop, 0, 1));
    assert ONE_FRAME.frames - {1} == map[];
  }

  lemma ToDropSent()
    ensures Moves(DropAsked(), Act(1), DropSent())
  {
    hide Moves;
    OnActSend(DropAsked(), FreedGateway(), Emptied(CopyDeliver), 1, RF);
    assert map[1 := Pending(Some(RF), None)] - {1} == map[];
  }

  lemma ToDropDone()
    ensures Moves(DropSent(), EdgeIn(1), DropDone())
  {
    hide Moves;
    OnEdgeDrop(DropSent(), FreedGateway(), Emptied(CopyDeliver), 1);
    assert DropSent().net - {1} == map[];
    assert Emptied(CopyDeliver).frames - {1} == map[];
  }

  // ---- the runs ---------------------------------------------------------------------------------------

  /** An edge's frame is announced, and then a port of the gateway's is withdrawn. */
  const OPENING: seq<Event> := [
    Attach(true), TrunkUp(1, true), PortUp(1), PortUp(0), Dial(0, 1), HelloIn(0), PortAdded(0, 1),
    FrameIn(1, 1, DATA, 0), TokenIn(Origin(1, 1)), PortDown(0, 1)]

  /** The frame is delivered, or copied, to that port. */
  function Attempt(verb: Verb): seq<Event> { OPENING + [VerdictIn(Verdict(verb, 1, 1)), Act(0), EdgeIn(0), PeerIn(0)] }

  /** And dropped, once copied. */
  const COPY_THEN_DROP: seq<Event> := Attempt(CopyDeliver) + [VerdictIn(Verdict(Drop, 0, 1)), Act(1), EdgeIn(1)]

  lemma PortsRun() returns (run: seq<Cluster>)
    ensures IsRun(run, OPENING[..4]) && |run| == 5 && run[4] == PortsUp()
  {
    hide Moves, IsRun, AtFirst, Attached, Trunked, EdgePortUp, PortsUp;
    run := [AtFirst()];
    FirstState();
    ToAttached();
    run := OneMore(run, [], Attach(true), Attached());
    ToTrunked();
    run := OneMore(run, OPENING[..1], TrunkUp(1, true), Trunked());
    ToEdgePortUp();
    run := OneMore(run, OPENING[..2], PortUp(1), EdgePortUp());
    ToPortsUp();
    run := OneMore(run, OPENING[..3], PortUp(0), PortsUp());
    assert OPENING[..3] + [PortUp(0)] == OPENING[..4];
  }

  lemma OpeningRun() returns (run: seq<Cluster>)
    ensures IsRun(run, OPENING) && run[8] == FrameHeld() && run[10] == PortGone()
  {
    hide Moves, IsRun, PortsUp, Dialled, Greeted, PortKnown, FrameHeld, FrameHeard, PortGone;
    run := PortsRun();
    ToDialled();
    run := OneMore(run, OPENING[..4], Dial(0, 1), Dialled());
    ToGreeted();
    run := OneMore(run, OPENING[..5], HelloIn(0), Greeted());
    ToPortKnown();
    run := OneMore(run, OPENING[..6], PortAdded(0, 1), PortKnown());
    ToFrameHeld();
    run := OneMore(run, OPENING[..7], FrameIn(1, 1, DATA, 0), FrameHeld());
    ToFrameHeard();
    run := OneMore(run, OPENING[..8], TokenIn(Origin(1, 1)), FrameHeard());
    ToPortGone();
    run := OneMore(run, OPENING[..9], PortDown(0, 1), PortGone());
    assert OPENING[..9] + [PortDown(0, 1)] == OPENING;
  }

  lemma FirstState()
    ensures IsRun([AtFirst()], [])
  {
    assert AtFirst() == Start({1}, 0);
  }

  lemma OneMore(run: seq<Cluster>, events: seq<Event>, e: Event, t: Cluster) returns (longer: seq<Cluster>)
    requires IsRun(run, events) && |run| == |events| + 1 && Moves(run[|events|], e, t)
    ensures IsRun(longer, events + [e]) && longer == run + [t]
  {
    longer := run + [t];
    Extended(run, events, e, t);
  }

  lemma AttemptRun(verb: Verb) returns (run: seq<Cluster>)
    requires !verb.Drop?
    ensures IsRun(run, Attempt(verb)) && |run| == 15 && run[8] == FrameHeld() && run[14] == Refused(verb)
  {
    hide Moves, IsRun, FrameHeld, PortGone, Asked, Sent, Pushed, Refused;
    run := OpeningRun();
    RunLength(run, OPENING);
    var told := VerdictIn(Verdict(verb, 1, 1));
    ToAsked(verb);
    run := OneMore(run, OPENING, told, Asked(verb));
    ToSent(verb);
    run := OneMore(run, OPENING + [told], Act(0), Sent(verb));
    ToPushed(verb);
    run := OneMore(run, OPENING + [told] + [Act(0)], EdgeIn(0), Pushed(verb));
    ToRefused(verb);
    run := OneMore(run, OPENING + [told] + [Act(0)] + [EdgeIn(0)], PeerIn(0), Refused(verb));
    assert OPENING + [told] + [Act(0)] + [EdgeIn(0)] + [PeerIn(0)] == Attempt(verb);
  }

  lemma CopyThenDropRun() returns (run: seq<Cluster>)
    ensures IsRun(run, COPY_THEN_DROP) && |run| == 18 && run[8] == FrameHeld() && run[17] == DropDone()
  {
    hide Moves, IsRun, FrameHeld, Refused, DropAsked, DropSent, DropDone;
    run := AttemptRun(CopyDeliver);
    var before, told := Attempt(CopyDeliver), VerdictIn(Verdict(Drop, 0, 1));
    assert |before| == 14;
    ToDropAsked();
    run := OneMore(run, before, told, DropAsked());
    ToDropSent();
    run := OneMore(run, before + [told], Act(1), DropSent());
    ToDropDone();
    run := OneMore(run, before + [told] + [Act(1)], EdgeIn(1), DropDone());
    assert before + [told] + [Act(1)] + [EdgeIn(1)] == COPY_THEN_DROP;
  }

  /** No counter of any loft is different. */
  ghost predicate SameCounters(s: Cluster, t: Cluster) {
    && t.lofts.Keys == s.lofts.Keys
    && forall n :: n in s.lofts ==>
         t.lofts[n].stats == s.lofts[n].stats && t.lofts[n].noGame == s.lofts[n].noGame && t.lofts[n].dropTrunk == s.lofts[n].dropTrunk
  }

  lemma NoFailure(run: seq<Cluster>, events: seq<Event>, v: Vid)
    requires |run| == |events| + 1 && forall e :: e in events ==> !e.PeerFailed?
    ensures !Failed(run, events, v)
  {
  }

  /** Held in one state, ended uncounted in the other, written nowhere, on its way nowhere,
    * and no counter has moved in between. */
  ghost predicate LostBetween(s: Cluster, t: Cluster, o: Origin, fate: Fate) {
    && Buffered(s, o) && HasEnded(t, o) && FateOf(t, o) == fate && fate != Dropped(true) && fate != Expired(true)
    && t.writes == [] && t.net == map[] && SameCounters(s, t)
  }

  lemma DeliverLoses()
    ensures LostBetween(FrameHeld(), Refused(Deliver), Origin(1, 1), Delivered(0))
  {
  }

  lemma CopyThenDropLoses()
    ensures LostBetween(FrameHeld(), DropDone(), Origin(1, 1), Dropped(false))
  {
  }

  lemma NothingOut(run: seq<Cluster>, events: seq<Event>, s: Cluster, o: Origin, fate: Fate)
    requires |run| == |events| + 1 && (forall e :: e in events ==> !e.PeerFailed?) && LostBetween(s, run[|events|], o, fate)
    ensures HasEnded(run[|events|], o) && !AnsweredFor(run, events, o)
  {
    forall v
      ensures !Failed(run, events, v)
    {
      NoFailure(run, events, v);
    }
  }

  /** A frame delivered to a withdrawn port on another loft is lost: it has left its buffer,
    * was written nowhere, is nowhere on its way, and no counter has moved since it came. */
  lemma DeliveredToAWithdrawnPort() returns (run: seq<Cluster>)
    ensures IsRun(run, Attempt(Deliver)) && |run| == 15
    ensures LostBetween(run[8], run[14], Origin(1, 1), Delivered(0)) && Silent(run, Attempt(Deliver), Origin(1, 1))
  {
    hide IsRun, Silent, LostBetween, Refused, FrameHeld, HasEnded, AnsweredFor;
    run := AttemptRun(Deliver);
    DeliverLoses();
    NothingOut(run, Attempt(Deliver), FrameHeld(), Origin(1, 1), Delivered(0));
    NoSilentEndIff(run, Attempt(Deliver), Origin(1, 1));
  }

  /** So is one that was copied there and then dropped: the copy is why the drop does not count. */
  lemma CopiedToAWithdrawnPort() returns (run: seq<Cluster>)
    ensures IsRun(run, COPY_THEN_DROP) && |run| == 18
    ensures LostBetween(run[8], run[17], Origin(1, 1), Dropped(false)) && Silent(run, COPY_THEN_DROP, Origin(1, 1))
  {
    hide IsRun, Silent, LostBetween, DropDone, FrameHeld, HasEnded, AnsweredFor;
    run := CopyThenDropRun();
    CopyThenDropLoses();
    NothingOut(run, COPY_THEN_DROP, FrameHeld(), Origin(1, 1), Dropped(false));
    NoSilentEndIff(run, COPY_THEN_DROP, Origin(1, 1));
  }

  // ---- a port that leaves before its frame expires ------------------------------------------------------

  /** A frame comes in at the gateway, its port leaves, and nobody decides in time. */
  const UNDECIDED: seq<Event> := [Attach(true), PortUp(0), FrameIn(0, 1, DATA, 0), PortDown(0, 1), Tick(31_000_000_000), Housekeeping(0)]

  function Holding(ports: set<PortId>, frames: Frames, fate: Fates, swept: Time): Loft {
    Loft(ports, map[1 := SENT], 2, frames, 2, true, false, 0, 0, swept, NOBODY, History(map[1 := FRAME], fate, 1, 0, 0))
  }

  function OwnPortUp(): Cluster { Quiet(GatewayLoft({1}, map[1 := NO_STATS], 2, 1, NOBODY), Init(0), map[], map[], map[], OWN) }

  function OwnFrame(l: Loft): Cluster {
    Quiet(l, Init(0), map[], map[], map[1 := Announced(Origin(0, 1), Token(1, 1, 14, DATA), 0)], OWN)
  }

  function LongAfter(l: Loft): Cluster { OwnFrame(l).(now := 31_000_000_000) }

  lemma OnFrameIn(s: Cluster, g: Loft, e: Loft, p: PortId, data: Payload)
    requires SceneFine(s, g, e) && p in g.stats && IngestOutcome(g, p, data).Accepted?
    ensures var tok := IngestOutcome(g, p, data).token;
            Moves(s, FrameIn(0, p, data, 0), s.(lofts := map[0 := Ingest(g, p, data, s.now), 1 := e], known := s.known[tok.fid := Announced(Origin(0, tok.fid), tok, s.now)]))
  {
    hide Ingest, IngestOutcome;
    FineMoves(s, g, e, FrameIn(0, p, data, 0), DoFrameIn(s, 0, p, data, 0));
    SetGateway(g, e, Ingest(g, p, data, s.now));
  }

  lemma OnTick(s: Cluster, g: Loft, e: Loft, dt: nat)
    requires SceneFine(s, g, e)
    ensures Moves(s, Tick(dt), s.(now := s.now + dt))
  {
    FineMoves(s, g, e, Tick(dt), s.(now := s.now + dt));
  }

  lemma OnSweep(s: Cluster, g: Loft, e: Loft)
    requires SceneFine(s, g, e)
    ensures Moves(s, Housekeeping(0), s.(lofts := map[0 := Sweep(g, s.now), 1 := e]))
  {
    hide Sweep;
    FineMoves(s, g, e, Housekeeping(0), WithLoft(s, 0, Sweep(g, s.now)));
    SetGateway(g, e, Sweep(g, s.now));
  }

  lemma ToOwnPortUp()
    ensures Moves(Attached(), PortUp(0), OwnPortUp())
  {
    hide Moves;
    OnPortUp(Attached(), Init(0).(router := true), Init(0));
    assert AddPort(Init(0).(router := true)) == GatewayLoft({1}, map[1 := NO_STATS], 2, 1, NOBODY);
  }

  lemma ToOwnFrame()
    ensures Moves(OwnPortUp(), FrameIn(0, 1, DATA, 0), OwnFrame(Holding({1}, map[1 := FRAME], map[], 0)))
  {
    hide Moves;
    var g := GatewayLoft({1}, map[1 := NO_STATS], 2, 1, NOBODY);
    OnFrameIn(OwnPortUp(), g, Init(0), 1, DATA);
    assert Ingest(g, 1, DATA, 0) == Holding({1}, map[1 := FRAME], map[], 0);
  }

  lemma ToOwnPortGone()
    ensures Moves(OwnFrame(Holding({1}, map[1 := FRAME], map[], 0)), PortDown(0, 1), OwnFrame(Holding({}, map[1 := FRAME], map[], 0)))
  {
    hide Moves;
    OnPortDown(OwnFrame(Holding({1}, map[1 := FRAME], map[], 0)), Holding({1}, map[1 := FRAME], map[], 0), Init(0), 1);
    assert {1} - {1} == {};
  }

  lemma ToLongAfter()
    ensures Moves(OwnFrame(Holding({}, map[1 := FRAME], map[], 0)), Tick(31_000_000_000), LongAfter(Holding({}, map[1 := FRAME], map[], 0)))
  {
    hide Moves;
    OnTick(OwnFrame(Holding({}, map[1 := FRAME], map[], 0)), Holding({}, map[1 := FRAME], map[], 0), Init(0), 31_000_000_000);
  }

  lemma ToExpired()
    ensures Moves(LongAfter(Holding({}, map[1 := FRAME], map[], 0)), Housekeeping(0),
                  LongAfter(Holding({}, map[], map[1 := Expired(false)], 31_000_000_000)))
  {
    hide Moves;
    var l := Holding({}, map[1 := FRAME], map[], 0);
    OnSweep(LongAfter(l), l, Init(0));
    assert StaleFrames(l, 31_000_000_000) == {1} && StaleRemote(l, 31_000_000_000) == {};
    assert l.frames - {1} == map[] && SweepStats(l, 31_000_000_000) == l.stats;
    assert Sweep(l, 31_000_000_000) == Holding({}, map[], map[1 := Expired(false)], 31_000_000_000);
  }

  lemma ExpiryLoses()
    ensures LostBetween(OwnFrame(Holding({1}, map[1 := FRAME], map[], 0)), LongAfter(Holding({}, map[], map[1 := Expired(false)], 31_000_000_000)),
                        Origin(0, 1), Expired(false))
  {
  }

  /** Its frame expires, and no counter moves. */
  lemma ExpiredWithoutItsPort() returns (run: seq<Cluster>)
    ensures IsRun(run, UNDECIDED) && |run| == 7
    ensures LostBetween(run[3], run[6], Origin(0, 1), Expired(false)) && Silent(run, UNDECIDED, Origin(0, 1))
  {
    hide IsRun, Moves, Silent, LostBetween, HasEnded, AnsweredFor, AtFirst, Attached, OwnPortUp, OwnFrame, LongAfter, Holding;
    run := [AtFirst()];
    FirstState();
    ToAttached();
    run := OneMore(run, [], Attach(true), Attached());
    ToOwnPortUp();
    run := OneMore(run, UNDECIDED[..1], PortUp(0), OwnPortUp());
    ToOwnFrame();
    run := OneMore(run, UNDECIDED[..2], FrameIn(0, 1, DATA, 0), OwnFrame(Holding({1}, map[1 := FRAME], map[], 0)));
    ToOwnPortGone();
    run := OneMore(run, UNDECIDED[..3], PortDown(0, 1), OwnFrame(Holding({}, map[1 := FRAME], map[], 0)));
    ToLongAfter();
    run := OneMore(run, UNDECIDED[..4], Tick(31_000_000_000), LongAfter(Holding({}, map[1 := FRAME], map[], 0)));
    ToExpired();
    run := OneMore(run, UNDECIDED[..5], Housekeeping(0), LongAfter(Holding({}, map[], map[1 := Expired(false)], 31_000_000_000)));
    assert UNDECIDED[..5] + [Housekeeping(0)] == UNDECIDED;
    ExpiryLoses();
    NothingOut(run, UNDECIDED, run[3], Origin(0, 1), Expired(false));
    NoSilentEndIff(run, UNDECIDED, Origin(0, 1));
  }
}
