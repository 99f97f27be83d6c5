/** The whole flock as a transition system: one gateway loft, any number of edge
  * lofts, trunks between them, payload pushes in flight, and any consumer at all.
  *
  * Each event is one atomic section under one loft's mutex, or one loss in the
  * network. Messages in flight are an unordered, lossy, non-duplicating bag, so
  * every delivery order is covered, first-in first-out trunks among them. Ports
  * may be announced and withdrawn by an edge at any time and in any order. */
module Cluster {
  import opened Basics
  import opened LoftCore
  import opened LoftConservation

  const GATEWAY: Node := 0

  datatype Verb = Deliver | CopyDeliver | Drop
  datatype Verdict = Verdict(verb: Verb, port: PortId, fid: Fid)

  /** Where a frame was buffered, and where a port physically is. */
  datatype Origin = Origin(node: Node, fid: Fid)
  datatype Phys = Phys(node: Node, port: PortId)

  /** What the consumer was told about a frame id, when, and what it stands for. */
  datatype Announced = Announced(origin: Origin, token: Token, at: Time)

  /** A verdict between its registry lookup and its action. */
  datatype Pending = Pending(rf: Option<RemoteFrame>, rp: Option<RemotePort>)

  datatype Packet =
    | Instruct(conn: ConnId, verb: Verb, port: PortId, fid: Fid)
    | SendRemote(conn: ConnId, consume: bool, fid: Fid, dstPort: PortId, addr: Option<Node>)
    | Inject(from: Node, addr: Option<Node>, port: PortId, data: Payload)

  datatype TokenMsg = TokenMsg(conn: ConnId, token: Token)
  datatype Write = Write(cause: Vid, node: Node, port: PortId, data: Payload)

  type Lofts = map<Node, Loft>

  /** `connNode`, `verdicts`, `known`, `portOf` and `writes` are history. A
    * verdict keeps its number while it is pending, in a packet, or written. */
  datatype Cluster = Cluster(lofts: Lofts, connNode: map<ConnId, Node>,
                             tokens: map<Origin, TokenMsg>,
                             pending: map<Vid, Pending>, forget: set<Fid>, net: map<Vid, Packet>,
                             nextVid: Vid, now: Time,
                             verdicts: map<Vid, Verdict>,
                             known: map<Fid, Announced>, portOf: map<PortId, Phys>,
                             writes: seq<Write>)

  datatype Event =
    | Tick(dt: nat)
    | PortUp(node: Node)
    | PortDown(node: Node, port: PortId)
    | Attach(router: bool)
    | TrunkUp(node: Node, up: bool)
    | FrameIn(node: Node, port: PortId, data: Payload, conn: ConnId)
    | Dial(conn: ConnId, node: Node)
    | HelloIn(conn: ConnId)
    | PortAdded(conn: ConnId, remoteID: PortId)
    | PortRemoved(conn: ConnId, remoteID: PortId)
    | TokenIn(origin: Origin)
    | TokenLost(origin: Origin)
    | TrunkLost(conn: ConnId)
    | VerdictIn(verdict: Verdict)
    | Act(vid: Vid)
    | Forget(fid: Fid)
    | EdgeIn(vid: Vid)
    | PeerIn(vid: Vid)
    | PeerFailed(vid: Vid)
    | Lost(vid: Vid)
    | Housekeeping(node: Node)

  function Gw(s: Cluster): Loft
    requires GATEWAY in s.lofts
  {
    s.lofts[GATEWAY]
  }

  function WithLoft(s: Cluster, n: Node, l: Loft): Cluster { s.(lofts := s.lofts[n := l]) }

  ghost predicate WellFormed(s: Cluster) {
    && GATEWAY in s.lofts
    && (forall n :: n in s.lofts ==> s.lofts[n].byID <= s.lofts[n].stats.Keys)
    && (forall c :: c in s.connNode ==> s.connNode[c] in s.lofts)
    && (forall v :: v in s.pending ==> v in s.verdicts)
  }

  predicate Enabled(s: Cluster, e: Event) {
    GATEWAY in s.lofts &&
    match e
    case Tick(_) => true
    case PortUp(n) => n in s.lofts
    case PortDown(n, p) => n in s.lofts
    case Attach(_) => true
    case TrunkUp(n, _) => n in s.lofts && n != GATEWAY
    case FrameIn(n, p, _, c) => n in s.lofts && p in s.lofts[n].stats && (n != GATEWAY ==> c in s.connNode && s.connNode[c] == n)
    case Dial(c, n) => c !in s.connNode && n in s.lofts && n != GATEWAY
    case HelloIn(c) => c in Gw(s).reg.conns && c in s.connNode
    case PortAdded(c, _) => c in Gw(s).reg.conns && c in s.connNode
    case PortRemoved(c, _) => c in Gw(s).reg.conns
    case TokenIn(o) => o in s.tokens && s.tokens[o].conn in Gw(s).reg.conns
    case TokenLost(o) => o in s.tokens
    case TrunkLost(c) => c in Gw(s).reg.conns
    case VerdictIn(_) => true
    case Act(v) => v in s.pending && v in s.verdicts
    case Forget(f) => f in s.forget
    case EdgeIn(v) => v in s.net && !s.net[v].Inject? && s.net[v].conn in s.connNode && s.connNode[s.net[v].conn] in s.lofts
    case PeerIn(v) => v in s.net && s.net[v].Inject? && s.net[v].addr.Some? && s.net[v].addr.value in s.lofts
    case PeerFailed(v) => v in s.net && s.net[v].Inject? && s.net[v].from in s.lofts
    case Lost(v) => v in s.net
    case Housekeeping(n) => n in s.lofts
  }

  // ---- the events, one atomic section each ---------------------------------------

  function DoPortUp(s: Cluster, n: Node): Cluster
    requires n in s.lofts
  {
    var s1 := WithLoft(s, n, AddPort(s.lofts[n]));
    if n == GATEWAY then s1.(portOf := s.portOf[s.lofts[n].nextID := Phys(GATEWAY, s.lofts[n].nextID)]) else s1
  }

  function DoFrameIn(s: Cluster, n: Node, p: PortId, data: Payload, c: ConnId): Cluster
    requires n in s.lofts && p in s.lofts[n].stats
  {
    var l := s.lofts[n];
    var s1 := WithLoft(s, n, Ingest(l, p, data, s.now));
    match IngestOutcome(l, p, data)
    case Accepted(tok) =>
      if n == GATEWAY then s1.(known := s.known[tok.fid := Announced(Origin(n, tok.fid), tok, s.now)])
      else s1.(tokens := s.tokens[Origin(n, tok.fid) := TokenMsg(c, tok)])
    case _ => s1
  }

  function DoDial(s: Cluster, c: ConnId, n: Node): Cluster
    requires GATEWAY in s.lofts
  {
    WithLoft(s, GATEWAY, OpenTrunk(Gw(s), c)).(connNode := s.connNode[c := n])
  }

  function DoPortAdded(s: Cluster, c: ConnId, r: PortId): Cluster
    requires GATEWAY in s.lofts && c in Gw(s).reg.conns && c in s.connNode
  {
    var g := Gw(s);
    var s1 := WithLoft(s, GATEWAY, RegisterRemotePort(g, c, r));
    if r in g.reg.conns[c].portMap then s1 else s1.(portOf := s.portOf[g.nextID := Phys(s.connNode[c], r)])
  }

  /** A token reaches the gateway: announced to the router, or the edge is told
    * to free the frame. */
  function DoTokenIn(s: Cluster, o: Origin): Cluster
    requires GATEWAY in s.lofts && o in s.tokens && s.tokens[o].conn in Gw(s).reg.conns
  {
    var g, c, tok := Gw(s), s.tokens[o].conn, s.tokens[o].token;
    var s1 := WithLoft(s, GATEWAY, AdmitToken(g, c, tok, s.now)).(tokens := s.tokens - {o});
    if TokenPasses(g, c, tok) then
      s1.(known := s.known[g.nextFID := Announced(o, RewriteToken(g, c, tok), s.now)])
    else
      s1.(net := s.net[s.nextVid := Instruct(c, Drop, 0, tok.fid)], nextVid := s.nextVid + 1)
  }

  function LookupFrame(g: Loft, fid: Fid): Option<RemoteFrame> {
    if fid in g.reg.frames then Some(g.reg.frames[fid]) else None
  }

  function LookupPort(g: Loft, p: PortId): Option<RemotePort> {
    if p in g.reg.ports then Some(g.reg.ports[p]) else None
  }

  /** First section of a verdict: look both ids up; a drop also forgets the frame. */
  function DoVerdictIn(s: Cluster, v: Verdict): Cluster
    requires GATEWAY in s.lofts
  {
    var g := Gw(s);
    var rf := LookupFrame(g, v.fid);
    var rp := if v.verb.Drop? then None else LookupPort(g, v.port);
    var s1 := s.(verdicts := s.verdicts[s.nextVid := v], pending := s.pending[s.nextVid := Pending(rf, rp)], nextVid := s.nextVid + 1);
    if v.verb.Drop? && rf.Some? then WithLoft(s1, GATEWAY, ForgetRemote(g, v.fid)) else s1
  }

  /** An instruction carried out at the loft that buffers the frame. */
  function Execute(s: Cluster, n: Node, vid: Vid, verb: Verb, p: PortId, fid: Fid): Cluster
    requires n in s.lofts && s.lofts[n].byID <= s.lofts[n].stats.Keys
  {
    var l := s.lofts[n];
    if verb.Drop? then WithLoft(s, n, DropLocal(l, fid))
    else
      var s1 := WithLoft(s, n, DeliverLocal(l, p, fid, verb.Deliver?, vid));
      if CanDeliver(l, p, fid) then s1.(writes := s.writes + [Write(vid, n, p, l.frames[fid].data)]) else s1
  }

  /** A payload released towards another loft, if the frame is still here. */
  function PushOut(s: Cluster, n: Node, vid: Vid, consume: bool, fid: Fid, addr: Option<Node>, p: PortId): Cluster
    requires n in s.lofts
  {
    var l := s.lofts[n];
    if fid !in l.frames then s
    else WithLoft(s, n, Push(l, fid, consume, vid)).(net := s.net[vid := Inject(n, addr, p, l.frames[fid].data)])
  }

  function Send(s: Cluster, vid: Vid, packet: Packet, v: Verdict): Cluster {
    s.(net := s.net[vid := packet], forget := if v.verb.Deliver? then s.forget + {v.fid} else s.forget)
  }

  /** Second section of a verdict: the four local/remote cases, or a drop. */
  function DoAct(s: Cluster, vid: Vid): Cluster
    requires GATEWAY in s.lofts && Gw(s).byID <= Gw(s).stats.Keys && vid in s.pending && vid in s.verdicts
  {
    var v, q := s.verdicts[vid], s.pending[vid];
    var s1 := s.(pending := s.pending - {vid});
    if q.rf.None? then
      if v.verb.Drop? || q.rp.None? then Execute(s1, GATEWAY, vid, v.verb, v.port, v.fid)
      else PushOut(s1, GATEWAY, vid, v.verb.Deliver?, v.fid, q.rp.value.addr, q.rp.value.remoteID)
    else
      var rf := q.rf.value;
      if v.verb.Drop? then Send(s1, vid, Instruct(rf.conn, Drop, 0, rf.remoteFID), v)
      else if q.rp.Some? && q.rp.value.conn == rf.conn then
        Send(s1, vid, Instruct(rf.conn, v.verb, q.rp.value.remoteID, rf.remoteFID), v)
      else
        var addr := if q.rp.Some? then q.rp.value.addr else Some(GATEWAY);
        var dst := if q.rp.Some? then q.rp.value.remoteID else v.port;
        Send(s1, vid, SendRemote(rf.conn, v.verb.Deliver?, rf.remoteFID, dst, addr), v)
  }

  /** An edge takes one instruction off its trunk. */
  function DoEdgeIn(s: Cluster, vid: Vid): Cluster
    requires vid in s.net && !s.net[vid].Inject? && s.net[vid].conn in s.connNode && s.connNode[s.net[vid].conn] in s.lofts
    requires var n := s.connNode[s.net[vid].conn]; s.lofts[n].byID <= s.lofts[n].stats.Keys
  {
    var n := s.connNode[s.net[vid].conn];
    var s1 := s.(net := s.net - {vid});
    match s.net[vid]
    case Instruct(_, verb, p, fid) => Execute(s1, n, vid, verb, p, fid)
    case SendRemote(_, consume, fid, dst, addr) => PushOut(s1, n, vid, consume, fid, addr, dst)
  }

  /** A pushed payload arrives at the loft it was addressed to. */
  function DoPeerIn(s: Cluster, vid: Vid): Cluster
    requires vid in s.net && s.net[vid].Inject? && s.net[vid].addr.Some? && s.net[vid].addr.value in s.lofts
    requires s.lofts[s.net[vid].addr.value].byID <= s.lofts[s.net[vid].addr.value].stats.Keys
  {
    var n, p, data := s.net[vid].addr.value, s.net[vid].port, s.net[vid].data;
    var l := s.lofts[n];
    var s1 := WithLoft(s, n, PeerWrite(l, p, data)).(net := s.net - {vid});
    if PeerAccepts(l, p, data) then s1.(writes := s.writes + [Write(vid, n, p, data)]) else s1
  }

  function DoHello(s: Cluster, c: ConnId): Cluster
    requires GATEWAY in s.lofts && c in Gw(s).reg.conns && c in s.connNode
  {
    WithLoft(s, GATEWAY, Hello(Gw(s), c, s.connNode[c]))
  }

  function DoPortRemoved(s: Cluster, c: ConnId, r: PortId): Cluster
    requires GATEWAY in s.lofts && c in Gw(s).reg.conns
  {
    WithLoft(s, GATEWAY, UnregisterRemotePort(Gw(s), c, r))
  }

  function DoTrunkLost(s: Cluster, c: ConnId): Cluster
    requires GATEWAY in s.lofts && c in Gw(s).reg.conns
  {
    WithLoft(s, GATEWAY, EdgeGone(Gw(s), c))
  }

  function DoForget(s: Cluster, f: Fid): Cluster
    requires GATEWAY in s.lofts
  {
    WithLoft(s, GATEWAY, ForgetRemote(Gw(s), f)).(forget := s.forget - {f})
  }

  /** Dialling or writing to the peer failed: the pushing loft counts the loss. */
  function DoPeerFailed(s: Cluster, vid: Vid): Cluster
    requires vid in s.net && s.net[vid].Inject? && s.net[vid].from in s.lofts
  {
    WithLoft(s, s.net[vid].from, TrunkDrop(s.lofts[s.net[vid].from])).(net := s.net - {vid})
  }

  predicate AtOneLoft(e: Event) {
    e.Tick? || e.PortUp? || e.PortDown? || e.Attach? || e.TrunkUp? || e.FrameIn? || e.Housekeeping?
  }

  predicate OnATrunk(e: Event) {
    e.Dial? || e.HelloIn? || e.PortAdded? || e.PortRemoved? || e.TokenIn? || e.TokenLost? || e.TrunkLost?
  }

  predicate OfAVerdict(e: Event) {
    e.VerdictIn? || e.Act? || e.Forget? || e.EdgeIn? || e.PeerIn? || e.PeerFailed? || e.Lost?
  }

  function LoftEvent(s: Cluster, e: Event): Cluster
    requires WellFormed(s) && Enabled(s, e) && AtOneLoft(e)
  {
    match e
    case Tick(dt) => s.(now := s.now + dt)
    case PortUp(n) => DoPortUp(s, n)
    case PortDown(n, p) => WithLoft(s, n, RemovePort(s.lofts[n], p))
    case Attach(b) => WithLoft(s, GATEWAY, Gw(s).(router := b))
    case TrunkUp(n, b) => WithLoft(s, n, s.lofts[n].(trunk := b))
    case FrameIn(n, p, data, c) => DoFrameIn(s, n, p, data, c)
    case Housekeeping(n) => WithLoft(s, n, Sweep(s.lofts[n], s.now))
  }

  function TrunkEvent(s: Cluster, e: Event): Cluster
    requires WellFormed(s) && Enabled(s, e) && OnATrunk(e)
  {
    match e
    case Dial(c, n) => DoDial(s, c, n)
    case HelloIn(c) => DoHello(s, c)
    case PortAdded(c, r) => DoPortAdded(s, c, r)
    case PortRemoved(c, r) => DoPortRemoved(s, c, r)
    case TokenIn(o) => DoTokenIn(s, o)
    case TokenLost(o) => s.(tokens := s.tokens - {o})
    case TrunkLost(c) => DoTrunkLost(s, c)
  }

  function VerdictEvent(s: Cluster, e: Event): Cluster
    requires WellFormed(s) && Enabled(s, e) && OfAVerdict(e)
  {
    match e
    case VerdictIn(v) => DoVerdictIn(s, v)
    case Act(v) => DoAct(s, v)
    case Forget(f) => DoForget(s, f)
    case EdgeIn(v) => DoEdgeIn(s, v)
    case PeerIn(v) => DoPeerIn(s, v)
    case PeerFailed(v) => DoPeerFailed(s, v)
    case Lost(v) => s.(net := s.net - {v})
  }

  function Step(s: Cluster, e: Event): Cluster
    requires WellFormed(s)
  {
    if !Enabled(s, e) then s
    else if AtOneLoft(e) then LoftEvent(s, e)
    else if OnATrunk(e) then TrunkEvent(s, e)
    else VerdictEvent(s, e)
  }

  // ---- runs -------------------------------------------------------------------------

  function Start(nodes: set<Node>, now: Time): Cluster {
    Cluster(map n | n in nodes + {GATEWAY} :: Init(now), map[], map[], map[], {}, map[], 0, now, map[], map[], map[], [])
  }

  /** No id counter of any loft is about to wrap. */
  ghost predicate IdsLeft(s: Cluster) {
    forall n :: n in s.lofts ==> BeforeWrap(s.lofts[n])
  }
}
