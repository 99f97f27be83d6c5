/** What every reachable state of the flock satisfies. */
module ClusterSafety {
  import opened Basics
  import opened LoftCore
  import opened LoftConservation
  import opened Cluster

  ghost predicate LoftsOk(lofts: Lofts) {
    GATEWAY in lofts && forall n :: n in lofts ==> LoftInv(lofts[n])
  }

  ghost predicate BornBefore(born: Frames, now: Time) {
    forall fid :: fid in born ==> born[fid].added <= now
  }

  ghost predicate RolesOk(lofts: Lofts, now: Time) {
    forall n :: n in lofts ==>
      && lofts[n].lastSweep <= now
      && BornBefore(lofts[n].hist.born, now)
      && (n == GATEWAY ==> !lofts[n].trunk)
      && (n != GATEWAY ==> !lofts[n].router)
  }

  ghost predicate ConnsOk(connNode: map<ConnId, Node>, nodes: set<Node>) {
    forall c :: c in connNode ==> connNode[c] in nodes && connNode[c] != GATEWAY
  }

  ghost predicate AddrOk(addr: Option<Node>, n: Node) { addr.Some? ==> addr.value == n }

  /** `portMap` and the consumer-facing port table are mutually inverse. */
  ghost predicate PortMapsInverse(reg: Registry) {
    && (forall c, r :: c in reg.conns && r in reg.conns[c].portMap ==>
          var q := reg.conns[c].portMap[r];
          q in reg.ports && reg.ports[q].conn == c && reg.ports[q].remoteID == r)
    && (forall q :: q in reg.ports ==>
          var rp := reg.ports[q];
          rp.conn in reg.conns && rp.remoteID in reg.conns[rp.conn].portMap && reg.conns[rp.conn].portMap[rp.remoteID] == q)
  }

  ghost predicate RemotePortOk(connNode: map<ConnId, Node>, portOf: map<PortId, Phys>, p: PortId, rp: RemotePort) {
    && rp.conn in connNode
    && p in portOf && portOf[p] == Phys(connNode[rp.conn], rp.remoteID)
    && AddrOk(rp.addr, connNode[rp.conn])
  }

  ghost predicate RegPortsOk(reg: Registry, connNode: map<ConnId, Node>, portOf: map<PortId, Phys>) {
    && (forall c :: c in reg.conns ==> c in connNode && AddrOk(reg.conns[c].addr, connNode[c]))
    && (forall p :: p in reg.ports ==> RemotePortOk(connNode, portOf, p, reg.ports[p]))
  }

  /** The gateway's own ports stand for themselves, and no id is ever reused. */
  ghost predicate PortIdsOk(own: set<PortId>, portOf: map<PortId, Phys>, nextID: nat) {
    && (forall p :: p in own ==> p in portOf && portOf[p] == Phys(GATEWAY, p))
    && (forall p :: p in portOf ==> p < nextID)
  }

  ghost predicate RemoteFrameOk(connNode: map<ConnId, Node>, known: map<Fid, Announced>, fid: Fid, rf: RemoteFrame) {
    && rf.conn in connNode
    && fid in known && known[fid].origin == Origin(connNode[rf.conn], rf.remoteFID)
    && rf.added == known[fid].at
  }

  ghost predicate RegFramesOk(frames: map<Fid, RemoteFrame>, connNode: map<ConnId, Node>, known: map<Fid, Announced>) {
    forall fid :: fid in frames ==> RemoteFrameOk(connNode, known, fid, frames[fid])
  }

  ghost predicate IsBorn(lofts: Lofts, o: Origin) {
    o.node in lofts && o.fid in lofts[o.node].hist.born
  }

  ghost function FrameAt(lofts: Lofts, o: Origin): BufFrame
    requires IsBorn(lofts, o)
  {
    lofts[o.node].hist.born[o.fid]
  }

  /** The consumer was told the truth: length and snapshot are the frame's own,
    * and the ingress port is the one the frame physically came in on. */
  ghost predicate AnnouncedOk(lofts: Lofts, portOf: map<PortId, Phys>, fid: Fid, a: Announced) {
    && IsBorn(lofts, a.origin)
    && a.token == BuildToken(a.token.port, fid, FrameAt(lofts, a.origin).data)
    && a.token.port in portOf
    && portOf[a.token.port] == Phys(a.origin.node, FrameAt(lofts, a.origin).port)
    && FrameAt(lofts, a.origin).added <= a.at
    && (a.origin.node == GATEWAY ==> a.origin.fid == fid)
  }

  ghost predicate KnownOk(lofts: Lofts, portOf: map<PortId, Phys>, known: map<Fid, Announced>) {
    forall fid :: fid in known ==> AnnouncedOk(lofts, portOf, fid, known[fid])
  }

  /** One id space: below the gateway's counter, one id per frame, and the
    * gateway's own frames are exactly the ids that stand for themselves. */
  ghost predicate IdsOk(known: map<Fid, Announced>, own: map<Fid, BufFrame>, nextFID: nat) {
    && (forall fid :: fid in known ==> fid < nextFID)
    && (forall fid :: fid in own ==> fid in known && known[fid].origin == Origin(GATEWAY, fid))
    && (forall f, g :: f in known && g in known && known[f].origin == known[g].origin ==> f == g)
  }

  ghost predicate Unannounced(known: map<Fid, Announced>, o: Origin) {
    forall fid :: fid in known ==> known[fid].origin != o
  }

  ghost predicate TokenOk(lofts: Lofts, connNode: map<ConnId, Node>, o: Origin, t: TokenMsg) {
    && t.conn in connNode && connNode[t.conn] == o.node
    && IsBorn(lofts, o)
    && t.token == BuildToken(FrameAt(lofts, o).port, o.fid, FrameAt(lofts, o).data)
  }

  ghost predicate TokensOk(lofts: Lofts, connNode: map<ConnId, Node>, tokens: map<Origin, TokenMsg>) {
    forall o :: o in tokens ==> TokenOk(lofts, connNode, o, tokens[o])
  }

  ghost predicate TokensUnannounced(tokens: map<Origin, TokenMsg>, known: map<Fid, Announced>) {
    forall o :: o in tokens ==> Unannounced(known, o)
  }

  /** Everything that only ever grows, in one value. */
  datatype Facts = Facts(lofts: Lofts, connNode: map<ConnId, Node>, portOf: map<PortId, Phys>,
                         known: map<Fid, Announced>, verdicts: map<Vid, Verdict>)

  function FactsOf(s: Cluster): Facts { Facts(s.lofts, s.connNode, s.portOf, s.known, s.verdicts) }

  ghost predicate LoftsGrow(a: Lofts, b: Lofts) {
    a.Keys == b.Keys && forall n :: n in a ==> Grows(a[n], b[n])
  }

  ghost predicate FactsGrow(a: Facts, b: Facts) {
    && LoftsGrow(a.lofts, b.lofts)
    && Extends(a.connNode, b.connNode)
    && Extends(a.portOf, b.portOf)
    && Extends(a.known, b.known)
    && Extends(a.verdicts, b.verdicts)
  }

  ghost predicate PendingOk(w: Facts, vid: Vid, q: Pending) {
    && vid in w.verdicts
    && (q.rf.Some? ==> RemoteFrameOk(w.connNode, w.known, w.verdicts[vid].fid, q.rf.value))
    && (q.rp.Some? ==> RemotePortOk(w.connNode, w.portOf, w.verdicts[vid].port, q.rp.value))
  }

  /** `(n, p)` is where consumer-facing port `port` is, or could only be if the
    * gateway owns it. */
  ghost predicate Bound(portOf: map<PortId, Phys>, port: PortId, n: Node, p: PortId) {
    (port in portOf && portOf[port] == Phys(n, p)) || (n == GATEWAY && p == port)
  }

  ghost predicate HoldsFrame(w: Facts, vid: Vid, o: Origin) {
    && vid in w.verdicts
    && w.verdicts[vid].fid in w.known
    && w.known[w.verdicts[vid].fid].origin == o
  }

  /** The payload released because of verdict `vid` is the announced frame's, and
    * a consuming verdict is the one recorded as that frame's fate. */
  ghost predicate Released(w: Facts, vid: Vid, data: Payload) {
    && vid in w.verdicts
    && !w.verdicts[vid].verb.Drop?
    && w.verdicts[vid].fid in w.known
    && var o := w.known[w.verdicts[vid].fid].origin;
       && IsBorn(w.lofts, o)
       && data == FrameAt(w.lofts, o).data
       && (w.verdicts[vid].verb.Deliver? ==>
             o.fid in w.lofts[o.node].hist.fate && w.lofts[o.node].hist.fate[o.fid] == Delivered(vid))
  }

  ghost predicate PacketOk(w: Facts, vid: Vid, k: Packet) {
    match k
    case Instruct(c, verb, p, fid) =>
      c in w.connNode &&
      if vid in w.verdicts then
        && HoldsFrame(w, vid, Origin(w.connNode[c], fid))
        && verb == w.verdicts[vid].verb
        && (!verb.Drop? ==> w.verdicts[vid].port in w.portOf && w.portOf[w.verdicts[vid].port] == Phys(w.connNode[c], p))
      else verb.Drop?
    case SendRemote(c, consume, fid, dst, addr) =>
      && c in w.connNode
      && HoldsFrame(w, vid, Origin(w.connNode[c], fid))
      && !w.verdicts[vid].verb.Drop?
      && consume == w.verdicts[vid].verb.Deliver?
      && (addr.Some? ==> Bound(w.portOf, w.verdicts[vid].port, addr.value, dst))
    case Inject(_, addr, p, data) =>
      && Released(w, vid, data)
      && (addr.Some? ==> Bound(w.portOf, w.verdicts[vid].port, addr.value, p))
  }

  ghost predicate WriteOk(w: Facts, x: Write) {
    && Released(w, x.cause, x.data)
    && w.verdicts[x.cause].port in w.portOf
    && w.portOf[w.verdicts[x.cause].port] == Phys(x.node, x.port)
  }

  ghost predicate InFlightOk(w: Facts, pending: map<Vid, Pending>, net: map<Vid, Packet>) {
    && (forall v :: v in pending ==> PendingOk(w, v, pending[v]))
    && (forall v :: v in net ==> PacketOk(w, v, net[v]))
  }

  ghost predicate WritesOk(w: Facts, writes: seq<Write>) {
    forall x :: x in writes ==> WriteOk(w, x)
  }

  /** A verdict is in one place at a time and is written at most once. */
  ghost predicate Linear(s: Cluster) {
    && s.pending.Keys !! s.net.Keys
    && (forall v :: v in s.pending || v in s.net || v in s.verdicts ==> v < s.nextVid)
    && (forall i :: 0 <= i < |s.writes| ==>
          s.writes[i].cause !in s.pending && s.writes[i].cause !in s.net && s.writes[i].cause in s.verdicts)
    && (forall i, j :: 0 <= i < j < |s.writes| ==> s.writes[i].cause != s.writes[j].cause)
  }

  /** A frame freed at its edge because the gateway would not announce it never
    * gets announced later. */
  ghost predicate DoomedOk(s: Cluster) {
    forall v :: v in s.net && v !in s.verdicts && s.net[v].Instruct? && s.net[v].conn in s.connNode ==>
      var o := Origin(s.connNode[s.net[v].conn], s.net[v].fid);
      IsBorn(s.lofts, o) && o !in s.tokens && Unannounced(s.known, o)
  }

  ghost predicate Inv(s: Cluster) {
    && LoftsOk(s.lofts)
    && RolesOk(s.lofts, s.now)
    && ConnsOk(s.connNode, s.lofts.Keys)
    && PortMapsInverse(Gw(s).reg)
    && RegPortsOk(Gw(s).reg, s.connNode, s.portOf)
    && PortIdsOk(Gw(s).stats.Keys, s.portOf, Gw(s).nextID)
    && RegFramesOk(Gw(s).reg.frames, s.connNode, s.known)
    && KnownOk(s.lofts, s.portOf, s.known)
    && IdsOk(s.known, Gw(s).hist.born, Gw(s).nextFID)
    && TokensOk(s.lofts, s.connNode, s.tokens)
    && TokensUnannounced(s.tokens, s.known)
    && InFlightOk(FactsOf(s), s.pending, s.net)
    && WritesOk(FactsOf(s), s.writes)
    && Linear(s)
    && DoomedOk(s)
  }
}
