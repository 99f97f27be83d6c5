/** One loft daemon as a value: its ports, its frame buffer, the gateway's
  * registry of edges, and every atomic section that runs under the loft's
  * mutex, as a function from state to state.
  *
  * `History` is what an observer who never forgets would have written down; no
  * operation reads it to decide anything. */
module LoftCore {
  import opened Basics

  type Payload = seq<byte>
  type PortId = nat
  type Fid = nat
  type Vid = nat     // one verdict instance issued by a consumer
  type ConnId = nat  // one trunk connection accepted by the gateway
  type Node = nat
  type Time = int    // nanoseconds

  const SECOND: Time := 1_000_000_000
  const BUF_TTL: Time := 30 * SECOND
  const REMOTE_TTL: Time := BUF_TTL + 5 * SECOND
  const MAX_BUFFERED: nat := 8192
  const MIN_FRAME: nat := 14
  const SNAPSHOT_LEN: nat := 128
  const PORT_IDS: nat := 0x1_0000
  const FRAME_IDS: nat := 0x1_0000_0000

  datatype BufFrame = BufFrame(port: PortId, data: Payload, added: Time, copied: bool)

  /** How a buffered frame left the buffer. `counted` says whether a named
    * drop counter moved. */
  datatype Fate = Delivered(cause: Vid) | Dropped(counted: bool) | Expired(counted: bool)

  datatype PortStats = PortStats(rxFrames: nat, rxBytes: nat, txFrames: nat, txBytes: nat,
                                 overflow: nat, ttl: nat, consumer: nat)

  const NO_STATS := PortStats(0, 0, 0, 0, 0, 0, 0)

  datatype Token = Token(port: PortId, fid: Fid, fullLen: nat, snapshot: Payload)

  /** The gateway's handle on one trunk. `addr` is empty until the edge's hello. */
  datatype Conn = Conn(addr: Option<Node>, portMap: map<PortId, PortId>)

  datatype RemotePort = RemotePort(conn: ConnId, addr: Option<Node>, remoteID: PortId)

  datatype RemoteFrame = RemoteFrame(conn: ConnId, remoteFID: Fid, synthPort: PortId, added: Time)

  datatype Registry = Registry(conns: map<ConnId, Conn>,
                               ports: map<PortId, RemotePort>,
                               frames: map<Fid, RemoteFrame>)

  datatype History = History(born: map<Fid, BufFrame>, fate: map<Fid, Fate>,
                             received: nat, unrouted: nat, shed: nat)

  datatype Loft = Loft(byID: set<PortId>, stats: map<PortId, PortStats>, nextID: nat,
                       frames: map<Fid, BufFrame>, nextFID: nat,
                       router: bool, trunk: bool, noGame: nat, dropTrunk: nat,
                       lastSweep: Time, reg: Registry, hist: History)

  function Init(now: Time): Loft {
    Loft({}, map[], 1, map[], 1, false, false, 0, 0, now,
         Registry(map[], map[], map[]), History(map[], map[], 0, 0, 0))
  }

  // ---- identifiers: fixed-width counters -------------------------------------

  function NextPortId(n: nat): nat { (n + 1) % PORT_IDS }

  function NextFrameId(n: nat): nat { (n + 1) % FRAME_IDS }

  /** Neither counter is about to wrap. */
  predicate BeforeWrap(l: Loft) {
    l.nextID + 1 < PORT_IDS && l.nextFID + 1 < FRAME_IDS
  }

  // ---- ports -----------------------------------------------------------------

  function AddPort(l: Loft): Loft {
    l.(byID := l.byID + {l.nextID}, stats := l.stats[l.nextID := NO_STATS], nextID := NextPortId(l.nextID))
  }

  function RemovePort(l: Loft, p: PortId): Loft {
    l.(byID := l.byID - {p})
  }

  // ---- ingress ---------------------------------------------------------------

  function Snapshot(data: Payload): Payload {
    if |data| > SNAPSHOT_LEN then data[..SNAPSHOT_LEN] else data
  }

  function BuildToken(port: PortId, fid: Fid, data: Payload): Token {
    Token(port, fid, |data|, Snapshot(data))
  }

  function CountRx(l: Loft, p: PortId, len: nat): Loft
    requires p in l.stats
  {
    var s := l.stats[p];
    l.(stats := l.stats[p := s.(rxFrames := s.rxFrames + 1, rxBytes := s.rxBytes + len)],
       hist := l.hist.(received := l.hist.received + 1))
  }

  function Shed(l: Loft, p: PortId): Loft
    requires p in l.stats
  {
    var s := l.stats[p];
    l.(stats := l.stats[p := s.(overflow := s.overflow + 1)],
       hist := l.hist.(shed := l.hist.shed + 1))
  }

  function Buffer(l: Loft, p: PortId, data: Payload, now: Time): Loft {
    var f := BufFrame(p, data, now, false);
    l.(frames := l.frames[l.nextFID := f], nextFID := NextFrameId(l.nextFID),
       hist := l.hist.(born := l.hist.born[l.nextFID := f]))
  }

  datatype Ingested = Ignored | NoRouter | Overflow | Accepted(token: Token)

  function IngestOutcome(l: Loft, p: PortId, data: Payload): Ingested {
    if |data| < MIN_FRAME then Ignored
    else if !l.router && !l.trunk then NoRouter
    else if |l.frames| >= MAX_BUFFERED then Overflow
    else Accepted(BuildToken(p, l.nextFID, data))
  }

  /** A frame arrives on port object `p`; the object may outlive its registration. */
  function Ingest(l: Loft, p: PortId, data: Payload, now: Time): Loft
    requires p in l.stats
  {
    match IngestOutcome(l, p, data)
    case Ignored => l
    case NoRouter =>
      var l1 := CountRx(l, p, |data|);
      l1.(noGame := l1.noGame + 1, hist := l1.hist.(unrouted := l1.hist.unrouted + 1))
    case Overflow => Shed(CountRx(l, p, |data|), p)
    case Accepted(_) => Buffer(CountRx(l, p, |data|), p, data, now)
  }

  // ---- frame operations ------------------------------------------------------

  /** Hand out a frame's payload: consuming frees the buffer, copying marks it. */
  function Release(l: Loft, fid: Fid, consume: bool, cause: Vid): Loft
    requires fid in l.frames
  {
    if consume then
      l.(frames := l.frames - {fid}, hist := l.hist.(fate := l.hist.fate[fid := Delivered(cause)]))
    else
      l.(frames := l.frames[fid := l.frames[fid].(copied := true)])
  }

  /** The send-remote section: release if the frame is still here. */
  function Push(l: Loft, fid: Fid, consume: bool, cause: Vid): Loft {
    if fid in l.frames then Release(l, fid, consume, cause) else l
  }

  function CountTx(l: Loft, p: PortId, len: nat): Loft
    requires p in l.stats
  {
    var s := l.stats[p];
    l.(stats := l.stats[p := s.(txFrames := s.txFrames + 1, txBytes := s.txBytes + len)])
  }

  predicate CanDeliver(l: Loft, p: PortId, fid: Fid) {
    fid in l.frames && p in l.byID
  }

  function DeliverLocal(l: Loft, p: PortId, fid: Fid, consume: bool, cause: Vid): Loft
    requires l.byID <= l.stats.Keys
  {
    if CanDeliver(l, p, fid) then CountTx(Release(l, fid, consume, cause), p, |l.frames[fid].data|) else l
  }

  function CountConsumerDrop(l: Loft, p: PortId): Loft
    requires p in l.stats
  {
    var s := l.stats[p];
    l.(stats := l.stats[p := s.(consumer := s.consumer + 1)])
  }

  predicate DropIsCounted(l: Loft, f: BufFrame) {
    !f.copied && f.port in l.byID
  }

  function DropLocal(l: Loft, fid: Fid): Loft
    requires l.byID <= l.stats.Keys
  {
    if fid !in l.frames then l else
    var f := l.frames[fid];
    var counted := DropIsCounted(l, f);
    var l1 := l.(frames := l.frames - {fid}, hist := l.hist.(fate := l.hist.fate[fid := Dropped(counted)]));
    if counted then CountConsumerDrop(l1, f.port) else l1
  }

  /** A payload pushed by a sibling loft arrives for local port `p`. */
  predicate PeerAccepts(l: Loft, p: PortId, data: Payload) {
    |data| >= MIN_FRAME && p in l.byID
  }

  function PeerWrite(l: Loft, p: PortId, data: Payload): Loft
    requires l.byID <= l.stats.Keys
  {
    if PeerAccepts(l, p, data) then CountTx(l, p, |data|) else l
  }

  function TrunkDrop(l: Loft): Loft { l.(dropTrunk := l.dropTrunk + 1) }

  // ---- housekeeping ----------------------------------------------------------

  predicate Stale(added: Time, now: Time, ttl: Time) { now - added > ttl }

  function StaleFrames(l: Loft, now: Time): set<Fid> {
    set fid | fid in l.frames && Stale(l.frames[fid].added, now, BUF_TTL)
  }

  function StaleFrom(l: Loft, now: Time, p: PortId): set<Fid> {
    set fid | fid in l.frames && Stale(l.frames[fid].added, now, BUF_TTL) && l.frames[fid].port == p
  }

  function StaleRemote(l: Loft, now: Time): set<Fid> {
    set fid | fid in l.reg.frames && Stale(l.reg.frames[fid].added, now, REMOTE_TTL)
  }

  function SweepStats(l: Loft, now: Time): map<PortId, PortStats> {
    map p | p in l.stats ::
      if p in l.byID then l.stats[p].(ttl := l.stats[p].ttl + |StaleFrom(l, now, p)|) else l.stats[p]
  }

  function Sweep(l: Loft, now: Time): Loft {
    var gone := StaleFrames(l, now);
    l.(frames := l.frames - gone,
       stats := SweepStats(l, now),
       reg := l.reg.(frames := l.reg.frames - StaleRemote(l, now)),
       lastSweep := now,
       hist := l.hist.(fate := l.hist.fate + map fid | fid in gone :: Expired(l.frames[fid].port in l.byID)))
  }

  // ---- gateway: the registry of edges -----------------------------------------

  function OpenTrunk(l: Loft, c: ConnId): Loft {
    l.(reg := l.reg.(conns := l.reg.conns[c := Conn(None, map[])]))
  }

  function Hello(l: Loft, c: ConnId, addr: Node): Loft
    requires c in l.reg.conns
  {
    l.(reg := l.reg.(conns := l.reg.conns[c := l.reg.conns[c].(addr := Some(addr))]))
  }

  /** Give an edge's port an id in the consumer's id space, unless it has one. */
  function RegisterRemotePort(l: Loft, c: ConnId, remoteID: PortId): Loft
    requires c in l.reg.conns
  {
    var e := l.reg.conns[c];
    if remoteID in e.portMap then l else
    l.(nextID := NextPortId(l.nextID),
       reg := l.reg.(ports := l.reg.ports[l.nextID := RemotePort(c, e.addr, remoteID)],
                     conns := l.reg.conns[c := e.(portMap := e.portMap[remoteID := l.nextID])]))
  }

  function UnregisterRemotePort(l: Loft, c: ConnId, remoteID: PortId): Loft
    requires c in l.reg.conns
  {
    var e := l.reg.conns[c];
    if remoteID !in e.portMap then l else
    l.(reg := l.reg.(ports := l.reg.ports - {e.portMap[remoteID]},
                     conns := l.reg.conns[c := e.(portMap := e.portMap - {remoteID})]))
  }

  /** A token is passed on only for a known port and an attached router. */
  predicate TokenPasses(l: Loft, c: ConnId, tok: Token)
    requires c in l.reg.conns
  {
    tok.port in l.reg.conns[c].portMap && l.router
  }

  function AdmitToken(l: Loft, c: ConnId, tok: Token, now: Time): Loft
    requires c in l.reg.conns
  {
    if TokenPasses(l, c, tok) then
      var rf := RemoteFrame(c, tok.fid, l.reg.conns[c].portMap[tok.port], now);
      l.(nextFID := NextFrameId(l.nextFID), reg := l.reg.(frames := l.reg.frames[l.nextFID := rf]))
    else if !l.router then l.(noGame := l.noGame + 1)
    else l
  }

  /** The token as the consumer sees it: both ids rewritten, body untouched. */
  function RewriteToken(l: Loft, c: ConnId, tok: Token): Token
    requires c in l.reg.conns && TokenPasses(l, c, tok)
  {
    tok.(port := l.reg.conns[c].portMap[tok.port], fid := l.nextFID)
  }

  function FramesOf(l: Loft, c: ConnId): set<Fid> {
    set fid | fid in l.reg.frames && l.reg.frames[fid].conn == c
  }

  function PortsOf(l: Loft, c: ConnId): set<PortId>
    requires c in l.reg.conns
  {
    set r | r in l.reg.conns[c].portMap :: l.reg.conns[c].portMap[r]
  }

  function EdgeGone(l: Loft, c: ConnId): Loft
    requires c in l.reg.conns
  {
    var gone := FramesOf(l, c);
    l.(dropTrunk := l.dropTrunk + |gone|,
       reg := Registry(l.reg.conns - {c}, l.reg.ports - PortsOf(l, c), l.reg.frames - gone))
  }

  function ForgetRemote(l: Loft, fid: Fid): Loft {
    l.(reg := l.reg.(frames := l.reg.frames - {fid}))
  }

  // ---- what every atomic section keeps -----------------------------------------

  type Frames = map<Fid, BufFrame>
  type Fates = map<Fid, Fate>

  /** Every accepted frame is either still buffered, exactly as it came in, or
    * has exactly one fate. */
  ghost predicate Accounted(frames: Frames, born: Frames, fate: Fates) {
    && (forall fid :: fid in frames ==> fid in born && fid !in fate && frames[fid].(copied := false) == born[fid])
    && (forall fid :: fid in fate ==> fid in born)
    && (forall fid :: fid in born ==> fid in frames || fid in fate)
  }

  ghost predicate BornWell(born: Frames, ports: set<PortId>, nextFID: nat) {
    forall fid :: fid in born ==>
      fid < nextFID && born[fid].port in ports && |born[fid].data| >= MIN_FRAME && !born[fid].copied
  }

  /** The frames from port `p` that ended this way. */
  function Ended(born: Frames, fate: Fates, kind: Fate, p: PortId): set<Fid> {
    set fid | fid in fate && fid in born && fate[fid] == kind && born[fid].port == p
  }

  /** The named per-port counters count exactly the frames they name. */
  ghost predicate CountersExact(stats: map<PortId, PortStats>, born: Frames, fate: Fates) {
    forall p :: p in stats ==>
      && stats[p].consumer == |Ended(born, fate, Dropped(true), p)|
      && stats[p].ttl == |Ended(born, fate, Expired(true), p)|
  }

  ghost predicate PortsBelow(ports: set<PortId>, nextID: nat) {
    forall p :: p in ports ==> p < nextID
  }

  ghost predicate Unexpired(frames: Frames, lastSweep: Time) {
    forall fid :: fid in frames ==> lastSweep - frames[fid].added <= BUF_TTL
  }

  ghost predicate LoftInv(l: Loft) {
    && Accounted(l.frames, l.hist.born, l.hist.fate)
    && BornWell(l.hist.born, l.stats.Keys, l.nextFID)
    && CountersExact(l.stats, l.hist.born, l.hist.fate)
    && l.byID <= l.stats.Keys
    && PortsBelow(l.stats.Keys, l.nextID)
    && Unexpired(l.frames, l.lastSweep)
    && |l.frames| <= MAX_BUFFERED
    && l.hist.received == l.hist.unrouted + l.hist.shed + |l.hist.born|
  }
}
