/** The flock refines one big loft: a single table of live frames, a single set
  * of ports, and a lossy mailbox of verdicts. */
module OneLoft {
  import opened Basics
  import opened LoftCore
  import opened LoftConservation
  import opened Cluster
  import opened ClusterSafety

  datatype Emission = Emission(port: PortId, fid: Fid, data: Payload)
  datatype Arrival = Arrival(ingress: PortId, data: Payload)
  datatype Emitted = Emitted(cause: Vid, at: Phys, data: Payload)

  /** `known` is every frame ever announced and `live` the ones still held; `ports` says
    * which physical port an id stands for, and `up` which of those are there now;
    * `asked` are verdicts not yet answered and `outbox` payloads on their way. */
  datatype Big = Big(known: map<Fid, Arrival>, live: set<Fid>, ports: map<PortId, Phys>, up: set<Phys>,
                     asked: map<Vid, Verdict>, outbox: map<Vid, Emission>, out: seq<Emitted>)

  datatype Label =
    | Announce(fid: Fid, arrival: Arrival)
    | NewPort(port: PortId, at: Phys)
    | Opens(at: Phys)
    | Closes(at: Phys)
    | Ask(vid: Vid, verdict: Verdict)
    | Answer(vid: Vid)   // a (copy-)deliver of a live frame: its payload goes to the outbox
    | Free(vid: Vid)     // a drop of a live frame
    | Ignore(vid: Vid)   // a verdict that came too late or got lost
    | Emit(vid: Vid)     // a payload leaves through the port its verdict named, which is there
    | Lose(vid: Vid)
    | Expire(fids: set<Fid>)

  predicate May(b: Big, l: Label) {
    match l
    case Announce(f, _) => f !in b.known
    case NewPort(p, _) => p !in b.ports
    case Opens(x) => x !in b.up
    case Closes(x) => x in b.up
    case Ask(v, _) => v !in b.asked && v !in b.outbox
    case Answer(v) => v in b.asked && !b.asked[v].verb.Drop? && b.asked[v].fid in b.live && b.asked[v].fid in b.known
    case Free(v) => v in b.asked && b.asked[v].verb.Drop? && b.asked[v].fid in b.live
    case Ignore(v) => v in b.asked
    case Emit(v) => v in b.outbox && b.outbox[v].port in b.ports && b.ports[b.outbox[v].port] in b.up
    case Lose(v) => v in b.outbox
    case Expire(_) => true
  }

  function Do(b: Big, l: Label): Big
    requires May(b, l)
  {
    match l
    case Announce(f, a) => b.(known := b.known[f := a], live := b.live + {f})
    case NewPort(p, x) => b.(ports := b.ports[p := x])
    case Opens(x) => b.(up := b.up + {x})
    case Closes(x) => b.(up := b.up - {x})
    case Ask(v, d) => b.(asked := b.asked[v := d])
    case Answer(v) =>
      var d := b.asked[v];
      b.(asked := b.asked - {v},
         live := if d.verb.Deliver? then b.live - {d.fid} else b.live,
         outbox := b.outbox[v := Emission(d.port, d.fid, b.known[d.fid].data)])
    case Free(v) => b.(asked := b.asked - {v}, live := b.live - {b.asked[v].fid})
    case Ignore(v) => b.(asked := b.asked - {v})
    case Emit(v) =>
      b.(outbox := b.outbox - {v}, out := b.out + [Emitted(v, b.ports[b.outbox[v].port], b.outbox[v].data)])
    case Lose(v) => b.(outbox := b.outbox - {v})
    case Expire(fs) => b.(live := b.live - fs)
  }

  /** `labels` can be played from `b` one after the other and end in `c`. */
  ghost predicate Plays(b: Big, labels: seq<Label>, c: Big)
    decreases |labels|
  {
    if labels == [] then b == c
    else May(b, labels[0]) && Plays(Do(b, labels[0]), labels[1..], c)
  }

  // ---- what the flock looks like from outside ----------------------------------------------

  ghost function BigKnown(lofts: Lofts, known: map<Fid, Announced>): map<Fid, Arrival> {
    map f | f in known :: Arrival(known[f].token.port, if IsBorn(lofts, known[f].origin) then FrameAt(lofts, known[f].origin).data else [])
  }

  predicate Held(lofts: Lofts, o: Origin) { o.node in lofts && o.fid in lofts[o.node].frames }

  function BigLive(lofts: Lofts, known: map<Fid, Announced>): set<Fid> {
    set f | f in known && Held(lofts, known[f].origin)
  }

  function BigUp(lofts: Lofts): set<Phys> {
    set n, p | n in lofts && p in lofts[n].byID :: Phys(n, p)
  }

  function BigAsked(verdicts: map<Vid, Verdict>, pending: map<Vid, Pending>, net: map<Vid, Packet>): map<Vid, Verdict> {
    map v | v in verdicts && (v in pending || (v in net && !net[v].Inject?)) :: verdicts[v]
  }

  function BigOutbox(verdicts: map<Vid, Verdict>, net: map<Vid, Packet>): map<Vid, Emission> {
    map v | v in verdicts && v in net && net[v].Inject? :: Emission(verdicts[v].port, verdicts[v].fid, net[v].data)
  }

  function BigOut(writes: seq<Write>): seq<Emitted> {
    seq(|writes|, i requires 0 <= i < |writes| => Emitted(writes[i].cause, Phys(writes[i].node, writes[i].port), writes[i].data))
  }

  ghost function Abs(s: Cluster): Big {
    Big(BigKnown(s.lofts, s.known), BigLive(s.lofts, s.known), s.portOf, BigUp(s.lofts),
        BigAsked(s.verdicts, s.pending, s.net), BigOutbox(s.verdicts, s.net), BigOut(s.writes))
  }

  // ---- which labels an event plays -----------------------------------------------------------

  /** The consumer-facing ids of frames `gone` at loft `n`. */
  function IdsAt(known: map<Fid, Announced>, n: Node, gone: set<Fid>): set<Fid> {
    set f | f in known && known[f].origin.node == n && known[f].origin.fid in gone
  }

  function ExecuteLabels(s: Cluster, n: Node, vid: Vid, verb: Verb, p: PortId, fid: Fid): seq<Label>
    requires n in s.lofts
  {
    if vid !in s.verdicts then []
    else if verb.Drop? then [if fid in s.lofts[n].frames then Free(vid) else Ignore(vid)]
    else if CanDeliver(s.lofts[n], p, fid) then [Answer(vid), Emit(vid)]
    else [Ignore(vid)]
  }

  function PushLabels(s: Cluster, n: Node, vid: Vid, fid: Fid): seq<Label>
    requires n in s.lofts
  {
    [if fid in s.lofts[n].frames then Answer(vid) else Ignore(vid)]
  }

  function ActLabels(s: Cluster, vid: Vid): seq<Label>
    requires GATEWAY in s.lofts && vid in s.pending && vid in s.verdicts
  {
    var v, q := s.verdicts[vid], s.pending[vid];
    if q.rf.Some? then []
    else if v.verb.Drop? || q.rp.None? then ExecuteLabels(s, GATEWAY, vid, v.verb, v.port, v.fid)
    else PushLabels(s, GATEWAY, vid, v.fid)
  }

  function EdgeLabels(s: Cluster, vid: Vid): seq<Label>
    requires vid in s.net && !s.net[vid].Inject? && s.net[vid].conn in s.connNode && s.connNode[s.net[vid].conn] in s.lofts
  {
    var n := s.connNode[s.net[vid].conn];
    match s.net[vid]
    case Instruct(_, verb, p, fid) => ExecuteLabels(s, n, vid, verb, p, fid)
    case SendRemote(_, _, fid, _, _) => PushLabels(s, n, vid, fid)
  }

  function TokenLabels(s: Cluster, o: Origin): seq<Label>
    requires GATEWAY in s.lofts && o in s.tokens && s.tokens[o].conn in Gw(s).reg.conns
  {
    var g, c, tok := Gw(s), s.tokens[o].conn, s.tokens[o].token;
    if !TokenPasses(g, c, tok) then [] else
    var data := if o.node in s.lofts && o.fid in s.lofts[o.node].hist.born then s.lofts[o.node].hist.born[o.fid].data else [];
    var first := Announce(g.nextFID, Arrival(g.reg.conns[c].portMap[tok.port], data));
    if Held(s.lofts, o) then [first] else [first, Expire({g.nextFID})]
  }

  function Labels(s: Cluster, e: Event): seq<Label>
    requires WellFormed(s)
  {
    if !Enabled(s, e) then [] else
    match e
    case PortUp(n) =>
      var at := Phys(n, s.lofts[n].nextID);
      if n == GATEWAY then [NewPort(Gw(s).nextID, at), Opens(at)] else [Opens(at)]
    case PortDown(n, p) => if p in s.lofts[n].byID then [Closes(Phys(n, p))] else []
    case PortAdded(c, r) => if r in Gw(s).reg.conns[c].portMap then [] else [NewPort(Gw(s).nextID, Phys(s.connNode[c], r))]
    case FrameIn(n, p, data, _) =>
      if n == GATEWAY && IngestOutcome(Gw(s), p, data).Accepted? then [Announce(Gw(s).nextFID, Arrival(p, data))] else []
    case TokenIn(o) => TokenLabels(s, o)
    case VerdictIn(v) => [Ask(s.nextVid, v)]
    case Act(v) => ActLabels(s, v)
    case EdgeIn(v) => EdgeLabels(s, v)
    case PeerIn(v) => [if PeerAccepts(s.lofts[s.net[v].addr.value], s.net[v].port, s.net[v].data) then Emit(v) else Lose(v)]
    case PeerFailed(v) => [Lose(v)]
    case Lost(v) => if s.net[v].Inject? then [Lose(v)] else if v in s.verdicts then [Ignore(v)] else []
    case Housekeeping(n) => [Expire(IdsAt(s.known, n, StaleFrames(s.lofts[n], s.now)))]
    case _ => []
  }
}
