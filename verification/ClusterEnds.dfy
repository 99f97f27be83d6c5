/** How frames end over whole runs: written, on their way, counted, or lost without a trace. */
module ClusterEnds {
  import opened Basics
  import opened LoftCore
  import opened LoftConservation
  import opened Cluster
  import opened ClusterSafety
  import opened ClusterEdits
  import opened ClusterInvariant
  import opened ClusterVerdicts
  import opened ClusterRuns

  // ---- payloads taken out of a buffer ------------------------------------------------------

  predicate Written(s: Cluster, v: Vid) { exists i :: 0 <= i < |s.writes| && s.writes[i].cause == v }

  predicate OnItsWay(s: Cluster, v: Vid) { v in s.net && s.net[v].Inject? }

  predicate TakenOut(s: Cluster, v: Vid) { Written(s, v) || OnItsWay(s, v) }

  /** The verdict has been acted on, and nothing of it is left anywhere. */
  predicate Gone(s: Cluster, v: Vid) { v in s.verdicts && v !in s.pending && v !in s.net && !Written(s, v) }

  /** The push failed at its sender, which counts it as a trunk drop. */
  predicate Fails(s: Cluster, e: Event, v: Vid) { OnItsWay(s, v) && e == PeerFailed(v) && Enabled(s, e) }

  /** The push got there, and the port it is for is not registered. */
  predicate TurnedAway(s: Cluster, e: Event, v: Vid) {
    OnItsWay(s, v) && e == PeerIn(v) && Enabled(s, e) && s.net[v].port !in s.lofts[s.net[v].addr.value].byID
  }

  /** The push was lost between two lofts. */
  predicate LostOnTheWay(s: Cluster, e: Event, v: Vid) { OnItsWay(s, v) && e == Lost(v) }

  /** Uncounted, unwritten. */
  predicate Vanishes(s: Cluster, e: Event, v: Vid) { TurnedAway(s, e, v) || LostOnTheWay(s, e, v) }

  ghost predicate SameMail(s: Cluster, t: Cluster) {
    t.net == s.net && t.pending == s.pending && t.writes == s.writes && t.verdicts == s.verdicts
  }

  lemma LinearHolds(s: Cluster)
    requires Inv(s)
    ensures Linear(s)
  {
    hide LoftsOk, RolesOk, ConnsOk, PortMapsInverse, RegFramesOk, RegPortsOk, PortIdsOk, KnownOk, IdsOk, TokensOk, TokensUnannounced, DoomedOk, InFlightOk, WritesOk, Linear;
  }

  lemma LoftMail(s: Cluster, n: Node, l: Loft)
    ensures SameMail(s, WithLoft(s, n, l))
  {
  }

  lemma PortUpMail(s: Cluster, n: Node)
    requires n in s.lofts
    ensures SameMail(s, DoPortUp(s, n))
  {
    hide AddPort;
  }

  lemma FrameInMail(s: Cluster, n: Node, p: PortId, data: Payload, c: ConnId)
    requires n in s.lofts && p in s.lofts[n].stats
    ensures SameMail(s, DoFrameIn(s, n, p, data, c))
  {
    hide Ingest, IngestOutcome;
  }

  lemma OneLoftMail(s: Cluster, e: Event)
    requires WellFormed(s) && Enabled(s, e) && AtOneLoft(e)
    ensures SameMail(s, LoftEvent(s, e))
  {
    hide AddPort, RemovePort, Sweep, WellFormed, SameMail, WithLoft, DoPortUp, DoFrameIn;
    match e
    case Tick(dt) => assert SameMail(s, s.(now := s.now + dt)) by { TickMail(s, dt); }
    case PortUp(n) => PortUpMail(s, n);
    case PortDown(n, p) => LoftMail(s, n, RemovePort(s.lofts[n], p));
    case Attach(b) => LoftMail(s, GATEWAY, Gw(s).(router := b));
    case TrunkUp(n, b) => LoftMail(s, n, s.lofts[n].(trunk := b));
    case FrameIn(n, p, data, c) => FrameInMail(s, n, p, data, c);
    case Housekeeping(n) => LoftMail(s, n, Sweep(s.lofts[n], s.now));
  }

  lemma TickMail(s: Cluster, dt: nat)
    ensures SameMail(s, s.(now := s.now + dt))
  {
  }

  lemma TokenInMail(s: Cluster, o: Origin)
    requires GATEWAY in s.lofts && o in s.tokens && s.tokens[o].conn in Gw(s).reg.conns
    ensures TrunkKept(s, DoTokenIn(s, o))
  {
    hide AdmitToken, RewriteToken, TokenPasses;
  }

  /** Only a fresh instruction can have been sent. */
  ghost predicate TrunkKept(s: Cluster, t: Cluster) {
    && t.pending == s.pending && t.writes == s.writes && t.verdicts == s.verdicts
    && (forall v :: v in t.net && v != s.nextVid ==> v in s.net && t.net[v] == s.net[v])
    && (forall v :: v in s.net && v != s.nextVid ==> v in t.net)
  }

  lemma SameIsTrunkKept(s: Cluster, t: Cluster)
    requires SameMail(s, t)
    ensures TrunkKept(s, t)
  {
  }

  lemma TrunkMail(s: Cluster, e: Event)
    requires WellFormed(s) && Enabled(s, e) && OnATrunk(e)
    ensures TrunkKept(s, TrunkEvent(s, e))
  {
    hide OpenTrunk, Hello, RegisterRemotePort, UnregisterRemotePort, EdgeGone, WellFormed, DoTokenIn, TrunkKept;
    if e.TokenIn? {
      TokenInMail(s, e.origin);
    } else {
      SameIsTrunkKept(s, TrunkEvent(s, e));
    }
  }

  ghost predicate OneMoreAtMost(a: seq<Write>, b: seq<Write>, vid: Vid) {
    b == a || (|b| == |a| + 1 && b[..|a|] == a && b[|a|].cause == vid)
  }

  /** A loft carries an instruction out: at most one write, and the mail is as it was. */
  lemma ExecuteMail(s: Cluster, n: Node, vid: Vid, verb: Verb, p: PortId, fid: Fid)
    requires n in s.lofts && s.lofts[n].byID <= s.lofts[n].stats.Keys
    ensures var t := Execute(s, n, vid, verb, p, fid);
            && t.net == s.net && t.pending == s.pending && t.verdicts == s.verdicts
            && OneMoreAtMost(s.writes, t.writes, vid)
  {
    hide DropLocal, DeliverLocal, CanDeliver, OneMoreAtMost, WithLoft;
    var l := s.lofts[n];
    NoMore(s.writes, vid);
    if verb.Drop? {
      LoftMail(s, n, DropLocal(l, fid));
    } else {
      LoftMail(s, n, DeliverLocal(l, p, fid, verb.Deliver?, vid));
      if CanDeliver(l, p, fid) {
        Deliverable(l, p, fid);
        OneMore(s.writes, Write(vid, n, p, l.frames[fid].data));
      }
    }
  }

  lemma Deliverable(l: Loft, p: PortId, fid: Fid)
    ensures CanDeliver(l, p, fid) ==> fid in l.frames
  {
  }

  lemma NoMore(a: seq<Write>, vid: Vid)
    ensures OneMoreAtMost(a, a, vid)
  {
  }

  lemma OneMore(a: seq<Write>, x: Write)
    ensures OneMoreAtMost(a, a + [x], x.cause) && a + [x] != a
  {
    assert |a + [x]| == |a| + 1;
  }

  lemma PushOutMail(s: Cluster, n: Node, vid: Vid, consume: bool, fid: Fid, addr: Option<Node>, p: PortId)
    requires n in s.lofts
    ensures var t := PushOut(s, n, vid, consume, fid, addr, p);
            && t.pending == s.pending && t.verdicts == s.verdicts && t.writes == s.writes
            && (t.net == s.net || (vid in t.net && t.net[vid].Inject? && t.net == s.net[vid := t.net[vid]]))
  {
    hide Push;
  }

  /** What the mail of any other verdict looks like after an event about one. */
  ghost predicate OthersKept(s: Cluster, t: Cluster, vid: Vid) {
    && Extends(s.verdicts, t.verdicts)
    && (forall v :: v != vid ==> (v in t.net <==> v in s.net) && (v in s.net ==> t.net[v] == s.net[v]))
    && (forall v :: v != vid ==> (v in t.pending <==> v in s.pending))
    && OneMoreAtMost(s.writes, t.writes, vid)
  }

  lemma ActMail(s: Cluster, vid: Vid)
    requires WellFormed(s) && Enabled(s, Act(vid))
    ensures OthersKept(s, DoAct(s, vid), vid)
  {
    hide Execute, PushOut, OthersKept, OneMoreAtMost, Send;
    var v, q, s1 := s.verdicts[vid], s.pending[vid], s.(pending := s.pending - {vid});
    if q.rf.Some? {
      ActRemoteMail(s, vid);
    } else {
      if v.verb.Drop? || q.rp.None? {
        ExecuteMail(s1, GATEWAY, vid, v.verb, v.port, v.fid);
      } else {
        PushOutMail(s1, GATEWAY, vid, v.verb.Deliver?, v.fid, q.rp.value.addr, q.rp.value.remoteID);
        NoMore(s.writes, vid);
      }
      HandedOver(s, s1, DoAct(s, vid), vid);
    }
  }

  lemma ActRemoteMail(s: Cluster, vid: Vid)
    requires WellFormed(s) && Enabled(s, Act(vid)) && s.pending[vid].rf.Some?
    ensures OthersKept(s, DoAct(s, vid), vid)
  {
    hide Execute, PushOut, OthersKept, OneMoreAtMost, Send;
    NoMore(s.writes, vid);
    var v, q, s1 := s.verdicts[vid], s.pending[vid], s.(pending := s.pending - {vid});
    var rf := q.rf.value;
    if v.verb.Drop? {
      SendMail(s1, vid, Instruct(rf.conn, Drop, 0, rf.remoteFID), v);
    } else if q.rp.Some? && q.rp.value.conn == rf.conn {
      SendMail(s1, vid, Instruct(rf.conn, v.verb, q.rp.value.remoteID, rf.remoteFID), v);
    } else {
      var addr := if q.rp.Some? then q.rp.value.addr else Some(GATEWAY);
      var dst := if q.rp.Some? then q.rp.value.remoteID else v.port;
      SendMail(s1, vid, SendRemote(rf.conn, v.verb.Deliver?, rf.remoteFID, dst, addr), v);
    }
    HandedOver(s, s1, DoAct(s, vid), vid);
  }

  lemma SendMail(s: Cluster, vid: Vid, packet: Packet, v: Verdict)
    ensures var t := Send(s, vid, packet, v);
            && t.net == s.net[vid := packet] && t.pending == s.pending && t.writes == s.writes && t.verdicts == s.verdicts
  {
  }

  lemma HandedOver(s: Cluster, s1: Cluster, t: Cluster, vid: Vid)
    requires s1.verdicts == s.verdicts && s1.writes == s.writes
    requires (s1.pending == s.pending - {vid} && s1.net == s.net) || (s1.pending == s.pending && s1.net == s.net - {vid})
    requires t.pending == s1.pending && t.verdicts == s1.verdicts && OneMoreAtMost(s1.writes, t.writes, vid)
    requires t.net == s1.net || (vid in t.net && t.net == s1.net[vid := t.net[vid]])
    ensures OthersKept(s, t, vid)
  {
  }

  lemma EdgeInMail(s: Cluster, vid: Vid)
    requires WellFormed(s) && Enabled(s, EdgeIn(vid))
    ensures OthersKept(s, DoEdgeIn(s, vid), vid)
  {
    hide Execute, PushOut, OthersKept, OneMoreAtMost;
    var m, s1 := s.connNode[s.net[vid].conn], s.(net := s.net - {vid});
    match s.net[vid] {
      case Instruct(_, verb, p, g) => ExecuteMail(s1, m, vid, verb, p, g);
      case SendRemote(_, consume, g, dst, addr) =>
        PushOutMail(s1, m, vid, consume, g, addr, dst);
        NoMore(s.writes, vid);
    }
    HandedOver(s, s1, DoEdgeIn(s, vid), vid);
  }

  lemma PeerInMail(s: Cluster, vid: Vid)
    requires WellFormed(s) && Enabled(s, PeerIn(vid))
    ensures OthersKept(s, DoPeerIn(s, vid), vid)
    ensures vid !in DoPeerIn(s, vid).net && DoPeerIn(s, vid).pending == s.pending
    ensures PeerAccepts(s.lofts[s.net[vid].addr.value], s.net[vid].port, s.net[vid].data) <==> DoPeerIn(s, vid).writes != s.writes
  {
    hide PeerWrite, PeerAccepts, OthersKept, OneMoreAtMost;
    var k, t := s.net[vid], DoPeerIn(s, vid);
    NoMore(s.writes, vid);
    OneMore(s.writes, Write(vid, k.addr.value, k.port, k.data));
    HandedOver(s, s.(net := s.net - {vid}), t, vid);
  }

  /** The verdict an event is about. */
  function Subject(s: Cluster, e: Event): Vid {
    match e
    case Act(v) => v
    case EdgeIn(v) => v
    case PeerIn(v) => v
    case PeerFailed(v) => v
    case Lost(v) => v
    case _ => s.nextVid
  }

  lemma MailStep(s: Cluster, e: Event)
    requires Inv(s) && WellFormed(s)
    ensures OthersKept(s, Step(s, e), Subject(s, e))
  {
    hide Inv, WellFormed, LoftEvent, TrunkEvent, DoAct, DoEdgeIn, DoPeerIn, TrunkDrop, ForgetRemote, OthersKept;
    if !Enabled(s, e) {
      SameKept(s, s, Subject(s, e));
    } else if AtOneLoft(e) {
      OneLoftMail(s, e);
      SameKept(s, LoftEvent(s, e), s.nextVid);
    } else if OnATrunk(e) {
      TrunkMail(s, e);
      TrunkOthersKept(s, TrunkEvent(s, e));
    } else if e.VerdictIn? {
      LinearHolds(s);
      VerdictInMail(s, e.verdict);
    } else {
      match e
      case Act(v) => ActMail(s, v);
      case EdgeIn(v) => EdgeInMail(s, v);
      case PeerIn(v) => PeerInMail(s, v);
      case Forget(f) => SameKept(s, DoForget(s, f), s.nextVid);
      case PeerFailed(v) => DroppedKept(s, DoPeerFailed(s, v), v);
      case Lost(v) => DroppedKept(s, s.(net := s.net - {v}), v);
    }
  }

  lemma SameKept(s: Cluster, t: Cluster, vid: Vid)
    requires SameMail(s, t)
    ensures OthersKept(s, t, vid)
  {
  }

  lemma TrunkOthersKept(s: Cluster, t: Cluster)
    requires TrunkKept(s, t)
    ensures OthersKept(s, t, s.nextVid)
  {
  }

  lemma DroppedKept(s: Cluster, t: Cluster, v: Vid)
    requires t.net == s.net - {v} && t.pending == s.pending && t.writes == s.writes && t.verdicts == s.verdicts
    ensures OthersKept(s, t, v)
  {
  }

  lemma VerdictInMail(s: Cluster, v: Verdict)
    requires GATEWAY in s.lofts && Linear(s)
    ensures OthersKept(s, DoVerdictIn(s, v), s.nextVid)
  {
    hide ForgetRemote, LookupFrame, LookupPort, OthersKept, Linear;
    Asked(s, DoVerdictIn(s, v), v);
  }

  lemma Asked(s: Cluster, t: Cluster, v: Verdict)
    requires Linear(s) && t.verdicts == s.verdicts[s.nextVid := v] && t.net == s.net && t.writes == s.writes
    requires s.nextVid in t.pending && t.pending == s.pending[s.nextVid := t.pending[s.nextVid]]
    ensures OthersKept(s, t, s.nextVid)
  {
  }

  // ---- where a payload ends up -------------------------------------------------------------

  lemma WrittenStays(s: Cluster, e: Event, v: Vid)
    requires Inv(s) && WellFormed(s) && Written(s, v)
    ensures Written(Step(s, e), v)
  {
    hide Inv, WellFormed, Step;
    MailStep(s, e);
    var t := Step(s, e);
    var i :| 0 <= i < |s.writes| && s.writes[i].cause == v;
    assert t.writes[i].cause == v;
  }

  lemma ReleasedInside(s: Cluster, v: Vid)
    requires Inv(s) && OnItsWay(s, v)
    ensures v in s.verdicts && |s.net[v].data| >= MIN_FRAME && v < s.nextVid && v !in s.pending && !Written(s, v)
  {
    hide RolesOk, ConnsOk, PortMapsInverse, RegFramesOk, RegPortsOk, PortIdsOk, KnownOk, IdsOk, TokensOk, TokensUnannounced, DoomedOk, WritesOk, Accounted, CountersExact, PortsBelow, Unexpired;
    assert PacketOk(FactsOf(s), v, s.net[v]);
    assert LoftInv(s.lofts[s.known[s.verdicts[v].fid].origin.node]);
  }

  /** A payload that was taken out is still written or on its way, unless this very event
    * ends its push, and then nothing is left of it. */
  lemma TakenStep(s: Cluster, e: Event, v: Vid)
    requires Inv(s) && WellFormed(s) && TakenOut(s, v)
    ensures TakenOut(Step(s, e), v) <==> !(Fails(s, e, v) || Vanishes(s, e, v))
    ensures !TakenOut(Step(s, e), v) ==> Gone(Step(s, e), v)
  {
    hide Inv, WellFormed, Enabled, Step, Written, OthersKept, Linear;
    MailStep(s, e);
    LinearHolds(s);
    if Written(s, v) {
      WrittenStays(s, e, v);
      WrittenNotSent(s, v);
    } else {
      ReleasedInside(s, v);
      if e == PeerIn(v) && Enabled(s, e) {
        PeerInTaken(s, v);
        PeerInStep(s, v);
      } else if Subject(s, e) == v {
        NotItsTurn(s, e, v);
      } else {
        OthersOut(s, Step(s, e), Subject(s, e), v);
      }
    }
  }

  lemma PeerInStep(s: Cluster, v: Vid)
    requires WellFormed(s) && Enabled(s, PeerIn(v))
    ensures Step(s, PeerIn(v)) == DoPeerIn(s, v)
  {
    hide WellFormed, Enabled, DoPeerIn;
  }

  lemma PeerInTaken(s: Cluster, v: Vid)
    requires WellFormed(s) && OnItsWay(s, v) && Enabled(s, PeerIn(v))
    requires v in s.verdicts && |s.net[v].data| >= MIN_FRAME && v !in s.pending && !Written(s, v)
    ensures TakenOut(DoPeerIn(s, v), v) <==> !TurnedAway(s, PeerIn(v), v)
    ensures !TakenOut(DoPeerIn(s, v), v) ==> Gone(DoPeerIn(s, v), v)
  {
    hide Written, DoPeerIn, OneMoreAtMost;
    PeerInMail(s, v);
    WrittenIff(s, DoPeerIn(s, v), v);
  }

  lemma WrittenNotSent(s: Cluster, v: Vid)
    requires Linear(s) && Written(s, v)
    ensures v !in s.net
  {
  }

  lemma WrittenIff(s: Cluster, t: Cluster, v: Vid)
    requires OthersKept(s, t, v) && !Written(s, v)
    ensures Written(t, v) <==> t.writes != s.writes
  {
    if t.writes != s.writes { assert t.writes[|s.writes|].cause == v; }
  }

  /** A payload on its way is nobody's business but its own push's. */
  lemma NotItsTurn(s: Cluster, e: Event, v: Vid)
    requires WellFormed(s) && OnItsWay(s, v) && v < s.nextVid && v !in s.pending && v in s.verdicts && !Written(s, v)
    requires Subject(s, e) == v && !(e == PeerIn(v) && Enabled(s, e))
    ensures TakenOut(Step(s, e), v) <==> !(Fails(s, e, v) || Vanishes(s, e, v))
    ensures !TakenOut(Step(s, e), v) ==> Gone(Step(s, e), v)
  {
    hide LoftEvent, TrunkEvent, DoAct, DoEdgeIn, DoPeerIn, TrunkDrop, Written;
    if Enabled(s, e) && (e.PeerFailed? || e.Lost?) {
      var t := Step(s, e);
      assert t.writes == s.writes && t.net == s.net - {v};
      SameWrites(s, t, v);
    } else {
      assert Step(s, e) == s;
    }
  }

  lemma SameWrites(s: Cluster, t: Cluster, v: Vid)
    requires t.writes == s.writes
    ensures Written(t, v) <==> Written(s, v)
  {
  }

  lemma OthersOut(s: Cluster, t: Cluster, vid: Vid, v: Vid)
    requires OthersKept(s, t, vid) && v != vid
    ensures OnItsWay(t, v) <==> OnItsWay(s, v)
    ensures Written(t, v) <==> Written(s, v)
  {
    if Written(s, v) {
      var i :| 0 <= i < |s.writes| && s.writes[i].cause == v;
      assert t.writes[i].cause == v;
    }
  }

  lemma GoneStays(s: Cluster, e: Event, v: Vid)
    requires Inv(s) && WellFormed(s) && Gone(s, v)
    ensures Gone(Step(s, e), v)
  {
    hide Inv, WellFormed, LoftEvent, TrunkEvent, DoAct, DoEdgeIn, DoPeerIn, Written, TrunkDrop;
    MailStep(s, e);
    LinearHolds(s);
    if Subject(s, e) != v { OthersOut(s, Step(s, e), Subject(s, e), v); }
  }

  // ---- frames leaving their buffer ------------------------------------------------------------

  /** Verdict `v` names the frame buffered as `o`. */
  predicate About(s: Cluster, v: Vid, o: Origin) {
    v in s.verdicts && s.verdicts[v].fid in s.known && s.known[s.verdicts[v].fid].origin == o
  }

  predicate Buffered(s: Cluster, o: Origin) { o.node in s.lofts && o.fid in s.lofts[o.node].frames }

  predicate HasEnded(s: Cluster, o: Origin) { o.node in s.lofts && o.fid in s.lofts[o.node].hist.fate }

  function FateOf(s: Cluster, o: Origin): Fate
    requires HasEnded(s, o)
  {
    s.lofts[o.node].hist.fate[o.fid]
  }

  function HeldAs(s: Cluster, o: Origin): BufFrame
    requires Buffered(s, o)
  {
    s.lofts[o.node].frames[o.fid]
  }

  predicate PortIsHere(s: Cluster, o: Origin)
    requires Buffered(s, o)
  {
    HeldAs(s, o).port in s.lofts[o.node].byID
  }

  /** How a frame may end in one step: its payload out under a verdict that names it, or
    * dropped or expired, with a counter that moves if the code finds a port to count for. */
  ghost predicate EndsWell(s: Cluster, t: Cluster, o: Origin)
    requires Buffered(s, o) && HasEnded(t, o)
  {
    match FateOf(t, o)
    case Delivered(v) => TakenOut(t, v) && About(t, v, o)
    case Dropped(counted) => counted == (!HeldAs(s, o).copied && PortIsHere(s, o))
    case Expired(counted) => counted == PortIsHere(s, o)
  }

  ghost predicate CopiedOut(s: Cluster, o: Origin) { exists v :: TakenOut(s, v) && About(s, v, o) }

  ghost predicate FrameMoves(s: Cluster, t: Cluster, o: Origin) {
    && (Buffered(s, o) && HasEnded(t, o) ==> EndsWell(s, t, o))
    && (Buffered(t, o) && HeldAs(t, o).copied && !(Buffered(s, o) && HeldAs(s, o).copied) ==> CopiedOut(t, o))
    && (HasEnded(t, o) ==> HasEnded(s, o) || Buffered(s, o))
  }

  /** The frame is buffered as before, or was not and is not. */
  predicate Untouched(s: Cluster, t: Cluster, o: Origin) {
    && (Buffered(s, o) <==> Buffered(t, o)) && (Buffered(s, o) ==> HeldAs(s, o) == HeldAs(t, o))
    && (Buffered(s, o) ==> !HasEnded(t, o)) && (HasEnded(t, o) ==> HasEnded(s, o))
  }

  lemma UntouchedMoves(s: Cluster, t: Cluster, o: Origin)
    requires Untouched(s, t, o)
    ensures FrameMoves(s, t, o)
  {
  }

  /** A loft whose buffer stays as it is. */
  lemma SameBuffer(s: Cluster, n: Node, l: Loft, o: Origin)
    requires n in s.lofts && l.frames == s.lofts[n].frames && l.hist.fate == s.lofts[n].hist.fate
    requires Buffered(s, o) ==> !HasEnded(s, o)
    ensures Untouched(s, WithLoft(s, n, l), o)
  {
  }

  lemma SameLoftsTouch(s: Cluster, t: Cluster, o: Origin)
    requires t.lofts == s.lofts && (Buffered(s, o) ==> !HasEnded(s, o))
    ensures Untouched(s, t, o)
  {
  }

  lemma NotBothEver(s: Cluster, o: Origin)
    requires Inv(s)
    ensures Buffered(s, o) ==> !HasEnded(s, o)
    ensures Buffered(s, o) && GATEWAY == o.node ==> o.fid in s.known && s.known[o.fid].origin == o
  {
    hide RolesOk, ConnsOk, PortMapsInverse, RegFramesOk, RegPortsOk, PortIdsOk, KnownOk, IdsOk, TokensOk, TokensUnannounced, DoomedOk, InFlightOk, WritesOk, Linear, BornWell, CountersExact, PortsBelow, Unexpired;
    if Buffered(s, o) {
      assert LoftInv(s.lofts[o.node]);
      if o.node == GATEWAY { OwnIds(s, 0, o.fid); }
    }
  }

  lemma DropMoves(s: Cluster, n: Node, fid: Fid, o: Origin)
    requires n in s.lofts && s.lofts[n].byID <= s.lofts[n].stats.Keys && (Buffered(s, o) ==> !HasEnded(s, o))
    ensures FrameMoves(s, WithLoft(s, n, DropLocal(s.lofts[n], fid)), o)
  {
    hide CopiedOut;
    var l, t := s.lofts[n], WithLoft(s, n, DropLocal(s.lofts[n], fid));
    if o != Origin(n, fid) || fid !in l.frames {
      assert Untouched(s, t, o);
    }
  }

  lemma DeliverMoves(s: Cluster, n: Node, vid: Vid, verb: Verb, p: PortId, fid: Fid, o: Origin)
    requires n in s.lofts && s.lofts[n].byID <= s.lofts[n].stats.Keys && !verb.Drop? && CanDeliver(s.lofts[n], p, fid)
    requires (Buffered(s, o) ==> !HasEnded(s, o)) && About(s, vid, Origin(n, fid))
    ensures FrameMoves(s, Execute(s, n, vid, verb, p, fid), o)
  {
    hide CountTx;
    var l, t := s.lofts[n], Execute(s, n, vid, verb, p, fid);
    var m := Release(l, fid, verb.Deliver?, vid);
    assert t.lofts[n].frames == m.frames && t.lofts[n].hist == m.hist by { TxOnly(m, p, |l.frames[fid].data|); }
    if o == Origin(n, fid) {
      assert t.writes[|s.writes|].cause == vid;
      assert TakenOut(t, vid) && About(t, vid, o);
    } else {
      hide FrameMoves;
      assert Untouched(s, t, o);
      UntouchedMoves(s, t, o);
    }
  }

  lemma TxOnly(l: Loft, p: PortId, len: nat)
    requires p in l.stats
    ensures CountTx(l, p, len).frames == l.frames && CountTx(l, p, len).hist == l.hist
  {
  }

  lemma ExecuteMoves(s: Cluster, n: Node, vid: Vid, verb: Verb, p: PortId, fid: Fid, o: Origin)
    requires n in s.lofts && s.lofts[n].byID <= s.lofts[n].stats.Keys
    requires Buffered(s, o) ==> !HasEnded(s, o)
    requires !verb.Drop? && fid in s.lofts[n].frames ==> About(s, vid, Origin(n, fid))
    ensures FrameMoves(s, Execute(s, n, vid, verb, p, fid), o)
  {
    hide FrameMoves, Untouched, DropLocal, Buffered, HasEnded, About;
    if verb.Drop? {
      DropMoves(s, n, fid, o);
    } else if CanDeliver(s.lofts[n], p, fid) {
      DeliverMoves(s, n, vid, verb, p, fid, o);
    } else {
      SameBuffer(s, n, s.lofts[n], o);
      UntouchedMoves(s, WithLoft(s, n, s.lofts[n]), o);
    }
  }

  lemma PushOutMoves(s: Cluster, n: Node, vid: Vid, consume: bool, fid: Fid, addr: Option<Node>, p: PortId, o: Origin)
    requires n in s.lofts
    requires Buffered(s, o) ==> !HasEnded(s, o)
    requires fid in s.lofts[n].frames ==> About(s, vid, Origin(n, fid))
    ensures FrameMoves(s, PushOut(s, n, vid, consume, fid, addr, p), o)
  {
    var l, t := s.lofts[n], PushOut(s, n, vid, consume, fid, addr, p);
    if o != Origin(n, fid) || fid !in l.frames {
      assert Untouched(s, t, o);
    } else {
      assert TakenOut(t, vid) && About(t, vid, o);
    }
  }

  lemma SweepMoves(s: Cluster, n: Node, o: Origin)
    requires n in s.lofts && (Buffered(s, o) ==> !HasEnded(s, o))
    ensures FrameMoves(s, WithLoft(s, n, Sweep(s.lofts[n], s.now)), o)
  {
    hide SweepStats, StaleRemote;
  }

  lemma FrameInMoves(s: Cluster, n: Node, p: PortId, data: Payload, c: ConnId, o: Origin)
    requires n in s.lofts && p in s.lofts[n].stats && (Buffered(s, o) ==> !HasEnded(s, o))
    requires BeforeWrap(s.lofts[n]) && forall fid :: fid in s.lofts[n].hist.fate ==> fid < s.lofts[n].nextFID
    requires s.lofts[n].nextFID !in s.lofts[n].frames
    ensures FrameMoves(s, DoFrameIn(s, n, p, data, c), o)
  {
    var l, t := s.lofts[n], DoFrameIn(s, n, p, data, c);
    assert t.lofts == s.lofts[n := Ingest(l, p, data, s.now)];
    assert Ingest(l, p, data, s.now).hist.fate == l.hist.fate;
    if o == Origin(n, l.nextFID) {
      assert !Buffered(s, o);
    } else {
      assert Untouched(s, t, o);
    }
  }

  /** Nothing but an ingest, a verdict or a sweep touches a buffer. */
  lemma OneLoftMoves(s: Cluster, e: Event, o: Origin)
    requires Inv(s) && WellFormed(s) && IdsLeft(s) && Enabled(s, e) && AtOneLoft(e)
    ensures FrameMoves(s, LoftEvent(s, e), o)
  {
    hide Inv, WellFormed, FrameMoves, Untouched, Sweep, Buffered, HasEnded, DoFrameIn, BeforeWrap, WithLoft;
    NotBothEver(s, o);
    match e
    case FrameIn(n, p, data, c) =>
      FreshFid(s, n);
      FrameInMoves(s, n, p, data, c, o);
    case Housekeeping(n) => SweepMoves(s, n, o);
    case Tick(dt) => SameLofts(s, s.(now := s.now + dt), o);
    case PortUp(n) => PortUpMoves(s, n, o);
    case PortDown(n, p) => QuietMoves(s, n, RemovePort(s.lofts[n], p), o);
    case Attach(b) => QuietMoves(s, GATEWAY, Gw(s).(router := b), o);
    case TrunkUp(n, b) => QuietMoves(s, n, s.lofts[n].(trunk := b), o);
  }

  lemma SameLofts(s: Cluster, t: Cluster, o: Origin)
    requires t.lofts == s.lofts && (Buffered(s, o) ==> !HasEnded(s, o))
    ensures FrameMoves(s, t, o)
  {
    SameLoftsTouch(s, t, o);
    UntouchedMoves(s, t, o);
  }

  lemma QuietMoves(s: Cluster, n: Node, l: Loft, o: Origin)
    requires n in s.lofts && l.frames == s.lofts[n].frames && l.hist.fate == s.lofts[n].hist.fate
    requires Buffered(s, o) ==> !HasEnded(s, o)
    ensures FrameMoves(s, WithLoft(s, n, l), o)
  {
    hide FrameMoves, Untouched, Buffered, HasEnded, WithLoft;
    SameBuffer(s, n, l, o);
    UntouchedMoves(s, WithLoft(s, n, l), o);
  }

  lemma PortUpMoves(s: Cluster, n: Node, o: Origin)
    requires n in s.lofts && (Buffered(s, o) ==> !HasEnded(s, o))
    ensures FrameMoves(s, DoPortUp(s, n), o)
  {
    hide FrameMoves;
    QuietMoves(s, n, AddPort(s.lofts[n]), o);
    SameLoftsMove(s, WithLoft(s, n, AddPort(s.lofts[n])), DoPortUp(s, n), o);
  }

  /** What is not in a loft or in the mail does not matter. */
  lemma SameLoftsMove(s: Cluster, t: Cluster, u: Cluster, o: Origin)
    requires FrameMoves(s, t, o) && u.lofts == t.lofts
    requires Untouched(s, t, o)
    ensures FrameMoves(s, u, o)
  {
  }

  lemma FreshFid(s: Cluster, n: Node)
    requires Inv(s) && IdsLeft(s) && n in s.lofts
    ensures BeforeWrap(s.lofts[n]) && s.lofts[n].nextFID !in s.lofts[n].frames
    ensures forall fid :: fid in s.lofts[n].hist.fate ==> fid < s.lofts[n].nextFID
  {
    hide RolesOk, ConnsOk, PortMapsInverse, RegFramesOk, RegPortsOk, PortIdsOk, KnownOk, IdsOk, TokensOk, TokensUnannounced, DoomedOk, InFlightOk, WritesOk, Linear, CountersExact, PortsBelow, Unexpired;
    assert LoftInv(s.lofts[n]);
  }

  lemma QuietGateway(s: Cluster, t: Cluster, l: Loft, o: Origin)
    requires GATEWAY in s.lofts && t.lofts == s.lofts[GATEWAY := l] && l.frames == Gw(s).frames && l.hist.fate == Gw(s).hist.fate
    requires Buffered(s, o) ==> !HasEnded(s, o)
    ensures FrameMoves(s, t, o)
  {
    assert Untouched(s, t, o);
    UntouchedMoves(s, t, o);
  }

  predicate BufferSame(l: Loft, m: Loft) { m.frames == l.frames && m.hist == l.hist }

  /** Work on the registry leaves the buffer alone. */
  lemma OnlyTheRegistry(l: Loft, c: ConnId, n: Node, r: PortId)
    ensures BufferSame(l, OpenTrunk(l, c))
    ensures c in l.reg.conns ==> BufferSame(l, Hello(l, c, n)) && BufferSame(l, RegisterRemotePort(l, c, r))
    ensures c in l.reg.conns ==> BufferSame(l, UnregisterRemotePort(l, c, r)) && BufferSame(l, EdgeGone(l, c))
  {
    hide FramesOf, PortsOf;
  }

  lemma PortAddedMoves(s: Cluster, c: ConnId, r: PortId, o: Origin)
    requires WellFormed(s) && Enabled(s, PortAdded(c, r)) && (Buffered(s, o) ==> !HasEnded(s, o))
    ensures FrameMoves(s, DoPortAdded(s, c, r), o)
  {
    hide WellFormed, FrameMoves, Buffered, HasEnded, RegisterRemotePort;
    OnlyTheRegistry(Gw(s), c, GATEWAY, r);
    QuietGateway(s, DoPortAdded(s, c, r), RegisterRemotePort(Gw(s), c, r), o);
  }

  lemma TrunkMoves(s: Cluster, e: Event, o: Origin)
    requires WellFormed(s) && Enabled(s, e) && OnATrunk(e) && (Buffered(s, o) ==> !HasEnded(s, o))
    ensures FrameMoves(s, TrunkEvent(s, e), o)
  {
    hide WellFormed, FrameMoves, Buffered, HasEnded, DoTokenIn, DoPortAdded, OpenTrunk, Hello, UnregisterRemotePort, EdgeGone;
    var g, t := Gw(s), TrunkEvent(s, e);
    match e
    case Dial(c, n) => OnlyTheRegistry(g, c, n, 0); QuietGateway(s, t, OpenTrunk(g, c), o);
    case HelloIn(c) => OnlyTheRegistry(g, c, s.connNode[c], 0); QuietGateway(s, t, Hello(g, c, s.connNode[c]), o);
    case PortAdded(c, r) => PortAddedMoves(s, c, r, o);
    case PortRemoved(c, r) => OnlyTheRegistry(g, c, GATEWAY, r); QuietGateway(s, t, UnregisterRemotePort(g, c, r), o);
    case TokenIn(i) => TokenInMoves(s, i, o);
    case TokenLost(_) => SameLofts(s, t, o);
    case TrunkLost(c) => OnlyTheRegistry(g, c, GATEWAY, 0); QuietGateway(s, t, EdgeGone(g, c), o);
  }

  lemma TokenInMoves(s: Cluster, i: Origin, o: Origin)
    requires GATEWAY in s.lofts && i in s.tokens && s.tokens[i].conn in Gw(s).reg.conns && (Buffered(s, o) ==> !HasEnded(s, o))
    ensures FrameMoves(s, DoTokenIn(s, i), o)
  {
    hide FrameMoves, Buffered, HasEnded, RewriteToken, TokenPasses, AdmitToken;
    AdmitBuffer(Gw(s), s.tokens[i].conn, s.tokens[i].token, s.now);
    QuietGateway(s, DoTokenIn(s, i), AdmitToken(Gw(s), s.tokens[i].conn, s.tokens[i].token, s.now), o);
  }

  lemma AdmitBuffer(l: Loft, c: ConnId, tok: Token, now: Time)
    requires c in l.reg.conns
    ensures AdmitToken(l, c, tok, now).frames == l.frames && AdmitToken(l, c, tok, now).hist == l.hist
  {
    hide TokenPasses;
  }

  lemma VerdictInMoves(s: Cluster, v: Verdict, o: Origin)
    requires GATEWAY in s.lofts && (Buffered(s, o) ==> !HasEnded(s, o))
    ensures FrameMoves(s, DoVerdictIn(s, v), o)
  {
    hide FrameMoves, Buffered, HasEnded, LookupFrame, LookupPort;
    var t := DoVerdictIn(s, v);
    QuietGateway(s, t, t.lofts[GATEWAY], o);
  }

  lemma PeerInMoves(s: Cluster, vid: Vid, o: Origin)
    requires WellFormed(s) && Enabled(s, PeerIn(vid)) && (Buffered(s, o) ==> !HasEnded(s, o))
    ensures FrameMoves(s, DoPeerIn(s, vid), o)
  {
    hide FrameMoves, Buffered, HasEnded;
    var k, t := s.net[vid], DoPeerIn(s, vid);
    var n, l := k.addr.value, s.lofts[k.addr.value];
    var m := PeerWrite(l, k.port, k.data);
    assert m.frames == l.frames && m.hist == l.hist;
    assert t.lofts == WithLoft(s, n, m).lofts;
    TouchedOnly(s, t, n, m, o);
  }

  lemma TouchedOnly(s: Cluster, t: Cluster, n: Node, l: Loft, o: Origin)
    requires n in s.lofts && t.lofts == s.lofts[n := l] && l.frames == s.lofts[n].frames && l.hist.fate == s.lofts[n].hist.fate
    requires Buffered(s, o) ==> !HasEnded(s, o)
    ensures FrameMoves(s, t, o)
  {
    assert Untouched(s, t, o);
    UntouchedMoves(s, t, o);
  }

  lemma OtherMailMoves(s: Cluster, e: Event, o: Origin)
    requires WellFormed(s) && Enabled(s, e) && (e.VerdictIn? || e.Forget? || e.PeerIn? || e.PeerFailed? || e.Lost?)
    requires Buffered(s, o) ==> !HasEnded(s, o)
    ensures FrameMoves(s, VerdictEvent(s, e), o)
  {
    hide WellFormed, FrameMoves, Buffered, HasEnded, DoVerdictIn, DoPeerIn;
    match e
    case VerdictIn(v) => VerdictInMoves(s, v, o);
    case PeerIn(v) => PeerInMoves(s, v, o);
    case Forget(f) => QuietGateway(s, DoForget(s, f), ForgetRemote(Gw(s), f), o);
    case PeerFailed(v) => TouchedOnly(s, DoPeerFailed(s, v), s.net[v].from, TrunkDrop(s.lofts[s.net[v].from]), o);
    case Lost(v) => SameLofts(s, s.(net := s.net - {v}), o);
  }

  /** A verdict acted on at the gateway. */
  lemma ActMoves(s: Cluster, vid: Vid, o: Origin)
    requires WellFormed(s) && Enabled(s, Act(vid)) && (Buffered(s, o) ==> !HasEnded(s, o))
    requires s.verdicts[vid].fid in Gw(s).frames ==> About(s, vid, Origin(GATEWAY, s.verdicts[vid].fid))
    ensures FrameMoves(s, DoAct(s, vid), o)
  {
    hide Execute, PushOut, FrameMoves, Send, About, Buffered, HasEnded;
    var v, q, s1 := s.verdicts[vid], s.pending[vid], s.(pending := s.pending - {vid});
    if q.rf.Some? {
      SendMoves(s, vid, o);
    } else {
      AboutSame(s, s1, vid, Origin(GATEWAY, v.fid));
      SameRest(s, s1, o);
      if v.verb.Drop? || q.rp.None? {
        ExecuteMoves(s1, GATEWAY, vid, v.verb, v.port, v.fid, o);
      } else {
        PushOutMoves(s1, GATEWAY, vid, v.verb.Deliver?, v.fid, q.rp.value.addr, q.rp.value.remoteID, o);
      }
      MovesOn(s, s1, DoAct(s, vid), o);
    }
  }

  lemma AboutSame(s: Cluster, s1: Cluster, vid: Vid, o: Origin)
    requires s1.verdicts == s.verdicts && s1.known == s.known
    ensures About(s1, vid, o) <==> About(s, vid, o)
  {
  }

  lemma SameRest(s: Cluster, s1: Cluster, o: Origin)
    requires s1.lofts == s.lofts
    ensures Buffered(s1, o) <==> Buffered(s, o)
    ensures HasEnded(s1, o) <==> HasEnded(s, o)
  {
  }

  lemma MovesOn(s: Cluster, s1: Cluster, t: Cluster, o: Origin)
    requires FrameMoves(s1, t, o) && s1.lofts == s.lofts
    ensures FrameMoves(s, t, o)
  {
    hide TakenOut, About, CopiedOut;
  }

  lemma SendMoves(s: Cluster, vid: Vid, o: Origin)
    requires WellFormed(s) && Enabled(s, Act(vid)) && s.pending[vid].rf.Some? && (Buffered(s, o) ==> !HasEnded(s, o))
    ensures FrameMoves(s, DoAct(s, vid), o)
  {
    hide Execute, PushOut, FrameMoves, Send, Buffered, HasEnded;
    var v, q, s1 := s.verdicts[vid], s.pending[vid], s.(pending := s.pending - {vid});
    forall k: Packet
      ensures Send(s1, vid, k, v).lofts == s.lofts
    {
      SendLofts(s1, vid, k, v);
    }
    SameLofts(s, DoAct(s, vid), o);
  }

  lemma SendLofts(s: Cluster, vid: Vid, packet: Packet, v: Verdict)
    ensures Send(s, vid, packet, v).lofts == s.lofts
  {
  }

  /** An instruction carried out at an edge. */
  lemma EdgeInMoves(s: Cluster, vid: Vid, o: Origin)
    requires WellFormed(s) && Enabled(s, EdgeIn(vid)) && (Buffered(s, o) ==> !HasEnded(s, o))
    requires (s.net[vid].Instruct? && s.net[vid].verb.Drop?) || About(s, vid, Origin(s.connNode[s.net[vid].conn], s.net[vid].fid))
    ensures FrameMoves(s, DoEdgeIn(s, vid), o)
  {
    hide Execute, PushOut, FrameMoves, About, Buffered, HasEnded;
    var m, s1 := s.connNode[s.net[vid].conn], s.(net := s.net - {vid});
    SameRest(s, s1, o);
    AboutSame(s, s1, vid, Origin(m, s.net[vid].fid));
    match s.net[vid] {
      case Instruct(_, verb, p, g) => ExecuteMoves(s1, m, vid, verb, p, g, o);
      case SendRemote(_, consume, g, dst, addr) => PushOutMoves(s1, m, vid, consume, g, addr, dst, o);
    }
    MovesOn(s, s1, DoEdgeIn(s, vid), o);
  }

  lemma ActAbout(s: Cluster, vid: Vid)
    requires Inv(s) && vid in s.verdicts
    ensures GATEWAY in s.lofts
    ensures s.verdicts[vid].fid in Gw(s).frames ==> About(s, vid, Origin(GATEWAY, s.verdicts[vid].fid))
  {
    hide RolesOk, ConnsOk, PortMapsInverse, RegFramesOk, RegPortsOk, PortIdsOk, KnownOk, IdsOk, TokensOk, TokensUnannounced, DoomedOk, InFlightOk, WritesOk, Linear, LoftInv;
    OwnIds(s, 0, s.verdicts[vid].fid);
  }

  lemma EdgeInAbout(s: Cluster, vid: Vid)
    requires Inv(s) && vid in s.net && !s.net[vid].Inject?
    ensures s.net[vid].conn in s.connNode
    ensures (s.net[vid].Instruct? && s.net[vid].verb.Drop?) || About(s, vid, Origin(s.connNode[s.net[vid].conn], s.net[vid].fid))
  {
    hide Inv, Bound;
    PacketInside(s, vid);
  }

  lemma FrameStep(s: Cluster, e: Event, o: Origin)
    requires Inv(s) && WellFormed(s) && IdsLeft(s)
    ensures FrameMoves(s, Step(s, e), o)
  {
    hide Inv, IdsLeft, FrameMoves, LoftEvent, TrunkEvent, DoAct, DoEdgeIn, Buffered, HasEnded, About;
    NotBothEver(s, o);
    if !Enabled(s, e) {
      SameLofts(s, s, o);
    } else if AtOneLoft(e) {
      OneLoftMoves(s, e, o);
    } else if OnATrunk(e) {
      TrunkMoves(s, e, o);
    } else {
      match e
      case Act(v) =>
        ActAbout(s, v);
        ActMoves(s, v, o);
      case EdgeIn(v) =>
        EdgeInAbout(s, v);
        EdgeInMoves(s, v, o);
      case _ => OtherMailMoves(s, e, o);
    }
  }
}
