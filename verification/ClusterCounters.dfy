/** What every counter of every loft says about the run so far. */
module ClusterCounters {
  import opened Basics
  import opened LoftCore
  import opened LoftConservation
  import opened Cluster
  import opened ClusterSafety
  import opened ClusterRuns
  import opened ClusterAddresses

  // ---- what is counted ------------------------------------------------------------------------

  /** A frame long enough to be one comes in on port `p` of loft `n`. */
  predicate Arrives(s: Cluster, e: Event, n: Node, p: PortId) {
    Enabled(s, e) && e.FrameIn? && e.node == n && e.port == p && |e.data| >= 14
  }

  predicate SomeoneListens(l: Loft) { l.router || l.trunk }

  /** It finds the buffer full. */
  predicate FindsItFull(s: Cluster, e: Event, n: Node, p: PortId) {
    Arrives(s, e, n, p) && n in s.lofts && SomeoneListens(s.lofts[n]) && |s.lofts[n].frames| >= 8192
  }

  /** Nobody is there to decide: about a frame come in at `n`, or about one a token tells
    * the gateway of. */
  predicate FindsNobody(s: Cluster, e: Event, n: Node) {
    && n in s.lofts && Enabled(s, e)
    && ((e.FrameIn? && e.node == n && |e.data| >= 14 && !SomeoneListens(s.lofts[n]))
        || (e.TokenIn? && n == GATEWAY && !s.lofts[n].router))
  }

  /** Pushes of `n` that fail, and frames forgotten with their trunk. */
  function TrunkLosses(s: Cluster, e: Event, n: Node): nat {
    if !Enabled(s, e) then 0
    else if e.PeerFailed? then (if s.net[e.vid].from == n then 1 else 0)
    else if e.TrunkLost? && n == GATEWAY then |(set f | f in Gw(s).reg.frames && Gw(s).reg.frames[f].conn == e.conn)|
    else 0
  }

  function Sent(writes: seq<Write>, n: Node, p: PortId): nat {
    if writes == [] then 0
    else Sent(writes[..|writes| - 1], n, p) + if writes[|writes| - 1].node == n && writes[|writes| - 1].port == p then 1 else 0
  }

  function SentBytes(writes: seq<Write>, n: Node, p: PortId): nat {
    if writes == [] then 0
    else SentBytes(writes[..|writes| - 1], n, p)
         + if writes[|writes| - 1].node == n && writes[|writes| - 1].port == p then |writes[|writes| - 1].data| else 0
  }

  // ---- one loft ---------------------------------------------------------------------------------

  /** Only the two drop counters may differ. */
  predicate Quiet(l: Loft, m: Loft) {
    && m.stats.Keys == l.stats.Keys && m.noGame == l.noGame && m.dropTrunk == l.dropTrunk
    && forall p :: p in l.stats ==> m.stats[p].(ttl := 0, consumer := 0) == l.stats[p].(ttl := 0, consumer := 0)
  }

  lemma QuietWork(l: Loft, p: PortId, fid: Fid, consume: bool, vid: Vid, now: Time)
    requires l.byID <= l.stats.Keys
    ensures Quiet(l, RemovePort(l, p)) && Quiet(l, Sweep(l, now)) && Quiet(l, Push(l, fid, consume, vid))
    ensures Quiet(l, DropLocal(l, fid)) && Quiet(l, ForgetRemote(l, fid)) && Quiet(l, l)
  {
    hide StaleFrames, StaleRemote, StaleFrom;
  }

  lemma QuietTrunk(l: Loft, c: ConnId, n: Node, r: PortId)
    ensures Quiet(l, OpenTrunk(l, c))
    ensures c in l.reg.conns ==> Quiet(l, Hello(l, c, n)) && Quiet(l, RegisterRemotePort(l, c, r)) && Quiet(l, UnregisterRemotePort(l, c, r))
  {
  }

  /** One frame came in on `p`. */
  predicate Counted(l: Loft, m: Loft, p: PortId, len: nat, full: bool, nobody: bool)
    requires p in l.stats
  {
    && m.stats == l.stats[p := l.stats[p].(rxFrames := l.stats[p].rxFrames + 1, rxBytes := l.stats[p].rxBytes + len,
                                           overflow := l.stats[p].overflow + if full then 1 else 0)]
    && m.noGame == l.noGame + (if nobody then 1 else 0) && m.dropTrunk == l.dropTrunk
  }

  lemma IngestCounts(l: Loft, p: PortId, data: Payload, now: Time)
    requires p in l.stats
    ensures var m := Ingest(l, p, data, now);
            if |data| < MIN_FRAME then m == l
            else Counted(l, m, p, |data|, SomeoneListens(l) && |l.frames| >= MAX_BUFFERED, !SomeoneListens(l))
  {
  }

  /** One frame went out of `p`. */
  predicate OneOut(l: Loft, m: Loft, p: PortId, len: nat)
    requires p in l.stats
  {
    && m.stats == l.stats[p := l.stats[p].(txFrames := l.stats[p].txFrames + 1, txBytes := l.stats[p].txBytes + len)]
    && m.noGame == l.noGame && m.dropTrunk == l.dropTrunk
  }

  lemma DeliverCounts(l: Loft, p: PortId, fid: Fid, consume: bool, vid: Vid)
    requires l.byID <= l.stats.Keys
    ensures var m := DeliverLocal(l, p, fid, consume, vid);
            if CanDeliver(l, p, fid) then p in l.stats && OneOut(l, m, p, |l.frames[fid].data|) else m == l
  {
  }

  lemma PeerWriteCounts(l: Loft, p: PortId, data: Payload)
    requires l.byID <= l.stats.Keys
    ensures var m := PeerWrite(l, p, data);
            if PeerAccepts(l, p, data) then p in l.stats && OneOut(l, m, p, |data|) else m == l
  {
  }

  // ---- one event -----------------------------------------------------------------------------------

  /** What one event adds to the counters of port `p` of loft `n`, and of the loft. */
  ghost predicate PortCounts(s: Cluster, e: Event, t: Cluster, n: Node, p: PortId)
    requires n in s.lofts && n in t.lofts && p in t.lofts[n].stats
  {
    var b := t.lofts[n].stats[p];
    if p in s.lofts[n].stats then
      var a := s.lofts[n].stats[p];
      && b.rxFrames == a.rxFrames + (if Arrives(s, e, n, p) then 1 else 0)
      && b.rxBytes == a.rxBytes + (if Arrives(s, e, n, p) then |e.data| else 0)
      && b.overflow == a.overflow + (if FindsItFull(s, e, n, p) then 1 else 0)
      && b.txFrames + Sent(s.writes, n, p) == a.txFrames + Sent(t.writes, n, p)
      && b.txBytes + SentBytes(s.writes, n, p) == a.txBytes + SentBytes(t.writes, n, p)
    else
      b == NO_STATS && t.writes == s.writes && p == s.lofts[n].nextID
  }

  ghost predicate LoftCounts(s: Cluster, e: Event, t: Cluster, n: Node)
    requires n in s.lofts && n in t.lofts
  {
    && s.lofts[n].stats.Keys <= t.lofts[n].stats.Keys
    && t.lofts[n].noGame == s.lofts[n].noGame + (if FindsNobody(s, e, n) then 1 else 0)
    && t.lofts[n].dropTrunk == s.lofts[n].dropTrunk + TrunkLosses(s, e, n)
    && (forall p :: p in t.lofts[n].stats ==> PortCounts(s, e, t, n, p))
    && (forall p :: p !in t.lofts[n].stats ==> SameSent(s, t, n, p))
  }

  predicate SameSent(s: Cluster, t: Cluster, n: Node, p: PortId) {
    Sent(t.writes, n, p) == Sent(s.writes, n, p) && SentBytes(t.writes, n, p) == SentBytes(s.writes, n, p)
  }

  ghost predicate AllCount(s: Cluster, e: Event, t: Cluster) {
    t.lofts.Keys == s.lofts.Keys && forall n :: n in s.lofts ==> LoftCounts(s, e, t, n)
  }

  /** Events that no counter but the two for drops is about. */
  predicate Uncounted(e: Event) {
    e.Tick? || e.PortDown? || e.Attach? || e.TrunkUp? || e.Housekeeping? || e.Dial? || e.HelloIn? || e.PortAdded? || e.PortRemoved?
    || e.TokenLost? || e.VerdictIn? || e.Forget? || e.Lost?
  }

  lemma QuietCounts(s: Cluster, e: Event, t: Cluster, n: Node)
    requires Uncounted(e) || e.Act? || e.EdgeIn? || e.PeerIn?
    requires t.writes == s.writes && t.lofts.Keys == s.lofts.Keys && n in s.lofts && Quiet(s.lofts[n], t.lofts[n])
    ensures LoftCounts(s, e, t, n)
  {
    hide Sent, SentBytes;
    forall p | p in t.lofts[n].stats
      ensures PortCounts(s, e, t, n, p)
    {
      assert t.lofts[n].stats[p].(ttl := 0, consumer := 0) == s.lofts[n].stats[p].(ttl := 0, consumer := 0);
    }
  }

  /** One loft worked quietly, or none did. */
  lemma OneQuiet(s: Cluster, e: Event, t: Cluster, n: Node, m: Loft)
    requires Uncounted(e) || e.Act? || e.EdgeIn? || e.PeerIn?
    requires t.writes == s.writes && n in s.lofts && t.lofts == s.lofts[n := m] && Quiet(s.lofts[n], m)
    ensures AllCount(s, e, t)
  {
    hide LoftCounts, Quiet, Uncounted;
    forall k | k in s.lofts
      ensures LoftCounts(s, e, t, k)
    {
      if k != n { assert Quiet(s.lofts[k], s.lofts[k]) by { QuietItself(s.lofts[k]); } }
      QuietCounts(s, e, t, k);
    }
  }

  lemma QuietItself(l: Loft)
    ensures Quiet(l, l)
  {
  }

  lemma NoneCount(s: Cluster, e: Event, t: Cluster)
    requires Uncounted(e) || e.Act? || e.EdgeIn? || e.PeerIn?
    requires GATEWAY in s.lofts && t.writes == s.writes && t.lofts == s.lofts
    ensures AllCount(s, e, t)
  {
    QuietItself(s.lofts[GATEWAY]);
    assert s.lofts[GATEWAY := s.lofts[GATEWAY]] == s.lofts;
    OneQuiet(s, e, t, GATEWAY, s.lofts[GATEWAY]);
  }

  lemma LoftUncounted(s: Cluster, e: Event)
    requires WellFormed(s) && Enabled(s, e) && AtOneLoft(e) && Uncounted(e)
    ensures AllCount(s, e, LoftEvent(s, e))
  {
    hide AllCount, RemovePort, Sweep, DoPortUp, DoFrameIn;
    match e
    case PortDown(n, p) => PortDownCounts(s, n, p);
    case Housekeeping(n) => SweepCounts(s, n);
    case Tick(_) => NoneCount(s, e, LoftEvent(s, e));
    case _ => FlagEventCounts(s, e);
  }

  lemma FlagEventCounts(s: Cluster, e: Event)
    requires WellFormed(s) && Enabled(s, e) && (e.Attach? || e.TrunkUp?)
    ensures AllCount(s, e, LoftEvent(s, e))
  {
    hide AllCount, RemovePort, Sweep, DoPortUp, DoFrameIn;
    match e
    case Attach(b) => FlagCounts(s, e, GATEWAY, Gw(s).(router := b), b);
    case TrunkUp(n, b) => FlagCounts(s, e, n, s.lofts[n].(trunk := b), b);
  }

  lemma FlagCounts(s: Cluster, e: Event, n: Node, m: Loft, b: bool)
    requires (e.Attach? || e.TrunkUp?) && n in s.lofts && (m == s.lofts[n].(router := b) || m == s.lofts[n].(trunk := b))
    ensures AllCount(s, e, WithLoft(s, n, m))
  {
    hide AllCount, Quiet;
    FlagQuiet(s.lofts[n], b);
    OneQuiet(s, e, WithLoft(s, n, m), n, m);
  }

  lemma PortDownCounts(s: Cluster, n: Node, p: PortId)
    requires n in s.lofts && s.lofts[n].byID <= s.lofts[n].stats.Keys
    ensures AllCount(s, PortDown(n, p), WithLoft(s, n, RemovePort(s.lofts[n], p)))
  {
    hide AllCount, Quiet, RemovePort;
    QuietWork(s.lofts[n], p, 0, false, 0, 0);
    OneQuiet(s, PortDown(n, p), WithLoft(s, n, RemovePort(s.lofts[n], p)), n, RemovePort(s.lofts[n], p));
  }

  lemma SweepCounts(s: Cluster, n: Node)
    requires n in s.lofts && s.lofts[n].byID <= s.lofts[n].stats.Keys
    ensures AllCount(s, Housekeeping(n), WithLoft(s, n, Sweep(s.lofts[n], s.now)))
  {
    hide AllCount, Quiet, Sweep;
    QuietWork(s.lofts[n], 0, 0, false, 0, s.now);
    OneQuiet(s, Housekeeping(n), WithLoft(s, n, Sweep(s.lofts[n], s.now)), n, Sweep(s.lofts[n], s.now));
  }

  lemma TrunkUncounted(s: Cluster, e: Event)
    requires WellFormed(s) && Enabled(s, e) && OnATrunk(e) && Uncounted(e)
    ensures AllCount(s, e, TrunkEvent(s, e))
  {
    hide WellFormed, AllCount, Quiet, OpenTrunk, Hello, DoPortAdded, DoPortRemoved;
    var t := TrunkEvent(s, e);
    match e
    case Dial(c, n) => QuietTrunk(Gw(s), c, n, 0); OneQuiet(s, e, t, GATEWAY, OpenTrunk(Gw(s), c));
    case HelloIn(c) => QuietTrunk(Gw(s), c, s.connNode[c], 0); OneQuiet(s, e, t, GATEWAY, Hello(Gw(s), c, s.connNode[c]));
    case PortAdded(c, r) => PortAddedCounts(s, c, r);
    case PortRemoved(c, r) => PortRemovedCounts(s, c, r);
    case TokenLost(_) => NoneCount(s, e, t);
  }

  lemma PortAddedCounts(s: Cluster, c: ConnId, r: PortId)
    requires GATEWAY in s.lofts && c in Gw(s).reg.conns && c in s.connNode
    ensures AllCount(s, PortAdded(c, r), DoPortAdded(s, c, r))
  {
    hide AllCount, Quiet, RegisterRemotePort;
    QuietTrunk(Gw(s), c, 0, r);
    OneQuiet(s, PortAdded(c, r), DoPortAdded(s, c, r), GATEWAY, RegisterRemotePort(Gw(s), c, r));
  }

  lemma PortRemovedCounts(s: Cluster, c: ConnId, r: PortId)
    requires GATEWAY in s.lofts && c in Gw(s).reg.conns
    ensures AllCount(s, PortRemoved(c, r), DoPortRemoved(s, c, r))
  {
    hide AllCount, Quiet, UnregisterRemotePort;
    QuietTrunk(Gw(s), c, 0, r);
    OneQuiet(s, PortRemoved(c, r), DoPortRemoved(s, c, r), GATEWAY, UnregisterRemotePort(Gw(s), c, r));
  }

  lemma FlagQuiet(l: Loft, b: bool)
    ensures Quiet(l, l.(router := b)) && Quiet(l, l.(trunk := b))
  {
  }

  lemma VerdictInCounts(s: Cluster, v: Verdict)
    requires WellFormed(s)
    ensures AllCount(s, VerdictIn(v), DoVerdictIn(s, v))
  {
    hide AllCount, Quiet, ForgetRemote, LookupFrame, LookupPort;
    var t := DoVerdictIn(s, v);
    QuietWork(Gw(s), 0, v.fid, false, 0, 0);
    if t.lofts == s.lofts { NoneCount(s, VerdictIn(v), t); } else { OneQuiet(s, VerdictIn(v), t, GATEWAY, ForgetRemote(Gw(s), v.fid)); }
  }

  // ---- the events that count -------------------------------------------------------------------------

  /** At every other loft nothing is different, and this event is not about it. */
  lemma OthersCount(s: Cluster, e: Event, t: Cluster, n: Node, m: Loft)
    requires n in s.lofts && t.lofts == s.lofts[n := m]
    requires t.writes == s.writes || (t.writes != [] && t.writes[..|t.writes| - 1] == s.writes && t.writes[|t.writes| - 1].node == n)
    requires forall k :: k in s.lofts && k != n ==> !FindsNobody(s, e, k) && TrunkLosses(s, e, k) == 0 && forall p :: !Arrives(s, e, k, p)
    requires LoftCounts(s, e, t, n)
    ensures AllCount(s, e, t)
  {
    hide FindsNobody, TrunkLosses, Arrives;
    forall k | k in s.lofts
      ensures LoftCounts(s, e, t, k)
    {
      if k != n {
        forall p | p in t.lofts[k].stats
          ensures PortCounts(s, e, t, k, p)
        {
          assert t.lofts[k] == s.lofts[k];
        }
      }
    }
  }

  lemma PortUpCounts(s: Cluster, n: Node)
    requires WellFormed(s) && n in s.lofts && s.lofts[n].nextID !in s.lofts[n].stats
    ensures AllCount(s, PortUp(n), DoPortUp(s, n))
  {
    hide AllCount, WellFormed, Sent, SentBytes;
    OthersCount(s, PortUp(n), DoPortUp(s, n), n, AddPort(s.lofts[n]));
  }

  lemma FrameInLofts(s: Cluster, n: Node, p: PortId, data: Payload, c: ConnId)
    requires n in s.lofts && p in s.lofts[n].stats
    ensures var t := DoFrameIn(s, n, p, data, c); t.lofts == s.lofts[n := Ingest(s.lofts[n], p, data, s.now)] && t.writes == s.writes
  {
    hide Ingest, IngestOutcome;
  }

  lemma FrameInCounts(s: Cluster, n: Node, p: PortId, data: Payload, c: ConnId)
    requires WellFormed(s) && Enabled(s, FrameIn(n, p, data, c))
    ensures AllCount(s, FrameIn(n, p, data, c), DoFrameIn(s, n, p, data, c))
  {
    hide AllCount, LoftCounts, WellFormed, Ingest, DoFrameIn;
    FrameInLofts(s, n, p, data, c);
    var e, t, m := FrameIn(n, p, data, c), DoFrameIn(s, n, p, data, c), Ingest(s.lofts[n], p, data, s.now);
    IngestCounts(s.lofts[n], p, data, s.now);
    ArrivalCounts(s, e, t, n, m);
    OthersCount(s, e, t, n, m);
  }

  lemma ArrivalCounts(s: Cluster, e: Event, t: Cluster, n: Node, m: Loft)
    requires e.FrameIn? && e.node == n && n in s.lofts && Enabled(s, e) && t.lofts == s.lofts[n := m] && t.writes == s.writes && e.port in s.lofts[n].stats
    requires if |e.data| < MIN_FRAME then m == s.lofts[n]
             else Counted(s.lofts[n], m, e.port, |e.data|, SomeoneListens(s.lofts[n]) && |s.lofts[n].frames| >= MAX_BUFFERED, !SomeoneListens(s.lofts[n]))
    ensures LoftCounts(s, e, t, n)
  {
    hide Sent, SentBytes;
  }

  lemma AdmitCounts(l: Loft, c: ConnId, tok: Token, now: Time)
    requires c in l.reg.conns
    ensures var m := AdmitToken(l, c, tok, now);
            m.stats == l.stats && m.dropTrunk == l.dropTrunk && m.noGame == l.noGame + if l.router then 0 else 1
  {
  }

  lemma TokenInCounts(s: Cluster, o: Origin)
    requires WellFormed(s) && Enabled(s, TokenIn(o))
    ensures AllCount(s, TokenIn(o), DoTokenIn(s, o))
  {
    hide AllCount, WellFormed, AdmitToken, TokenPasses, RewriteToken, Sent, SentBytes;
    var m := AdmitToken(Gw(s), s.tokens[o].conn, s.tokens[o].token, s.now);
    AdmitCounts(Gw(s), s.tokens[o].conn, s.tokens[o].token, s.now);
    OthersCount(s, TokenIn(o), DoTokenIn(s, o), GATEWAY, m);
  }

  lemma TrunkLostCounts(s: Cluster, c: ConnId)
    requires WellFormed(s) && Enabled(s, TrunkLost(c))
    ensures AllCount(s, TrunkLost(c), DoTrunkLost(s, c))
  {
    hide AllCount, WellFormed, PortsOf, Sent, SentBytes;
    assert FramesOf(Gw(s), c) == set f | f in Gw(s).reg.frames && Gw(s).reg.frames[f].conn == c;
    OthersCount(s, TrunkLost(c), DoTrunkLost(s, c), GATEWAY, EdgeGone(Gw(s), c));
  }

  lemma PeerFailedCounts(s: Cluster, v: Vid)
    requires WellFormed(s) && Enabled(s, PeerFailed(v))
    ensures AllCount(s, PeerFailed(v), DoPeerFailed(s, v))
  {
    hide AllCount, WellFormed, Sent, SentBytes;
    var n := s.net[v].from;
    OthersCount(s, PeerFailed(v), DoPeerFailed(s, v), n, TrunkDrop(s.lofts[n]));
  }

  /** A payload is written: its port counts it. */
  lemma WrittenCounts(s: Cluster, e: Event, t: Cluster, n: Node, m: Loft, p: PortId, vid: Vid, data: Payload)
    requires (e.Act? || e.EdgeIn? || e.PeerIn?) && n in s.lofts && t.lofts == s.lofts[n := m] && p in s.lofts[n].stats
    requires t.writes == s.writes + [Write(vid, n, p, data)] && OneOut(s.lofts[n], m, p, |data|)
    ensures AllCount(s, e, t)
  {
    hide AllCount;
    assert t.writes[..|t.writes| - 1] == s.writes;
    forall q | q in m.stats
      ensures PortCounts(s, e, t, n, q)
    {
    }
    OthersCount(s, e, t, n, m);
  }

  lemma ExecuteCounts(s: Cluster, e: Event, n: Node, vid: Vid, verb: Verb, p: PortId, fid: Fid)
    requires (e.Act? || e.EdgeIn? || e.PeerIn?) && GATEWAY in s.lofts && n in s.lofts && s.lofts[n].byID <= s.lofts[n].stats.Keys
    ensures AllCount(s, e, Execute(s, n, vid, verb, p, fid))
  {
    hide AllCount, DropLocal, DeliverLocal, Quiet, OneOut;
    var l, t := s.lofts[n], Execute(s, n, vid, verb, p, fid);
    QuietWork(l, p, fid, false, vid, 0);
    DeliverCounts(l, p, fid, verb.Deliver?, vid);
    ExecuteLofts(s, n, vid, verb, p, fid);
    if verb.Drop? {
      OneQuiet(s, e, t, n, DropLocal(l, fid));
    } else if CanDeliver(l, p, fid) {
      WrittenCounts(s, e, t, n, DeliverLocal(l, p, fid, verb.Deliver?, vid), p, vid, l.frames[fid].data);
    } else {
      OneQuiet(s, e, t, n, l);
    }
  }

  lemma PushOutCounts(s: Cluster, e: Event, n: Node, vid: Vid, consume: bool, fid: Fid, addr: Option<Node>, p: PortId)
    requires (e.Act? || e.EdgeIn? || e.PeerIn?) && GATEWAY in s.lofts && n in s.lofts && s.lofts[n].byID <= s.lofts[n].stats.Keys
    ensures AllCount(s, e, PushOut(s, n, vid, consume, fid, addr, p))
  {
    hide AllCount, Push, Quiet;
    var t := PushOut(s, n, vid, consume, fid, addr, p);
    QuietWork(s.lofts[n], p, fid, consume, vid, 0);
    if fid in s.lofts[n].frames {
      assert t.lofts == s.lofts[n := Push(s.lofts[n], fid, consume, vid)];
      OneQuiet(s, e, t, n, Push(s.lofts[n], fid, consume, vid));
    } else {
      NoneCount(s, e, t);
    }
  }

  /** The mail is nobody's counter. */
  lemma CountsFrom(s: Cluster, s1: Cluster, e: Event, t: Cluster)
    requires (e.Act? || e.EdgeIn?) && s1.lofts == s.lofts && s1.writes == s.writes && AllCount(s1, e, t)
    ensures AllCount(s, e, t)
  {
    hide Sent, SentBytes, Arrives, FindsItFull, FindsNobody, TrunkLosses;
    forall n | n in s.lofts
      ensures LoftCounts(s, e, t, n)
    {
      NothingElse(s, e, n, 0);
      NothingElse(s1, e, n, 0);
      assert LoftCounts(s1, e, t, n);
      forall p | p in t.lofts[n].stats
        ensures PortCounts(s, e, t, n, p)
      {
        assert PortCounts(s1, e, t, n, p);
        NothingElse(s, e, n, p);
        NothingElse(s1, e, n, p);
      }
    }
  }

  lemma NothingElse(s: Cluster, e: Event, n: Node, p: PortId)
    requires e.Act? || e.EdgeIn?
    ensures !Arrives(s, e, n, p) && !FindsItFull(s, e, n, p) && !FindsNobody(s, e, n) && TrunkLosses(s, e, n) == 0
  {
    hide Enabled;
  }

  lemma ActCounts(s: Cluster, vid: Vid)
    requires WellFormed(s) && Enabled(s, Act(vid))
    ensures AllCount(s, Act(vid), DoAct(s, vid))
  {
    hide Execute, PushOut, Send, AllCount;
    var v, q, s1 := s.verdicts[vid], s.pending[vid], s.(pending := s.pending - {vid});
    if q.rf.None? {
      if v.verb.Drop? || q.rp.None? {
        ExecuteCounts(s1, Act(vid), GATEWAY, vid, v.verb, v.port, v.fid);
      } else {
        PushOutCounts(s1, Act(vid), GATEWAY, vid, v.verb.Deliver?, v.fid, q.rp.value.addr, q.rp.value.remoteID);
      }
      CountsFrom(s, s1, Act(vid), DoAct(s, vid));
    } else {
      SendCounts(s, vid);
    }
  }

  lemma SendCounts(s: Cluster, vid: Vid)
    requires WellFormed(s) && Enabled(s, Act(vid)) && s.pending[vid].rf.Some?
    ensures AllCount(s, Act(vid), DoAct(s, vid))
  {
    hide DoAct, AllCount;
    OnlyMail(s, vid);
    NoneCount(s, Act(vid), DoAct(s, vid));
  }

  lemma EdgeInCounts(s: Cluster, vid: Vid)
    requires WellFormed(s) && Enabled(s, EdgeIn(vid))
    ensures AllCount(s, EdgeIn(vid), DoEdgeIn(s, vid))
  {
    hide Execute, PushOut, AllCount;
    var n, s1 := s.connNode[s.net[vid].conn], s.(net := s.net - {vid});
    match s.net[vid] {
      case Instruct(_, verb, p, fid) => ExecuteCounts(s1, EdgeIn(vid), n, vid, verb, p, fid);
      case SendRemote(_, consume, fid, dst, addr) => PushOutCounts(s1, EdgeIn(vid), n, vid, consume, fid, addr, dst);
    }
    CountsFrom(s, s1, EdgeIn(vid), DoEdgeIn(s, vid));
  }

  lemma PeerInCounts(s: Cluster, vid: Vid)
    requires WellFormed(s) && Enabled(s, PeerIn(vid))
    ensures AllCount(s, PeerIn(vid), DoPeerIn(s, vid))
  {
    hide PeerWrite, AllCount, Quiet, OneOut;
    var k, t := s.net[vid], DoPeerIn(s, vid);
    var n, l := k.addr.value, s.lofts[k.addr.value];
    PeerWriteCounts(l, k.port, k.data);
    if PeerAccepts(l, k.port, k.data) {
      WrittenCounts(s, PeerIn(vid), t, n, PeerWrite(l, k.port, k.data), k.port, vid, k.data);
    } else {
      QuietItself(l);
      OneQuiet(s, PeerIn(vid), t, n, l);
    }
  }

  /** Every event moves every counter of every loft by just what it is there to count. */
  lemma StepCounts(s: Cluster, e: Event)
    requires Inv(s) && WellFormed(s) && Enabled(s, e)
    ensures AllCount(s, e, Step(s, e))
  {
    hide Inv, WellFormed, AllCount, DoPortUp, DoFrameIn, DoTokenIn, DoTrunkLost, DoVerdictIn, DoAct, DoEdgeIn, DoPeerIn, DoPeerFailed;
    if AtOneLoft(e) {
      LoftStepCounts(s, e);
    } else if OnATrunk(e) {
      if e.TokenIn? { TokenInCounts(s, e.origin); } else if e.TrunkLost? { TrunkLostCounts(s, e.conn); } else { TrunkUncounted(s, e); }
    } else {
      VerdictStepCounts(s, e);
    }
  }

  lemma LoftStepCounts(s: Cluster, e: Event)
    requires Inv(s) && WellFormed(s) && Enabled(s, e) && AtOneLoft(e)
    ensures AllCount(s, e, LoftEvent(s, e))
  {
    hide Inv, WellFormed, AllCount, DoPortUp, DoFrameIn;
    if e.PortUp? {
      FreshPort(s, e.node);
      PortUpCounts(s, e.node);
    } else if e.FrameIn? {
      FrameInCounts(s, e.node, e.port, e.data, e.conn);
    } else {
      LoftUncounted(s, e);
    }
  }

  lemma VerdictStepCounts(s: Cluster, e: Event)
    requires WellFormed(s) && Enabled(s, e) && OfAVerdict(e)
    ensures AllCount(s, e, VerdictEvent(s, e))
  {
    hide WellFormed, AllCount, DoVerdictIn, DoAct, DoEdgeIn, DoPeerIn, DoPeerFailed, ForgetRemote, Quiet;
    match e
    case VerdictIn(v) => VerdictInCounts(s, v);
    case Act(v) => ActCounts(s, v);
    case EdgeIn(v) => EdgeInCounts(s, v);
    case PeerIn(v) => PeerInCounts(s, v);
    case PeerFailed(v) => PeerFailedCounts(s, v);
    case Forget(f) => ForgetCounts(s, f);
    case Lost(_) => NoneCount(s, e, VerdictEvent(s, e));
  }

  lemma ForgetCounts(s: Cluster, f: Fid)
    requires WellFormed(s)
    ensures AllCount(s, Forget(f), DoForget(s, f))
  {
    hide AllCount, Quiet, ForgetRemote;
    QuietWork(Gw(s), 0, f, false, 0, 0);
    OneQuiet(s, Forget(f), DoForget(s, f), GATEWAY, ForgetRemote(Gw(s), f));
  }

  lemma FreshPort(s: Cluster, n: Node)
    requires Inv(s) && n in s.lofts
    ensures s.lofts[n].nextID !in s.lofts[n].stats
  {
    hide RolesOk, ConnsOk, PortMapsInverse, RegFramesOk, RegPortsOk, PortIdsOk, KnownOk, IdsOk, TokensOk, TokensUnannounced, DoomedOk, InFlightOk, WritesOk, Linear, Accounted, BornWell, CountersExact, Unexpired;
    assert LoftInv(s.lofts[n]);
  }

  lemma DisabledCounts(s: Cluster, e: Event)
    requires !Enabled(s, e)
    ensures AllCount(s, e, s)
  {
    hide Enabled;
  }

  // ---- over runs ---------------------------------------------------------------------------------------

  /** Frames come in on the port in the first `k` events, their bytes, and how many of
    * them found the buffer full. */
  ghost function CameIn(run: seq<Cluster>, events: seq<Event>, k: nat, n: Node, p: PortId): nat
    requires k <= |events| <= |run|
  {
    if k == 0 then 0 else CameIn(run, events, k - 1, n, p) + if Arrives(run[k - 1], events[k - 1], n, p) then 1 else 0
  }

  ghost function BytesIn(run: seq<Cluster>, events: seq<Event>, k: nat, n: Node, p: PortId): nat
    requires k <= |events| <= |run|
  {
    if k == 0 then 0 else BytesIn(run, events, k - 1, n, p) + if Arrives(run[k - 1], events[k - 1], n, p) then |events[k - 1].data| else 0
  }

  ghost function FoundFull(run: seq<Cluster>, events: seq<Event>, k: nat, n: Node, p: PortId): nat
    requires k <= |events| <= |run|
  {
    if k == 0 then 0 else FoundFull(run, events, k - 1, n, p) + if FindsItFull(run[k - 1], events[k - 1], n, p) then 1 else 0
  }

  /** How often nobody was there to decide, and what was lost with trunks and pushes. */
  ghost function FoundNobody(run: seq<Cluster>, events: seq<Event>, k: nat, n: Node): nat
    requires k <= |events| <= |run|
  {
    if k == 0 then 0 else FoundNobody(run, events, k - 1, n) + if FindsNobody(run[k - 1], events[k - 1], n) then 1 else 0
  }

  ghost function LostOnTrunks(run: seq<Cluster>, events: seq<Event>, k: nat, n: Node): nat
    requires k <= |events| <= |run|
  {
    if k == 0 then 0 else LostOnTrunks(run, events, k - 1, n) + TrunkLosses(run[k - 1], events[k - 1], n)
  }

  ghost predicate PortTells(run: seq<Cluster>, events: seq<Event>, k: nat, n: Node, p: PortId)
    requires k <= |events| <= |run| && k < |run| && n in run[k].lofts
  {
    var c := if p in run[k].lofts[n].stats then run[k].lofts[n].stats[p] else NO_STATS;
    && c.rxFrames == CameIn(run, events, k, n, p) && c.rxBytes == BytesIn(run, events, k, n, p)
    && c.overflow == FoundFull(run, events, k, n, p)
    && c.txFrames == Sent(run[k].writes, n, p) && c.txBytes == SentBytes(run[k].writes, n, p)
  }

  ghost predicate LoftTells(run: seq<Cluster>, events: seq<Event>, k: nat, n: Node)
    requires k <= |events| <= |run| && k < |run| && n in run[k].lofts
  {
    && run[k].lofts[n].noGame == FoundNobody(run, events, k, n)
    && run[k].lofts[n].dropTrunk == LostOnTrunks(run, events, k, n)
    && forall p :: PortTells(run, events, k, n, p)
  }

  lemma StartTells(run: seq<Cluster>, events: seq<Event>, n: Node)
    requires IsRun(run, events) && n in run[0].lofts
    ensures LoftTells(run, events, 0, n)
  {
    hide Moves;
  }

  lemma TellsOn(run: seq<Cluster>, events: seq<Event>, k: nat, j: nat, n: Node)
    requires k < |events| < |run| && j == k + 1 && n in run[k].lofts && n in run[j].lofts
    requires LoftTells(run, events, k, n) && LoftCounts(run[k], events[k], run[j], n)
    ensures LoftTells(run, events, j, n)
  {
    hide Sent, SentBytes, FindsNobody, TrunkLosses, SomeoneListens;
    var s, e, t := run[k], events[k], run[j];
    forall p
      ensures PortTells(run, events, j, n, p)
    {
      assert PortTells(run, events, k, n, p);
      if p in t.lofts[n].stats { assert PortCounts(s, e, t, n, p); } else { assert SameSent(s, t, n, p); }
      assert Arrives(s, e, n, p) ==> p in s.lofts[n].stats;
    }
  }

  /** At every point of every run, every counter of every loft is the number of what it is
    * named for: frames and bytes in, frames shed at a full buffer, frames and bytes written
    * out, frames nobody was there for, and losses on trunks. */
  lemma {:induction false} EveryCounterTells(run: seq<Cluster>, events: seq<Event>, k: nat, n: Node)
    requires IsRun(run, events) && |run| == |events| + 1 && k <= |events| && n in run[k].lofts
    ensures LoftTells(run, events, k, n)
    decreases k
  {
    hide Inv, WellFormed, IdsLeft, Step, LoftTells, LoftCounts;
    if k == 0 {
      StartTells(run, events, n);
    } else {
      RunInv(run, events, k - 1);
      var s, e := run[k - 1], events[k - 1];
      assert Moves(s, e, run[k]);
      assert AllCount(s, e, run[k]) by { AnyStepCounts(s, e); }
      EveryCounterTells(run, events, k - 1, n);
      TellsOn(run, events, k - 1, k, n);
    }
  }

  lemma AnyStepCounts(s: Cluster, e: Event)
    requires Inv(s) && WellFormed(s)
    ensures AllCount(s, e, Step(s, e))
  {
    hide Inv, WellFormed, AllCount, LoftEvent, TrunkEvent, VerdictEvent;
    if Enabled(s, e) { StepCounts(s, e); } else { DisabledCounts(s, e); }
  }

  // ---- what a sweep takes -------------------------------------------------------------------------------

  /** Housekeeping lets go of the frames that came in more than thirty seconds ago, and at
    * the gateway of the remote ids heard more than thirty-five ago, and of nothing else. */
  lemma SweepTakesTheOld(s: Cluster, n: Node, f: Fid)
    requires WellFormed(s) && n in s.lofts
    ensures var t, a := Step(s, Housekeeping(n)), s.lofts[n];
            && n in t.lofts
            && (f in t.lofts[n].frames <==> f in a.frames && s.now - a.frames[f].added <= 30_000_000_000)
            && (f in t.lofts[n].frames ==> t.lofts[n].frames[f] == a.frames[f])
            && (f in t.lofts[n].reg.frames <==> f in a.reg.frames && s.now - a.reg.frames[f].added <= 35_000_000_000)
            && (f in a.frames && f !in t.lofts[n].frames ==>
                  f in t.lofts[n].hist.fate && t.lofts[n].hist.fate[f] == Expired(a.frames[f].port in a.byID))
  {
    hide SweepStats;
    assert Step(s, Housekeeping(n)) == WithLoft(s, n, Sweep(s.lofts[n], s.now));
  }
}
