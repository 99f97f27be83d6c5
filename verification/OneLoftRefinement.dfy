/** Every event of the flock is a few moves, or none, of the one big loft. */
module OneLoftRefinement {
  import opened Basics
  import opened LoftCore
  import opened LoftConservation
  import opened Cluster
  import opened ClusterSafety
  import opened ClusterEdits
  import opened ClusterInvariant
  import opened ClusterTrunk
  import opened ClusterVerdicts
  import opened ClusterRuns
  import opened OneLoft

  // ---- playing labels -----------------------------------------------------------------------

  lemma PlaysOne(b: Big, l: Label)
    requires May(b, l)
    ensures Plays(b, [l], Do(b, l))
  {
    assert [l][1..] == [];
    assert Plays(Do(b, l), [], Do(b, l));
  }

  lemma PlaysTwo(b: Big, l: Label, m: Label)
    requires May(b, l) && May(Do(b, l), m)
    ensures Plays(b, [l, m], Do(Do(b, l), m))
  {
    hide May, Do;
    PlaysOne(Do(b, l), m);
    assert [l, m][1..] == [m];
  }

  lemma {:induction false} PlaysThen(b: Big, labels: seq<Label>, c: Big, more: seq<Label>, d: Big)
    requires Plays(b, labels, c) && Plays(c, more, d)
    ensures Plays(b, labels + more, d)
    decreases |labels|
  {
    hide May, Do;
    if labels == [] {
      assert labels + more == more;
    } else {
      PlaysThen(Do(b, labels[0]), labels[1..], c, more, d);
      assert (labels + more)[1..] == labels[1..] + more;
    }
  }

  // ---- the abstraction, part by part -----------------------------------------------------------

  lemma KnownSame(a: Lofts, b: Lofts, portOf: map<PortId, Phys>, known: map<Fid, Announced>)
    requires LoftsGrow(a, b) && KnownOk(a, portOf, known)
    ensures BigKnown(b, known) == BigKnown(a, known)
  {
    hide LoftsGrow, FrameAt;
    forall f | f in known
      ensures IsBorn(a, known[f].origin) && IsBorn(b, known[f].origin)
      ensures FrameAt(b, known[f].origin) == FrameAt(a, known[f].origin)
    {
      assert AnnouncedOk(a, portOf, f, known[f]);
      BornMono(a, b, known[f].origin);
    }
  }

  lemma LiveLess(lofts: Lofts, n: Node, m: Loft, known: map<Fid, Announced>, gone: set<Fid>)
    requires n in lofts && m.frames.Keys == lofts[n].frames.Keys - gone
    ensures BigLive(lofts[n := m], known) == BigLive(lofts, known) - IdsAt(known, n, gone)
  {
    forall f | f in known
      ensures Held(lofts[n := m], known[f].origin) <==> Held(lofts, known[f].origin) && !(known[f].origin.node == n && known[f].origin.fid in gone)
    {
      var o := known[f].origin;
      if o.node == n { assert o.fid in m.frames <==> o.fid in m.frames.Keys; }
    }
  }

  lemma LiveSame(lofts: Lofts, n: Node, m: Loft, known: map<Fid, Announced>)
    requires n in lofts && m.frames.Keys == lofts[n].frames.Keys
    ensures BigLive(lofts[n := m], known) == BigLive(lofts, known)
  {
    LiveLess(lofts, n, m, known, {});
    assert IdsAt(known, n, {}) == {};
  }

  lemma IdsOne(known: map<Fid, Announced>, own: map<Fid, BufFrame>, next: nat, f: Fid, n: Node, fid: Fid)
    requires IdsOk(known, own, next) && f in known && known[f].origin == Origin(n, fid)
    ensures IdsAt(known, n, {fid}) == {f}
  {
  }

  lemma IdsNone(known: map<Fid, Announced>, n: Node, fid: Fid)
    requires Unannounced(known, Origin(n, fid))
    ensures IdsAt(known, n, {fid}) == {}
  {
  }

  lemma UpSame(lofts: Lofts, n: Node, m: Loft)
    requires n in lofts && m.byID == lofts[n].byID
    ensures BigUp(lofts[n := m]) == BigUp(lofts)
  {
  }

  lemma UpHas(lofts: Lofts, n: Node, p: PortId)
    requires n in lofts
    ensures Phys(n, p) in BigUp(lofts) <==> p in lofts[n].byID
  {
  }

  lemma UpChanges(lofts: Lofts, n: Node, m: Loft, p: PortId)
    requires n in lofts
    ensures m.byID == lofts[n].byID + {p} ==> BigUp(lofts[n := m]) == BigUp(lofts) + {Phys(n, p)}
    ensures m.byID == lofts[n].byID - {p} ==> BigUp(lofts[n := m]) == BigUp(lofts) - {Phys(n, p)}
  {
  }

  lemma AskedInjected(verdicts: map<Vid, Verdict>, pending: map<Vid, Pending>, net: map<Vid, Packet>, v: Vid, k: Packet)
    requires v in verdicts && k.Inject? && v !in pending
    ensures BigAsked(verdicts, pending, net[v := k]) == BigAsked(verdicts, pending, net) - {v}
    ensures BigOutbox(verdicts, net[v := k]) == BigOutbox(verdicts, net)[v := Emission(verdicts[v].port, verdicts[v].fid, k.data)]
  {
  }

  lemma OutMore(writes: seq<Write>, x: Write)
    ensures BigOut(writes + [x]) == BigOut(writes) + [Emitted(x.cause, Phys(x.node, x.port), x.data)]
  {
  }

  // ---- stuttering ---------------------------------------------------------------------------------

  /** One loft changes without any frame entering or leaving its buffer. */
  lemma QuietLoft(s: Cluster, n: Node, m: Loft)
    requires KnownOk(s.lofts, s.portOf, s.known) && n in s.lofts
    requires m.frames.Keys == s.lofts[n].frames.Keys && LoftsGrow(s.lofts, s.lofts[n := m])
    ensures Abs(WithLoft(s, n, m)) == Abs(s).(up := BigUp(s.lofts[n := m]))
    ensures m.byID == s.lofts[n].byID ==> Abs(WithLoft(s, n, m)) == Abs(s)
  {
    hide LoftsGrow, KnownOk, BigKnown, BigLive, BigUp, BigAsked, BigOutbox, BigOut;
    if m.byID == s.lofts[n].byID { UpSame(s.lofts, n, m); }
    KnownSame(s.lofts, s.lofts[n := m], s.portOf, s.known);
    LiveSame(s.lofts, n, m, s.known);
  }

  ghost predicate Simulates(s: Cluster, e: Event)
    requires WellFormed(s)
  {
    Plays(Abs(s), Labels(s, e), Abs(Step(s, e)))
  }

  /** The loft that changed is the only one that grew. */
  lemma KeptGrows(s: Cluster, t: Cluster)
    requires Kept(s, t)
    ensures LoftsGrow(s.lofts, t.lofts)
  {
    hide Inv, LoftsGrow, Extends;
  }

  lemma KnownInside(s: Cluster)
    requires Inv(s)
    ensures GATEWAY in s.lofts && KnownOk(s.lofts, s.portOf, s.known) && IdsOk(s.known, Gw(s).hist.born, Gw(s).nextFID)
    ensures LoftsOk(s.lofts)
  {
    GatewayInside(s);
    hide LoftsOk, RolesOk, ConnsOk, PortMapsInverse, RegFramesOk, RegPortsOk, PortIdsOk, KnownOk, IdsOk, TokensOk, TokensUnannounced, DoomedOk, InFlightOk, WritesOk, Linear;
  }

  lemma QuietPlays(s: Cluster, e: Event, n: Node, m: Loft)
    requires Inv(s) && WellFormed(s) && IdsLeft(s) && n in s.lofts && m.frames.Keys == s.lofts[n].frames.Keys && m.byID == s.lofts[n].byID
    requires Step(s, e).lofts == s.lofts[n := m] && Step(s, e) == WithLoft(s, n, m).(connNode := Step(s, e).connNode, forget := Step(s, e).forget)
    requires Labels(s, e) == []
    ensures Simulates(s, e)
  {
    hide Inv, Step, Labels, FactsGrow, BigKnown, BigLive, BigUp, BigAsked, BigOutbox, BigOut, LoftsGrow, KnownOk, IdsOk, LoftsOk, WellFormed, IdsLeft;
    StepKeeps(s, e);
    KeptGrows(s, Step(s, e));
    KnownInside(s);
    QuietLoft(s, n, m);
  }

  lemma LocalPlays(s: Cluster, e: Event)
    requires Inv(s) && WellFormed(s) && IdsLeft(s) && Enabled(s, e)
    requires e.PortDown? || e.Attach? || e.TrunkUp? || e.Dial? || e.HelloIn?
    ensures Simulates(s, e)
  {
    hide Inv, FactsGrow, BigKnown, BigLive, BigUp, BigAsked, BigOutbox, BigOut, LoftsGrow, WellFormed, IdsLeft, Simulates;
    match e
    case PortDown(n, p) => PortDownPlays(s, n, p);
    case Attach(b) => QuietPlays(s, e, GATEWAY, Gw(s).(router := b));
    case TrunkUp(n, b) => QuietPlays(s, e, n, s.lofts[n].(trunk := b));
    case Dial(c, n) => QuietPlays(s, e, GATEWAY, OpenTrunk(Gw(s), c));
    case HelloIn(c) => QuietPlays(s, e, GATEWAY, Hello(Gw(s), c, s.connNode[c]));
    case _ =>
  }

  lemma RegistryPlays(s: Cluster, e: Event)
    requires Inv(s) && WellFormed(s) && IdsLeft(s) && Enabled(s, e)
    requires e.PortRemoved? || e.TrunkLost? || e.Forget?
    ensures Simulates(s, e)
  {
    hide Inv, FactsGrow, BigKnown, BigLive, BigUp, BigAsked, BigOutbox, BigOut, LoftsGrow, WellFormed, IdsLeft, Simulates;
    match e
    case PortRemoved(c, r) => QuietPlays(s, e, GATEWAY, UnregisterRemotePort(Gw(s), c, r));
    case TrunkLost(c) => QuietPlays(s, e, GATEWAY, EdgeGone(Gw(s), c));
    case Forget(f) => QuietPlays(s, e, GATEWAY, ForgetRemote(Gw(s), f));
    case _ =>
  }

  // ---- ports, frames, tokens ----------------------------------------------------------------------

  lemma PortIdFresh(s: Cluster)
    requires Inv(s)
    ensures Gw(s).nextID !in s.portOf
  {
    hide LoftsOk, RolesOk, ConnsOk, PortMapsInverse, RegFramesOk, RegPortsOk, KnownOk, IdsOk, TokensOk, TokensUnannounced, DoomedOk, InFlightOk, WritesOk, Linear;
  }

  lemma NamedPortPlays(s: Cluster, e: Event, n: Node, m: Loft, x: Phys)
    requires Inv(s) && WellFormed(s) && IdsLeft(s) && n in s.lofts && m.frames.Keys == s.lofts[n].frames.Keys && m.byID == s.lofts[n].byID
    requires GATEWAY in s.lofts && Step(s, e) == WithLoft(s, n, m).(portOf := s.portOf[Gw(s).nextID := x])
    requires Labels(s, e) == [NewPort(Gw(s).nextID, x)]
    ensures Simulates(s, e)
  {
    hide Inv, Step, Labels, FactsGrow, BigKnown, BigLive, BigAsked, BigOutbox, BigOut, BigUp, LoftsGrow, KnownOk, IdsOk, LoftsOk, WellFormed, IdsLeft, Plays;
    StepKeeps(s, e);
    KeptGrows(s, Step(s, e));
    KnownInside(s);
    PortIdFresh(s);
    QuietLoft(s, n, m);
    PlaysOne(Abs(s), NewPort(Gw(s).nextID, x));
  }

  lemma NewIdNotUp(s: Cluster, n: Node)
    requires Inv(s) && n in s.lofts
    ensures Phys(n, s.lofts[n].nextID) !in BigUp(s.lofts)
  {
    hide RolesOk, ConnsOk, PortMapsInverse, RegFramesOk, RegPortsOk, PortIdsOk, KnownOk, IdsOk, TokensOk, TokensUnannounced, DoomedOk, InFlightOk, WritesOk, Linear, Accounted, BornWell, CountersExact, Unexpired;
    assert LoftInv(s.lofts[n]);
    UpHas(s.lofts, n, s.lofts[n].nextID);
  }

  lemma PortUpPlays(s: Cluster, n: Node)
    requires Inv(s) && WellFormed(s) && IdsLeft(s) && Enabled(s, PortUp(n))
    ensures Simulates(s, PortUp(n))
  {
    hide Inv, FactsGrow, Abs, BigUp, LoftsGrow, KnownOk, IdsOk, LoftsOk, WellFormed, IdsLeft, Plays, AddPort;
    var l := s.lofts[n];
    var m, at := AddPort(l), Phys(n, l.nextID);
    StepKeeps(s, PortUp(n));
    KeptGrows(s, Step(s, PortUp(n)));
    KnownInside(s);
    AddPortParts(l);
    QuietLoft(s, n, m);
    UpChanges(s.lofts, n, m, l.nextID);
    NewIdNotUp(s, n);
    if n == GATEWAY {
      PortIdFresh(s);
      Named(s, n, m, l.nextID, at);
      OpenNamed(Abs(s), l.nextID, at);
    } else {
      UpOf(s);
      PlaysOne(Abs(s), Opens(at));
    }
  }

  lemma AddPortParts(l: Loft)
    ensures AddPort(l).frames == l.frames && AddPort(l).byID == l.byID + {l.nextID}
  {
  }

  lemma UpOf(s: Cluster)
    ensures Abs(s).up == BigUp(s.lofts) && Abs(s).ports == s.portOf
  {
  }

  lemma Named(s: Cluster, n: Node, m: Loft, p: PortId, at: Phys)
    ensures Abs(WithLoft(s, n, m).(portOf := s.portOf[p := at])) == Abs(WithLoft(s, n, m)).(ports := s.portOf[p := at])
    ensures Abs(s).up == BigUp(s.lofts) && Abs(s).ports == s.portOf
  {
    hide BigKnown, BigLive, BigUp, BigAsked, BigOutbox, BigOut;
  }

  lemma OpenNamed(b: Big, p: PortId, at: Phys)
    requires p !in b.ports && at !in b.up
    ensures Plays(b, [NewPort(p, at), Opens(at)], b.(ports := b.ports[p := at], up := b.up + {at}))
  {
    hide Plays;
    PlaysTwo(b, NewPort(p, at), Opens(at));
  }

  lemma PortDownPlays(s: Cluster, n: Node, p: PortId)
    requires Inv(s) && WellFormed(s) && IdsLeft(s) && Enabled(s, PortDown(n, p))
    ensures Simulates(s, PortDown(n, p))
  {
    hide Inv, FactsGrow, BigKnown, BigLive, BigAsked, BigOutbox, BigOut, BigUp, LoftsGrow, KnownOk, IdsOk, LoftsOk, WellFormed, IdsLeft, Plays;
    var m := RemovePort(s.lofts[n], p);
    StepKeeps(s, PortDown(n, p));
    KeptGrows(s, Step(s, PortDown(n, p)));
    KnownInside(s);
    QuietLoft(s, n, m);
    UpChanges(s.lofts, n, m, p);
    UpHas(s.lofts, n, p);
    if p in s.lofts[n].byID {
      PlaysOne(Abs(s), Closes(Phys(n, p)));
    } else {
      PlaysNone(Abs(s));
    }
  }

  lemma PortPlays(s: Cluster, e: Event)
    requires Inv(s) && WellFormed(s) && IdsLeft(s) && Enabled(s, e) && (e.PortUp? || e.PortAdded?)
    ensures Simulates(s, e)
  {
    hide Inv, FactsGrow, BigKnown, BigLive, BigUp, BigAsked, BigOutbox, BigOut, LoftsGrow, WellFormed, IdsLeft, Simulates;
    match e
    case PortUp(n) => PortUpPlays(s, n);
    case PortAdded(c, r) =>
      if r in Gw(s).reg.conns[c].portMap {
        QuietPlays(s, e, GATEWAY, RegisterRemotePort(Gw(s), c, r));
      } else {
        NamedPortPlays(s, e, GATEWAY, RegisterRemotePort(Gw(s), c, r), Phys(s.connNode[c], r));
      }
    case _ =>
  }

  lemma KnownMore(lofts: Lofts, known: map<Fid, Announced>, f: Fid, a: Announced)
    requires IsBorn(lofts, a.origin)
    ensures BigKnown(lofts, known[f := a]) == BigKnown(lofts, known)[f := Arrival(a.token.port, FrameAt(lofts, a.origin).data)]
  {
  }

  lemma KnownKeys(lofts: Lofts, known: map<Fid, Announced>)
    ensures BigKnown(lofts, known).Keys == known.Keys && BigLive(lofts, known) <= known.Keys
  {
  }

  lemma LiveMore(lofts: Lofts, known: map<Fid, Announced>, f: Fid, a: Announced)
    requires f !in known
    ensures BigLive(lofts, known[f := a]) == BigLive(lofts, known) + if Held(lofts, a.origin) then {f} else {}
  {
  }

  /** A frame joins a buffer before anyone has heard of it. */
  lemma LiveUnheard(lofts: Lofts, n: Node, m: Loft, known: map<Fid, Announced>, fid: Fid)
    requires n in lofts && m.frames.Keys == lofts[n].frames.Keys + {fid} && Unannounced(known, Origin(n, fid))
    ensures BigLive(lofts[n := m], known) == BigLive(lofts, known)
  {
    forall f | f in known
      ensures Held(lofts[n := m], known[f].origin) <==> Held(lofts, known[f].origin)
    {
      var o := known[f].origin;
      if o.node == n { assert o.fid in m.frames <==> o.fid in m.frames.Keys; }
    }
  }

  lemma AcceptedFrames(l: Loft, p: PortId, data: Payload, now: Time)
    requires p in l.stats && IngestOutcome(l, p, data).Accepted?
    ensures var m := Ingest(l, p, data, now);
            m.frames.Keys == l.frames.Keys + {l.nextFID} && m.byID == l.byID
            && l.nextFID in m.hist.born && m.hist.born[l.nextFID].data == data
  {
  }

  lemma UnheardFid(s: Cluster, n: Node)
    requires Inv(s) && n in s.lofts
    ensures Unannounced(s.known, Origin(n, s.lofts[n].nextFID))
    ensures n == GATEWAY ==> s.lofts[n].nextFID !in s.known
  {
    hide RolesOk, ConnsOk, PortMapsInverse, RegFramesOk, RegPortsOk, PortIdsOk, TokensOk, TokensUnannounced, DoomedOk, InFlightOk, WritesOk, Linear;
    LoftInside(s, n);
    assert s.lofts[n].nextFID !in s.lofts[n].hist.born;
    forall f | f in s.known
      ensures s.known[f].origin != Origin(n, s.lofts[n].nextFID)
    {
      assert AnnouncedOk(s.lofts, s.portOf, f, s.known[f]);
    }
  }

  lemma FrameInPlays(s: Cluster, e: Event)
    requires Inv(s) && WellFormed(s) && IdsLeft(s) && Enabled(s, e) && e.FrameIn?
    ensures Simulates(s, e)
  {
    hide Inv, FactsGrow, BigKnown, BigLive, BigUp, BigAsked, BigOutbox, BigOut, LoftsGrow, IdsLeft, Simulates;
    var l := s.lofts[e.node];
    if !IngestOutcome(l, e.port, e.data).Accepted? {
      assert Ingest(l, e.port, e.data, s.now).frames == l.frames && Ingest(l, e.port, e.data, s.now).byID == l.byID;
      QuietPlays(s, e, e.node, Ingest(l, e.port, e.data, s.now));
    } else {
      AcceptedPlays(s, e);
    }
  }

  function KnownAfter(s: Cluster, n: Node, p: PortId, data: Payload): map<Fid, Announced>
    requires n in s.lofts
  {
    var fid := s.lofts[n].nextFID;
    if n == GATEWAY then s.known[fid := Announced(Origin(n, fid), BuildToken(p, fid, data), s.now)] else s.known
  }

  lemma AcceptedQuiet(s: Cluster, n: Node, p: PortId, data: Payload, c: ConnId)
    requires n in s.lofts && p in s.lofts[n].stats && IngestOutcome(s.lofts[n], p, data).Accepted?
    ensures var t := DoFrameIn(s, n, p, data, c);
            t == WithLoft(s, n, Ingest(s.lofts[n], p, data, s.now)).(known := KnownAfter(s, n, p, data), tokens := t.tokens)
  {
    hide Ingest;
  }

  lemma AcceptedPlays(s: Cluster, e: Event)
    requires Inv(s) && WellFormed(s) && IdsLeft(s) && Enabled(s, e) && e.FrameIn?
    requires IngestOutcome(s.lofts[e.node], e.port, e.data).Accepted?
    ensures Simulates(s, e)
  {
    hide Inv, FactsGrow, BigKnown, BigLive, BigUp, BigAsked, BigOutbox, BigOut, LoftsGrow, IdsLeft, Plays, KnownOk, IdsOk, LoftsOk, DoFrameIn, Unannounced, Ingest;
    var n, l := e.node, s.lofts[e.node];
    var t := Step(s, e);
    AcceptedQuiet(s, n, e.port, e.data, e.conn);
    AcceptedFrames(l, e.port, e.data, s.now);
    StepKeeps(s, e);
    KeptGrows(s, t);
    KnownInside(s);
    UnheardFid(s, n);
    KnownSame(s.lofts, t.lofts, s.portOf, s.known);
    LiveUnheard(s.lofts, n, t.lofts[n], s.known, l.nextFID);
    UpSame(s.lofts, n, t.lofts[n]);
    if n == GATEWAY {
      KnownMore(t.lofts, s.known, l.nextFID, t.known[l.nextFID]);
      LiveMore(t.lofts, s.known, l.nextFID, t.known[l.nextFID]);
      KnownKeys(s.lofts, s.known);
      PlaysOne(Abs(s), Announce(l.nextFID, Arrival(e.port, e.data)));
    } else {
      PlaysNone(Abs(s));
    }
  }

  lemma PlaysNone(b: Big)
    ensures Plays(b, [], b)
  {
  }

  function Admitted(s: Cluster, o: Origin): Loft
    requires GATEWAY in s.lofts && o in s.tokens && s.tokens[o].conn in Gw(s).reg.conns
  {
    AdmitToken(Gw(s), s.tokens[o].conn, s.tokens[o].token, s.now)
  }

  /** A token only ever moves the gateway's registry: the old tables stay. */
  lemma TokenTables(s: Cluster, o: Origin)
    requires GATEWAY in s.lofts && o in s.tokens && s.tokens[o].conn in Gw(s).reg.conns && BeforeWrap(Gw(s))
    requires Inv(s)
    ensures var b := s.lofts[GATEWAY := Admitted(s, o)];
            && LoftsGrow(s.lofts, b) && (Held(b, o) <==> Held(s.lofts, o))
            && BigKnown(b, s.known) == BigKnown(s.lofts, s.known) && BigLive(b, s.known) == BigLive(s.lofts, s.known)
            && BigUp(b) == BigUp(s.lofts)
  {
    hide Inv, FactsGrow, BigKnown, BigLive, BigUp, LoftsGrow, KnownOk, IdsOk, LoftsOk, DoTokenIn, AdmitToken, TokenPasses, RewriteToken, BeforeWrap;
    TokenInKeeps(s, o);
    KeptGrows(s, DoTokenIn(s, o));
    KnownInside(s);
    TokenQuiet(s, o);
    var m := Admitted(s, o);
    AdmitFrames(Gw(s), s.tokens[o].conn, s.tokens[o].token, s.now);
    KnownSame(s.lofts, s.lofts[GATEWAY := m], s.portOf, s.known);
    LiveSame(s.lofts, GATEWAY, m, s.known);
    UpSame(s.lofts, GATEWAY, m);
  }

  lemma HeardPlays(s: Cluster, o: Origin)
    requires GATEWAY in s.lofts && o in s.tokens && s.tokens[o].conn in Gw(s).reg.conns && BeforeWrap(Gw(s))
    requires TokenPasses(Gw(s), s.tokens[o].conn, s.tokens[o].token) && Inv(s)
    ensures Plays(Abs(s), TokenLabels(s, o), Abs(DoTokenIn(s, o)))
  {
    hide Inv, BigKnown, BigLive, BigUp, BigAsked, BigOutbox, BigOut, LoftsGrow, Plays, DoTokenIn, Admitted, AdmitToken, Held;
    TokenTables(s, o);
    TokenQuiet(s, o);
    HeardTables(s, o, s.lofts[GATEWAY := Admitted(s, o)]);
    KnownKeys(s.lofts, s.known);
    var a := Arrival(Gw(s).reg.conns[s.tokens[o].conn].portMap[s.tokens[o].token.port], FrameAt(s.lofts, o).data);
    if Held(s.lofts, o) {
      PlaysOne(Abs(s), Announce(Gw(s).nextFID, a));
    } else {
      assert BigLive(s.lofts, s.known) + {} == BigLive(s.lofts, s.known);
      AnnouncedLate(Abs(s), Gw(s).nextFID, a);
    }
  }

  lemma RefusedPlays(s: Cluster, o: Origin)
    requires GATEWAY in s.lofts && o in s.tokens && s.tokens[o].conn in Gw(s).reg.conns && BeforeWrap(Gw(s))
    requires !TokenPasses(Gw(s), s.tokens[o].conn, s.tokens[o].token) && Inv(s)
    ensures Plays(Abs(s), TokenLabels(s, o), Abs(DoTokenIn(s, o)))
  {
    hide Inv, BigKnown, BigLive, BigUp, BigAsked, BigOutbox, BigOut, LoftsGrow, Plays, DoTokenIn, Admitted, AdmitToken, TokenPasses, RewriteToken, Held;
    TokenTables(s, o);
    TokenQuiet(s, o);
    RefusedAsked(s, DoTokenIn(s, o), Instruct(s.tokens[o].conn, Drop, 0, s.tokens[o].token.fid));
    PlaysNone(Abs(s));
  }

  lemma TokenPlays(s: Cluster, o: Origin)
    requires Inv(s) && WellFormed(s) && IdsLeft(s) && Enabled(s, TokenIn(o))
    ensures Simulates(s, TokenIn(o))
  {
    hide Inv, BeforeWrap, Plays, WellFormed, Abs, TokenLabels, DoTokenIn, Labels, Step, TokenPasses;
    TokenStep(s, o);
    if TokenPasses(Gw(s), s.tokens[o].conn, s.tokens[o].token) { HeardPlays(s, o); } else { RefusedPlays(s, o); }
  }

  lemma AdmitFrames(g: Loft, c: ConnId, tok: Token, now: Time)
    requires c in g.reg.conns
    ensures AdmitToken(g, c, tok, now).frames == g.frames && AdmitToken(g, c, tok, now).byID == g.byID
  {
  }

  lemma TokenStep(s: Cluster, o: Origin)
    requires WellFormed(s) && Enabled(s, TokenIn(o))
    ensures Step(s, TokenIn(o)) == DoTokenIn(s, o) && Labels(s, TokenIn(o)) == TokenLabels(s, o)
  {
    hide WellFormed, DoTokenIn, TokenLabels;
  }

  /** The gateway after the token, and what the world hears of it. */
  lemma TokenQuiet(s: Cluster, o: Origin)
    requires GATEWAY in s.lofts && o in s.tokens && s.tokens[o].conn in Gw(s).reg.conns
    ensures var g, c, tok, t := Gw(s), s.tokens[o].conn, s.tokens[o].token, DoTokenIn(s, o);
            var s1 := WithLoft(s, GATEWAY, Admitted(s, o)).(tokens := s.tokens - {o});
            if TokenPasses(g, c, tok) then t == s1.(known := s.known[g.nextFID := Announced(o, RewriteToken(g, c, tok), s.now)])
            else t == s1.(net := s.net[s.nextVid := Instruct(c, Drop, 0, tok.fid)], nextVid := s.nextVid + 1)
  {
    hide AdmitToken, TokenPasses, RewriteToken;
  }

  lemma RefusedAsked(s: Cluster, t: Cluster, k: Packet)
    requires Inv(s)
    requires t.verdicts == s.verdicts && t.pending == s.pending && t.net == s.net[s.nextVid := k] && k.Instruct?
    ensures BigAsked(t.verdicts, t.pending, t.net) == BigAsked(s.verdicts, s.pending, s.net)
    ensures BigOutbox(t.verdicts, t.net) == BigOutbox(s.verdicts, s.net)
  {
    hide LoftsOk, RolesOk, ConnsOk, PortMapsInverse, RegFramesOk, RegPortsOk, PortIdsOk, KnownOk, IdsOk, TokensOk, TokensUnannounced, DoomedOk, InFlightOk, WritesOk;
    assert s.nextVid !in s.verdicts && s.nextVid !in s.net;
  }

  /** Announced after its edge already let it go. */
  lemma AnnouncedLate(b: Big, f: Fid, a: Arrival)
    requires f !in b.known && f !in b.live
    ensures Plays(b, [Announce(f, a), Expire({f})], b.(known := b.known[f := a]))
  {
    PlaysTwo(b, Announce(f, a), Expire({f}));
    assert b.live + {f} - {f} == b.live;
  }

  /** What the tables say once the token is announced. */
  lemma HeardTables(s: Cluster, o: Origin, b: Lofts)
    requires Inv(s) && o in s.tokens && s.tokens[o].conn in Gw(s).reg.conns && TokenPasses(Gw(s), s.tokens[o].conn, s.tokens[o].token)
    requires LoftsGrow(s.lofts, b) && (Held(b, o) <==> Held(s.lofts, o))
    ensures IsBorn(s.lofts, o) && Gw(s).nextFID !in s.known
    ensures var g := Gw(s);
            var a := Announced(o, RewriteToken(g, s.tokens[o].conn, s.tokens[o].token), s.now);
            && BigKnown(b, s.known[g.nextFID := a]) == BigKnown(b, s.known)[g.nextFID := Arrival(a.token.port, FrameAt(s.lofts, o).data)]
            && BigLive(b, s.known[g.nextFID := a]) == BigLive(b, s.known) + if Held(s.lofts, o) then {g.nextFID} else {}
  {
    hide LoftsOk, RolesOk, ConnsOk, PortMapsInverse, RegFramesOk, RegPortsOk, PortIdsOk, KnownOk, IdsOk, TokensOk, TokensUnannounced, DoomedOk, InFlightOk, WritesOk, Linear, LoftsGrow, BigKnown, BigLive, BigUp, Held, IsBorn, FrameAt, TokenPasses;
    GatewayInside(s);
    var g := Gw(s);
    var a := Announced(o, RewriteToken(g, s.tokens[o].conn, s.tokens[o].token), s.now);
    UnheardFid(s, GATEWAY);
    TokenInside(s, o);
    BornMono(s.lofts, b, o);
    KnownMore(b, s.known, g.nextFID, a);
    LiveMore(b, s.known, g.nextFID, a);
  }

  // ---- verdicts -------------------------------------------------------------------------------------

  lemma LinearInside(s: Cluster)
    requires Inv(s)
    ensures Linear(s)
  {
    hide LoftsOk, RolesOk, ConnsOk, PortMapsInverse, RegFramesOk, RegPortsOk, PortIdsOk, KnownOk, IdsOk, TokensOk, TokensUnannounced, DoomedOk, InFlightOk, WritesOk, Linear;
  }

  function LookedUp(s: Cluster, v: Verdict): Pending
    requires GATEWAY in s.lofts
  {
    Pending(LookupFrame(Gw(s), v.fid), if v.verb.Drop? then None else LookupPort(Gw(s), v.port))
  }

  function GatewayAfter(s: Cluster, v: Verdict): Loft
    requires GATEWAY in s.lofts
  {
    if v.verb.Drop? && v.fid in Gw(s).reg.frames then ForgetRemote(Gw(s), v.fid) else Gw(s)
  }

  lemma AskQuiet(s: Cluster, v: Verdict)
    requires GATEWAY in s.lofts
    ensures DoVerdictIn(s, v) == WithLoft(Issued(s, v, LookedUp(s, v)), GATEWAY, GatewayAfter(s, v))
  {
    assert s.lofts[GATEWAY := s.lofts[GATEWAY]] == s.lofts;
  }

  lemma AskPlays(s: Cluster, v: Verdict)
    requires Inv(s) && WellFormed(s) && IdsLeft(s)
    ensures Simulates(s, VerdictIn(v))
  {
    hide Inv, FactsGrow, BigKnown, BigLive, BigUp, BigAsked, BigOutbox, BigOut, LoftsGrow, IdsLeft, Plays, KnownOk, IdsOk, LoftsOk, DoVerdictIn, Linear, LookedUp;
    AskQuiet(s, v);
    StepKeeps(s, VerdictIn(v));
    KeptGrows(s, Step(s, VerdictIn(v)));
    KnownInside(s);
    var m := GatewayAfter(s, v);
    KnownSame(s.lofts, s.lofts[GATEWAY := m], s.portOf, s.known);
    LiveSame(s.lofts, GATEWAY, m, s.known);
    UpSame(s.lofts, GATEWAY, m);
    LinearInside(s);
    AskTables(s, v, LookedUp(s, v));
    PlaysOne(Abs(s), Ask(s.nextVid, v));
  }

  lemma AskTables(s: Cluster, v: Verdict, q: Pending)
    requires Linear(s)
    ensures s.nextVid !in BigAsked(s.verdicts, s.pending, s.net) && s.nextVid !in BigOutbox(s.verdicts, s.net)
    ensures BigAsked(s.verdicts[s.nextVid := v], s.pending[s.nextVid := q], s.net) == BigAsked(s.verdicts, s.pending, s.net)[s.nextVid := v]
    ensures BigOutbox(s.verdicts[s.nextVid := v], s.net) == BigOutbox(s.verdicts, s.net)
  {
    assert s.nextVid !in s.verdicts && s.nextVid !in s.net && s.nextVid !in s.pending;
  }

  /** `s1` is `s` with verdict or instruction `vid` taken in hand. */
  ghost predicate InHand(s: Cluster, s1: Cluster, vid: Vid) {
    && s1 == s.(pending := s.pending - {vid}, net := s.net - {vid})
    && (vid in s.pending || vid in s.net)
    && (vid in s.net ==> !s.net[vid].Inject?)
  }

  lemma HandTables(s: Cluster, s1: Cluster, vid: Vid)
    requires InHand(s, s1, vid)
    ensures BigAsked(s1.verdicts, s1.pending, s1.net) == BigAsked(s.verdicts, s.pending, s.net) - {vid}
    ensures BigOutbox(s1.verdicts, s1.net) == BigOutbox(s.verdicts, s.net)
    ensures vid !in BigOutbox(s.verdicts, s.net)
    ensures if vid in s.verdicts then vid in BigAsked(s.verdicts, s.pending, s.net) && BigAsked(s.verdicts, s.pending, s.net)[vid] == s.verdicts[vid]
            else vid !in BigAsked(s.verdicts, s.pending, s.net)
  {
  }

  /** Frame `fid` of loft `n` is the one verdict `vid` is about; or, for an
    * instruction no consumer asked for, one that nobody heard of. */
  ghost predicate Meant(s: Cluster, vid: Vid, n: Node, fid: Fid) {
    if vid in s.verdicts then
      s.verdicts[vid].fid in s.known && s.known[s.verdicts[vid].fid].origin == Origin(n, fid)
    else Unannounced(s.known, Origin(n, fid))
  }

  lemma MeantTables(s: Cluster, vid: Vid, n: Node, fid: Fid)
    requires GATEWAY in s.lofts && LoftsOk(s.lofts) && IdsOk(s.known, Gw(s).hist.born, Gw(s).nextFID)
    requires Meant(s, vid, n, fid) && n in s.lofts && fid in s.lofts[n].frames
    ensures IdsAt(s.known, n, {fid}) == if vid in s.verdicts then {s.verdicts[vid].fid} else {}
    ensures vid in s.verdicts ==>
              var f := s.verdicts[vid].fid;
              f in BigLive(s.lofts, s.known) && f in BigKnown(s.lofts, s.known) && BigKnown(s.lofts, s.known)[f].data == s.lofts[n].frames[fid].data
  {
    hide LoftsOk, IdsOk, Unannounced;
    LoftInside(s, n);
    BufferedIsBorn(s.lofts[n], fid);
    if vid in s.verdicts {
      IdsOne(s.known, Gw(s).hist.born, Gw(s).nextFID, s.verdicts[vid].fid, n, fid);
    } else {
      IdsNone(s.known, n, fid);
    }
  }

  /** Too late, or lost: the verdict goes and nothing else changes. */
  lemma IgnoredPlays(s: Cluster, s1: Cluster, vid: Vid)
    requires InHand(s, s1, vid)
    ensures Plays(Abs(s), if vid in s.verdicts then [Ignore(vid)] else [], Abs(s1))
  {
    hide BigKnown, BigLive, BigUp, BigOut, Plays, BigOutbox, BigAsked;
    HandTables(s, s1, vid);
    if vid in s.verdicts {
      PlaysOne(Abs(s), Ignore(vid));
    } else {
      assert BigAsked(s.verdicts, s.pending, s.net) - {vid} == BigAsked(s.verdicts, s.pending, s.net);
      PlaysNone(Abs(s));
    }
  }

  lemma SameLoft(s: Cluster, n: Node)
    requires n in s.lofts
    ensures WithLoft(s, n, s.lofts[n]) == s
  {
    assert s.lofts[n := s.lofts[n]] == s.lofts;
  }

  lemma LoftTables(s: Cluster, n: Node, m: Loft, gone: set<Fid>)
    requires KnownOk(s.lofts, s.portOf, s.known) && n in s.lofts && LoftsGrow(s.lofts, s.lofts[n := m])
    requires m.frames.Keys == s.lofts[n].frames.Keys - gone
    ensures BigKnown(s.lofts[n := m], s.known) == BigKnown(s.lofts, s.known)
    ensures BigLive(s.lofts[n := m], s.known) == BigLive(s.lofts, s.known) - IdsAt(s.known, n, gone)
    ensures m.byID == s.lofts[n].byID ==> BigUp(s.lofts[n := m]) == BigUp(s.lofts)
  {
    hide LoftsGrow, KnownOk, BigKnown, BigLive, BigUp, IdsAt;
    if m.byID == s.lofts[n].byID { UpSame(s.lofts, n, m); }
    KnownSame(s.lofts, s.lofts[n := m], s.portOf, s.known);
    LiveLess(s.lofts, n, m, s.known, gone);
  }

  lemma OneLoftGrows(s: Cluster, n: Node, m: Loft)
    requires n in s.lofts && Grows(s.lofts[n], m)
    ensures LoftsGrow(s.lofts, s.lofts[n := m])
  {
    forall k | k in s.lofts
      ensures Grows(s.lofts[k], s.lofts[n := m][k])
    {
      GrowsSelf(s.lofts[k]);
    }
    assert s.lofts[n := m].Keys == s.lofts.Keys;
  }

  lemma FramesAfter(l: Loft, p: PortId, fid: Fid, consume: bool, cause: Vid)
    requires l.byID <= l.stats.Keys
    ensures fid in l.frames ==> DropLocal(l, fid).frames.Keys == l.frames.Keys - {fid}
    ensures fid !in l.frames ==> DropLocal(l, fid) == l && Push(l, fid, consume, cause) == l
    ensures fid in l.frames ==> Push(l, fid, consume, cause).frames.Keys == l.frames.Keys - if consume then {fid} else {}
    ensures CanDeliver(l, p, fid) ==> DeliverLocal(l, p, fid, consume, cause).frames.Keys == l.frames.Keys - if consume then {fid} else {}
    ensures !CanDeliver(l, p, fid) ==> DeliverLocal(l, p, fid, consume, cause) == l
    ensures DropLocal(l, fid).byID == Push(l, fid, consume, cause).byID == DeliverLocal(l, p, fid, consume, cause).byID == l.byID
  {
  }

  lemma NoIds(known: map<Fid, Announced>, n: Node)
    ensures IdsAt(known, n, {}) == {}
  {
  }

  lemma FreeTables(s: Cluster, n: Node, vid: Vid, fid: Fid)
    requires Inv(s) && n in s.lofts && Meant(s, vid, n, fid) && fid in s.lofts[n].frames && s.lofts[n].byID <= s.lofts[n].stats.Keys
    ensures var b := s.lofts[n := DropLocal(s.lofts[n], fid)];
            && BigKnown(b, s.known) == BigKnown(s.lofts, s.known)
            && BigLive(b, s.known) == BigLive(s.lofts, s.known) - (if vid in s.verdicts then {s.verdicts[vid].fid} else {})
            && BigUp(b) == BigUp(s.lofts)
    ensures vid in s.verdicts ==> s.verdicts[vid].fid in BigLive(s.lofts, s.known)
  {
    hide Inv, BigKnown, BigLive, BigUp, KnownOk, IdsOk, LoftsOk, Meant, DropLocal, IdsAt, LoftsGrow, Grows, LoftInv;
    KnownInside(s);
    LoftInside(s, n);
    var m := DropLocal(s.lofts[n], fid);
    DropLocalBooks(s.lofts[n], fid);
    OneLoftGrows(s, n, m);
    FramesAfter(s.lofts[n], 0, fid, true, vid);
    LoftTables(s, n, m, {fid});
    MeantTables(s, vid, n, fid);
  }

  lemma FreePlays(s: Cluster, s1: Cluster, n: Node, vid: Vid, fid: Fid)
    requires Inv(s) && InHand(s, s1, vid) && n in s.lofts && Meant(s, vid, n, fid) && fid in s.lofts[n].frames
    requires vid in s.verdicts ==> s.verdicts[vid].verb.Drop?
    requires s.lofts[n].byID <= s.lofts[n].stats.Keys
    ensures Plays(Abs(s), if vid in s.verdicts then [Free(vid)] else [], Abs(WithLoft(s1, n, DropLocal(s.lofts[n], fid))))
  {
    hide Inv, BigKnown, BigLive, BigUp, BigOut, Plays, BigOutbox, BigAsked, Meant, DropLocal;
    FreeTables(s, n, vid, fid);
    HandTables(s, s1, vid);
    if vid in s.verdicts {
      PlaysOne(Abs(s), Free(vid));
    } else {
      assert BigAsked(s.verdicts, s.pending, s.net) - {vid} == BigAsked(s.verdicts, s.pending, s.net);
      assert BigLive(s.lofts, s.known) - {} == BigLive(s.lofts, s.known);
      PlaysNone(Abs(s));
    }
  }

  /** What a release of the meant frame does to the tables. */
  lemma AnswerTables(s: Cluster, n: Node, m: Loft, vid: Vid, fid: Fid)
    requires Inv(s) && n in s.lofts && vid in s.verdicts && Meant(s, vid, n, fid) && fid in s.lofts[n].frames
    requires Grows(s.lofts[n], m)
    requires m.frames.Keys == s.lofts[n].frames.Keys - (if s.verdicts[vid].verb.Deliver? then {fid} else {}) && m.byID == s.lofts[n].byID
    ensures BigKnown(s.lofts[n := m], s.known) == BigKnown(s.lofts, s.known) && BigUp(s.lofts[n := m]) == BigUp(s.lofts)
    ensures var f := s.verdicts[vid].fid;
            && f in BigLive(s.lofts, s.known) && f in BigKnown(s.lofts, s.known)
            && BigKnown(s.lofts, s.known)[f].data == s.lofts[n].frames[fid].data
            && BigLive(s.lofts[n := m], s.known) == if s.verdicts[vid].verb.Deliver? then BigLive(s.lofts, s.known) - {f} else BigLive(s.lofts, s.known)
  {
    hide Inv, BigKnown, BigLive, BigUp, KnownOk, IdsOk, LoftsOk, Meant, IdsAt, LoftsGrow, Grows;
    KnownInside(s);
    OneLoftGrows(s, n, m);
    MeantTables(s, vid, n, fid);
    LoftTables(s, n, m, if s.verdicts[vid].verb.Deliver? then {fid} else {});
    NoIds(s.known, n);
    assert BigLive(s.lofts, s.known) - {} == BigLive(s.lofts, s.known);
  }

  function LiveAfter(b: Big, v: Verdict): set<Fid> { if v.verb.Deliver? then b.live - {v.fid} else b.live }

  /** Answered and written at once. */
  lemma AnswerEmit(b: Big, vid: Vid, v: Verdict, at: Phys)
    requires vid in b.asked && b.asked[vid] == v && !v.verb.Drop? && v.fid in b.live && v.fid in b.known
    requires vid !in b.outbox && v.port in b.ports && b.ports[v.port] == at && at in b.up
    ensures Plays(b, [Answer(vid), Emit(vid)],
                  b.(asked := b.asked - {vid}, live := LiveAfter(b, v), out := b.out + [Emitted(vid, at, b.known[v.fid].data)]))
  {
    hide Plays;
    PlaysTwo(b, Answer(vid), Emit(vid));
    OutboxBack(b.outbox, vid, Emission(v.port, v.fid, b.known[v.fid].data));
  }

  lemma DeliverTables(s: Cluster, n: Node, vid: Vid, p: PortId, fid: Fid)
    requires Inv(s) && n in s.lofts && vid in s.verdicts && Meant(s, vid, n, fid) && s.lofts[n].byID <= s.lofts[n].stats.Keys
    requires CanDeliver(s.lofts[n], p, fid)
    ensures var v, b := s.verdicts[vid], Abs(s);
            var after := s.lofts[n := DeliverLocal(s.lofts[n], p, fid, v.verb.Deliver?, vid)];
            && v.fid in b.live && v.fid in b.known && b.known[v.fid].data == s.lofts[n].frames[fid].data
            && BigKnown(after, s.known) == b.known && BigLive(after, s.known) == LiveAfter(b, v) && BigUp(after) == b.up
  {
    hide Inv, BigKnown, BigLive, BigUp, BigOut, BigOutbox, BigAsked, Meant, DeliverLocal, LoftsOk, Grows, KnownOk, IdsOk;
    var l, v := s.lofts[n], s.verdicts[vid];
    KnownInside(s);
    LoftInside(s, n);
    DeliverLocalBooks(l, p, fid, v.verb.Deliver?, vid);
    FramesAfter(l, p, fid, v.verb.Deliver?, vid);
    AnswerTables(s, n, DeliverLocal(l, p, fid, v.verb.Deliver?, vid), vid, fid);
  }

  lemma DeliverPlays(s: Cluster, s1: Cluster, n: Node, vid: Vid, p: PortId, fid: Fid)
    requires Inv(s) && InHand(s, s1, vid) && n in s.lofts && vid in s.verdicts && Meant(s, vid, n, fid) && !s.verdicts[vid].verb.Drop?
    requires s.lofts[n].byID <= s.lofts[n].stats.Keys && CanDeliver(s.lofts[n], p, fid)
    requires s.verdicts[vid].port in s.portOf && s.portOf[s.verdicts[vid].port] == Phys(n, p)
    ensures Plays(Abs(s), [Answer(vid), Emit(vid)], Abs(Execute(s1, n, vid, s.verdicts[vid].verb, p, fid)))
  {
    hide Inv, BigKnown, BigLive, BigUp, BigOut, Plays, BigOutbox, BigAsked, Meant, DeliverLocal;
    DeliverTables(s, n, vid, p, fid);
    HandTables(s, s1, vid);
    OutMore(s.writes, Write(vid, n, p, s.lofts[n].frames[fid].data));
    UpHas(s.lofts, n, p);
    AnswerEmit(Abs(s), vid, s.verdicts[vid], Phys(n, p));
  }

  lemma OutboxBack(box: map<Vid, Emission>, vid: Vid, e: Emission)
    requires vid !in box
    ensures box[vid := e] - {vid} == box
  {
  }

  lemma ExecutePlays(s: Cluster, s1: Cluster, n: Node, vid: Vid, verb: Verb, p: PortId, fid: Fid)
    requires Inv(s) && InHand(s, s1, vid) && n in s.lofts && s.lofts[n].byID <= s.lofts[n].stats.Keys
    requires MayExecute(s, n, vid, verb, p, fid) && (fid in s.lofts[n].frames ==> Meant(s, vid, n, fid))
    ensures Plays(Abs(s), ExecuteLabels(s, n, vid, verb, p, fid), Abs(Execute(s1, n, vid, verb, p, fid)))
  {
    hide Inv, BigKnown, BigLive, BigUp, BigOut, Plays, BigOutbox, BigAsked, Meant, DeliverLocal, DropLocal, Abs, InHand;
    assert s1.lofts == s.lofts && s1.writes == s.writes by { HandLofts(s, s1, vid); }
    FramesAfter(s.lofts[n], p, fid, verb.Deliver?, vid);
    SameLoft(s1, n);
    if verb.Drop? {
      if fid in s.lofts[n].frames { FreePlays(s, s1, n, vid, fid); } else { IgnoredPlays(s, s1, vid); }
    } else {
      if CanDeliver(s.lofts[n], p, fid) { DeliverPlays(s, s1, n, vid, p, fid); } else { IgnoredPlays(s, s1, vid); }
    }
  }

  lemma HandLofts(s: Cluster, s1: Cluster, vid: Vid)
    requires InHand(s, s1, vid)
    ensures s1.lofts == s.lofts && s1.writes == s.writes
  {
  }

  lemma PushTables(s: Cluster, n: Node, vid: Vid, fid: Fid)
    requires Inv(s) && n in s.lofts && vid in s.verdicts && Meant(s, vid, n, fid) && s.lofts[n].byID <= s.lofts[n].stats.Keys
    requires fid in s.lofts[n].frames
    ensures var v, b := s.verdicts[vid], Abs(s);
            var after := s.lofts[n := Push(s.lofts[n], fid, v.verb.Deliver?, vid)];
            && v.fid in b.live && v.fid in b.known && b.known[v.fid].data == s.lofts[n].frames[fid].data
            && BigKnown(after, s.known) == b.known && BigLive(after, s.known) == LiveAfter(b, v) && BigUp(after) == b.up
  {
    hide Inv, BigKnown, BigLive, BigUp, BigOut, BigOutbox, BigAsked, Meant, Push, LoftsOk, Grows, KnownOk, IdsOk;
    var l, v := s.lofts[n], s.verdicts[vid];
    KnownInside(s);
    LoftInside(s, n);
    PushBooks(l, fid, v.verb.Deliver?, vid);
    FramesAfter(l, 0, fid, v.verb.Deliver?, vid);
    AnswerTables(s, n, Push(l, fid, v.verb.Deliver?, vid), vid, fid);
  }

  lemma PushPlays(s: Cluster, s1: Cluster, n: Node, vid: Vid, fid: Fid, addr: Option<Node>, p: PortId)
    requires Inv(s) && InHand(s, s1, vid) && n in s.lofts && vid in s.verdicts && !s.verdicts[vid].verb.Drop?
    requires s.lofts[n].byID <= s.lofts[n].stats.Keys && (fid in s.lofts[n].frames ==> Meant(s, vid, n, fid))
    ensures Plays(Abs(s), PushLabels(s, n, vid, fid), Abs(PushOut(s1, n, vid, s.verdicts[vid].verb.Deliver?, fid, addr, p)))
  {
    hide Inv, BigKnown, BigLive, BigUp, BigOut, Plays, BigOutbox, BigAsked, Meant, Push;
    if fid !in s.lofts[n].frames {
      IgnoredPlays(s, s1, vid);
    } else {
      PushTables(s, n, vid, fid);
      HandTables(s, s1, vid);
      AskedInjected(s1.verdicts, s1.pending, s1.net, vid, Inject(n, addr, p, s.lofts[n].frames[fid].data));
      AskedTwice(BigAsked(s.verdicts, s.pending, s.net), vid);
      PlaysOne(Abs(s), Answer(vid));
    }
  }

  lemma AskedTwice(asked: map<Vid, Verdict>, vid: Vid)
    ensures asked - {vid} - {vid} == asked - {vid}
  {
  }

  // ---- verdict events ----------------------------------------------------------------------------------

  lemma ActHand(s: Cluster, vid: Vid)
    requires Inv(s) && vid in s.pending
    ensures InHand(s, s.(pending := s.pending - {vid}), vid)
  {
    hide Inv;
    PendingInside(s, vid);
    assert s.net - {vid} == s.net;
  }

  /** Handed to a trunk: still asked, merely elsewhere. */
  lemma SentStillAsked(s: Cluster, vid: Vid, k: Packet)
    requires vid in s.pending && vid !in s.net && !k.Inject?
    ensures BigAsked(s.verdicts, s.pending - {vid}, s.net[vid := k]) == BigAsked(s.verdicts, s.pending, s.net)
    ensures BigOutbox(s.verdicts, s.net[vid := k]) == BigOutbox(s.verdicts, s.net)
  {
  }

  lemma SendPlays(s: Cluster, vid: Vid)
    requires Inv(s) && vid in s.pending && vid in s.verdicts && s.pending[vid].rf.Some?
    ensures GATEWAY in s.lofts && Gw(s).byID <= Gw(s).stats.Keys && Abs(DoAct(s, vid)) == Abs(s)
  {
    hide Inv, BigKnown, BigLive, BigUp, BigOut, BigOutbox, BigAsked, LoftInv;
    PendingInside(s, vid);
    KnownInside(s);
    LoftInside(s, GATEWAY);
    SentStillAsked(s, vid, RemotePacket(s.verdicts[vid], s.pending[vid]));
  }

  lemma ActPlays(s: Cluster, vid: Vid)
    requires GATEWAY in s.lofts && Gw(s).byID <= Gw(s).stats.Keys && vid in s.pending && vid in s.verdicts
    requires Inv(s)
    ensures Plays(Abs(s), ActLabels(s, vid), Abs(DoAct(s, vid)))
  {
    hide Inv, Abs, Plays, Execute, PushOut, ExecuteLabels, PushLabels, Send;
    var v, q, s1 := s.verdicts[vid], s.pending[vid], s.(pending := s.pending - {vid});
    if q.rf.Some? {
      SendPlays(s, vid);
      PlaysNone(Abs(s));
    } else {
      ActHand(s, vid);
      OwnIds(s, v.port, v.fid);
      if v.verb.Drop? || q.rp.None? {
        ExecutePlays(s, s1, GATEWAY, vid, v.verb, v.port, v.fid);
      } else {
        PushPlays(s, s1, GATEWAY, vid, v.fid, q.rp.value.addr, q.rp.value.remoteID);
      }
    }
  }

  lemma DoomedInside(s: Cluster, vid: Vid)
    requires Inv(s) && vid in s.net && vid !in s.verdicts && s.net[vid].Instruct? && s.net[vid].conn in s.connNode
    ensures Unannounced(s.known, Origin(s.connNode[s.net[vid].conn], s.net[vid].fid))
  {
    hide LoftsOk, RolesOk, ConnsOk, PortMapsInverse, RegFramesOk, RegPortsOk, PortIdsOk, KnownOk, IdsOk, TokensOk, TokensUnannounced, InFlightOk, WritesOk, Linear, Unannounced;
  }

  lemma NetHand(s: Cluster, vid: Vid)
    requires Inv(s) && vid in s.net && !s.net[vid].Inject?
    ensures InHand(s, s.(net := s.net - {vid}), vid)
  {
    hide LoftsOk, RolesOk, ConnsOk, PortMapsInverse, RegFramesOk, RegPortsOk, PortIdsOk, KnownOk, IdsOk, TokensOk, TokensUnannounced, DoomedOk, InFlightOk, WritesOk;
    assert s.pending - {vid} == s.pending;
  }

  lemma EdgeInPlays(s: Cluster, vid: Vid)
    requires vid in s.net && !s.net[vid].Inject? && s.net[vid].conn in s.connNode && s.connNode[s.net[vid].conn] in s.lofts
    requires var n := s.connNode[s.net[vid].conn]; s.lofts[n].byID <= s.lofts[n].stats.Keys
    requires Inv(s)
    ensures Plays(Abs(s), EdgeLabels(s, vid), Abs(DoEdgeIn(s, vid)))
  {
    hide Inv, Abs, Plays, Execute, PushOut, ExecuteLabels, PushLabels, Unannounced, Bound;
    var n, s1 := s.connNode[s.net[vid].conn], s.(net := s.net - {vid});
    PacketInside(s, vid);
    NetHand(s, vid);
    match s.net[vid]
    case Instruct(_, verb, p, fid) =>
      if vid !in s.verdicts { DoomedInside(s, vid); }
      ExecutePlays(s, s1, n, vid, verb, p, fid);
    case SendRemote(_, consume, fid, dst, addr) =>
      PushPlays(s, s1, n, vid, fid, addr, dst);
  }

  lemma OutboxHas(s: Cluster, vid: Vid)
    requires Inv(s) && vid in s.net && s.net[vid].Inject?
    ensures vid in s.verdicts && vid in BigOutbox(s.verdicts, s.net)
    ensures BigOutbox(s.verdicts, s.net)[vid] == Emission(s.verdicts[vid].port, s.verdicts[vid].fid, s.net[vid].data)
    ensures BigOutbox(s.verdicts, s.net - {vid}) == BigOutbox(s.verdicts, s.net) - {vid}
    ensures BigAsked(s.verdicts, s.pending, s.net - {vid}) == BigAsked(s.verdicts, s.pending, s.net)
  {
    hide Inv;
    PacketInside(s, vid);
    InjectKnows(FactsOf(s), vid, s.net[vid]);
  }

  lemma PeerQuiet(s: Cluster, n: Node, m: Loft)
    requires Inv(s) && n in s.lofts && Grows(s.lofts[n], m) && m.frames == s.lofts[n].frames && m.byID == s.lofts[n].byID
    ensures BigKnown(s.lofts[n := m], s.known) == BigKnown(s.lofts, s.known) && BigLive(s.lofts[n := m], s.known) == BigLive(s.lofts, s.known)
    ensures BigUp(s.lofts[n := m]) == BigUp(s.lofts)
  {
    hide Inv, BigKnown, BigLive, BigUp, Grows, KnownOk, IdsOk, LoftsOk;
    UpSame(s.lofts, n, m);
    KnownInside(s);
    OneLoftGrows(s, n, m);
    KnownSame(s.lofts, s.lofts[n := m], s.portOf, s.known);
    LiveSame(s.lofts, n, m, s.known);
  }

  lemma PeerFrames(l: Loft, p: PortId, data: Payload)
    requires l.byID <= l.stats.Keys
    ensures PeerWrite(l, p, data).frames == l.frames && PeerWrite(l, p, data).byID == l.byID
  {
  }

  lemma PeerInPlays(s: Cluster, vid: Vid)
    requires vid in s.net && s.net[vid].Inject? && s.net[vid].addr.Some? && s.net[vid].addr.value in s.lofts
    requires var n := s.net[vid].addr.value; s.lofts[n].byID <= s.lofts[n].stats.Keys
    requires Inv(s)
    ensures Plays(Abs(s), [if PeerAccepts(s.lofts[s.net[vid].addr.value], s.net[vid].port, s.net[vid].data) then Emit(vid) else Lose(vid)], Abs(DoPeerIn(s, vid)))
  {
    hide Inv, BigKnown, BigLive, BigUp, BigOut, Plays, BigOutbox, BigAsked, PeerWrite, Grows, LoftInv, Bound, Released, LoftsOk, KnownOk, IdsOk;
    var n, p, data := s.net[vid].addr.value, s.net[vid].port, s.net[vid].data;
    var l := s.lofts[n];
    KnownInside(s);
    LoftInside(s, n);
    PeerShape(l, p, data);
    PeerFrames(l, p, data);
    PeerQuiet(s, n, PeerWrite(l, p, data));
    OutboxHas(s, vid);
    if PeerAccepts(l, p, data) {
      PacketInside(s, vid);
      InjectKnows(FactsOf(s), vid, s.net[vid]);
      BoundPort(s, vid, n, p);
      UpHas(s.lofts, n, p);
      OutMore(s.writes, Write(vid, n, p, data));
      PlaysOne(Abs(s), Emit(vid));
    } else {
      PlaysOne(Abs(s), Lose(vid));
    }
  }

  lemma PeerFailedPlays(s: Cluster, vid: Vid)
    requires vid in s.net && s.net[vid].Inject? && s.net[vid].from in s.lofts && Inv(s)
    ensures Plays(Abs(s), [Lose(vid)], Abs(DoPeerFailed(s, vid)))
  {
    hide Inv, BigKnown, BigLive, BigUp, BigOut, Plays, BigOutbox, BigAsked;
    var n := s.net[vid].from;
    GrowsSelf(s.lofts[n]);
    PeerQuiet(s, n, TrunkDrop(s.lofts[n]));
    OutboxHas(s, vid);
    PlaysOne(Abs(s), Lose(vid));
  }

  lemma LostPlays(s: Cluster, vid: Vid)
    requires vid in s.net && Inv(s)
    ensures Plays(Abs(s), if s.net[vid].Inject? then [Lose(vid)] else if vid in s.verdicts then [Ignore(vid)] else [], Abs(s.(net := s.net - {vid})))
  {
    hide Inv, BigKnown, BigLive, BigUp, BigOut, Plays, BigOutbox, BigAsked;
    if s.net[vid].Inject? {
      OutboxHas(s, vid);
      PlaysOne(Abs(s), Lose(vid));
    } else {
      NetHand(s, vid);
      IgnoredPlays(s, s.(net := s.net - {vid}), vid);
    }
  }

  lemma SweepFrames(l: Loft, now: Time)
    ensures Sweep(l, now).frames.Keys == l.frames.Keys - StaleFrames(l, now) && Sweep(l, now).byID == l.byID
  {
  }

  lemma SweepPlays(s: Cluster, n: Node)
    requires Inv(s) && n in s.lofts
    ensures Plays(Abs(s), [Expire(IdsAt(s.known, n, StaleFrames(s.lofts[n], s.now)))], Abs(WithLoft(s, n, Sweep(s.lofts[n], s.now))))
  {
    hide LoftsOk, ConnsOk, PortMapsInverse, RegFramesOk, RegPortsOk, PortIdsOk, KnownOk, IdsOk, TokensOk, TokensUnannounced, DoomedOk, InFlightOk, WritesOk, Linear, Sweep, StaleFrames, BigKnown, BigLive, BigUp, BigOut, Plays, BigOutbox, BigAsked, LoftInv, LoftsGrow, IdsAt, Grows;
    var l := s.lofts[n];
    LoftInside(s, n);
    SweepBooks(l, s.now);
    SweepFrames(l, s.now);
    OneLoftGrows(s, n, Sweep(l, s.now));
    LoftTables(s, n, Sweep(l, s.now), StaleFrames(l, s.now));
    PlaysOne(Abs(s), Expire(IdsAt(s.known, n, StaleFrames(l, s.now))));
  }

  lemma PacketPlays(s: Cluster, e: Event)
    requires Inv(s) && WellFormed(s) && Enabled(s, e) && (e.EdgeIn? || e.Lost?)
    ensures Simulates(s, e)
  {
    hide Inv, Abs, Plays, DoEdgeIn, EdgeLabels;
    match e
    case EdgeIn(v) => EdgeInPlays(s, v);
    case Lost(v) => LostPlays(s, v);
    case _ =>
  }

  lemma PeerPlays(s: Cluster, e: Event)
    requires Inv(s) && WellFormed(s) && Enabled(s, e) && (e.PeerIn? || e.PeerFailed?)
    ensures Simulates(s, e)
  {
    hide Inv, Abs, Plays, DoPeerIn, DoPeerFailed;
    match e
    case PeerIn(v) => PeerInPlays(s, v);
    case PeerFailed(v) => PeerFailedPlays(s, v);
    case _ =>
  }

  lemma TickPlays(s: Cluster, e: Event)
    requires WellFormed(s) && Enabled(s, e) && (e.Tick? || e.TokenLost?)
    ensures Simulates(s, e)
  {
    hide Plays, BigKnown, BigLive, BigUp, BigOut, BigOutbox, BigAsked;
    PlaysNone(Abs(s));
  }

  lemma OtherPlays(s: Cluster, e: Event)
    requires WellFormed(s) && Enabled(s, e) && (e.Act? || e.Housekeeping?) && Inv(s)
    ensures Simulates(s, e)
  {
    hide Inv, Plays, DoAct, ActLabels, Sweep, StaleFrames, IdsAt, Abs;
    match e
    case Act(v) => ActPlays(s, v);
    case Housekeeping(n) => SweepPlays(s, n);
    case _ =>
  }

  /** Refinement: whatever the flock does next, the one big loft can do the same. */
  lemma StepRefines(s: Cluster, e: Event)
    requires Inv(s) && WellFormed(s) && IdsLeft(s)
    ensures Plays(Abs(s), Labels(s, e), Abs(Step(s, e)))
  {
    hide Inv, Abs, Plays, LoftEvent, TrunkEvent, VerdictEvent, IdsLeft;
    if !Enabled(s, e) {
      PlaysNone(Abs(s));
    } else if e.PortDown? || e.Attach? || e.TrunkUp? || e.Dial? || e.HelloIn? {
      LocalPlays(s, e);
    } else if e.PortRemoved? || e.TrunkLost? || e.Forget? {
      RegistryPlays(s, e);
    } else if e.PortUp? || e.PortAdded? {
      PortPlays(s, e);
    } else if e.FrameIn? {
      FrameInPlays(s, e);
    } else if e.TokenIn? {
      TokenPlays(s, e.origin);
    } else if e.VerdictIn? {
      AskPlays(s, e.verdict);
    } else if e.EdgeIn? || e.Lost? {
      PacketPlays(s, e);
    } else if e.PeerIn? || e.PeerFailed? {
      PeerPlays(s, e);
    } else if e.Tick? || e.TokenLost? {
      TickPlays(s, e);
    } else {
      OtherPlays(s, e);
    }
  }

  const EMPTY := Big(map[], {}, map[], {}, map[], map[], [])

  lemma StartIsEmpty(nodes: set<Node>, now: Time)
    ensures Abs(Start(nodes, now)) == EMPTY
  {
  }

  /** Every run of the flock, under every interleaving and every loss, looks from
    * outside like a play of the one big loft. */
  lemma {:induction false} FlockRefinesOneLoft(run: seq<Cluster>, events: seq<Event>, i: nat) returns (labels: seq<Label>)
    requires IsRun(run, events) && i < |run|
    ensures Plays(EMPTY, labels, Abs(run[i]))
  {
    hide Inv, Abs, Plays, Step, IdsLeft, WellFormed, Labels;
    if i == 0 {
      var nodes, now :| run[0] == Start(nodes, now);
      StartIsEmpty(nodes, now);
      labels := [];
      PlaysNone(EMPTY);
    } else {
      var before := FlockRefinesOneLoft(run, events, i - 1);
      RunInv(run, events, i - 1);
      assert Moves(run[i - 1], events[i - 1], run[i]);
      StepRefines(run[i - 1], events[i - 1]);
      labels := before + Labels(run[i - 1], events[i - 1]);
      PlaysThen(EMPTY, before, Abs(run[i - 1]), Labels(run[i - 1], events[i - 1]), Abs(run[i]));
    }
  }
}
