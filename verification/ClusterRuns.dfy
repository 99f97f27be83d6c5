/** What holds after any run of the flock, however its events interleave. */
module ClusterRuns {
  import opened Basics
  import opened LoftCore
  import opened LoftConservation
  import opened Cluster
  import opened ClusterSafety
  import opened ClusterEdits
  import opened ClusterInvariant
  import opened ClusterTrunk
  import opened ClusterVerdicts

  /** The invariant answers the lookups that `Step` makes. */
  lemma InvWellFormed(s: Cluster)
    requires Inv(s)
    ensures WellFormed(s)
  {
    hide PortMapsInverse, RegFramesOk, RegPortsOk, PortIdsOk, KnownOk, IdsOk, TokensOk, TokensUnannounced, DoomedOk, WritesOk, Linear, PacketOk, Accounted, BornWell, CountersExact, PortsBelow, Unexpired;
    forall v | v in s.pending
      ensures v in s.verdicts
    {
      assert PendingOk(FactsOf(s), v, s.pending[v]);
    }
  }

  lemma StartInv(nodes: set<Node>, now: Time)
    ensures Inv(Start(nodes, now))
  {
    forall n | n in Start(nodes, now).lofts
      ensures LoftInv(Start(nodes, now).lofts[n])
    {
      InitBooks(now);
    }
  }

  lemma TickKeeps(s: Cluster, dt: nat)
    requires Inv(s)
    ensures Kept(s, s.(now := s.now + dt))
  {
    hide Inv, FactsGrow;
    SetNow(s, s.now + dt);
    FactsSame(s, s.(now := s.now + dt));
  }

  lemma TokenLostKeeps(s: Cluster, o: Origin)
    requires Inv(s)
    ensures Kept(s, s.(tokens := s.tokens - {o}))
  {
    hide Inv, FactsGrow;
    DropToken(s, o);
    FactsSame(s, s.(tokens := s.tokens - {o}));
  }

  lemma LostKeeps(s: Cluster, v: Vid)
    requires Inv(s)
    ensures Kept(s, s.(net := s.net - {v}))
  {
    hide Inv, FactsGrow;
    DropPacket(s, v);
    FactsSame(s, s.(net := s.net - {v}));
  }

  lemma FlagEventKeeps(s: Cluster, e: Event)
    requires Inv(s) && WellFormed(s) && IdsLeft(s) && Enabled(s, e) && (e.Tick? || e.Attach? || e.TrunkUp?)
    ensures Kept(s, LoftEvent(s, e))
  {
    hide Inv, FactsGrow, Kept;
    match e
    case Tick(dt) => TickKeeps(s, dt);
    case Attach(b) => AttachKeeps(s, b);
    case TrunkUp(n, b) => TrunkUpKeeps(s, n, b);
    case _ =>
  }

  lemma WorkEventKeeps(s: Cluster, e: Event)
    requires Inv(s) && WellFormed(s) && IdsLeft(s) && Enabled(s, e) && (e.PortUp? || e.PortDown? || e.FrameIn? || e.Housekeeping?)
    ensures Kept(s, LoftEvent(s, e))
  {
    hide Inv, FactsGrow, Kept, DoPortUp, DoFrameIn, Sweep, RemovePort;
    match e
    case PortUp(n) => PortUpKeeps(s, n);
    case PortDown(n, p) => PortDownKeeps(s, n, p);
    case FrameIn(n, p, data, c) => FrameInKeeps(s, n, p, data, c);
    case Housekeeping(n) => HousekeepingKeeps(s, n);
    case _ =>
  }

  lemma PortEventKeeps(s: Cluster, e: Event)
    requires Inv(s) && WellFormed(s) && IdsLeft(s) && Enabled(s, e) && (e.Dial? || e.HelloIn? || e.PortAdded? || e.PortRemoved?)
    ensures Kept(s, TrunkEvent(s, e))
  {
    hide Inv, FactsGrow, Kept, DoDial, DoHello, DoPortAdded, DoPortRemoved;
    match e
    case Dial(c, n) => DialKeeps(s, c, n);
    case HelloIn(c) => HelloKeeps(s, c);
    case PortAdded(c, r) => PortAddedKeeps(s, c, r);
    case PortRemoved(c, r) => PortRemovedKeeps(s, c, r);
    case _ =>
  }

  lemma TokenEventKeeps(s: Cluster, e: Event)
    requires Inv(s) && WellFormed(s) && IdsLeft(s) && Enabled(s, e) && (e.TokenIn? || e.TokenLost? || e.TrunkLost?)
    ensures Kept(s, TrunkEvent(s, e))
  {
    hide Inv, FactsGrow, Kept, DoTokenIn, DoTrunkLost;
    match e
    case TokenIn(o) => TokenInKeeps(s, o);
    case TokenLost(o) => TokenLostKeeps(s, o);
    case TrunkLost(c) => TrunkLostKeeps(s, c);
    case _ =>
  }

  lemma ForgetEventKeeps(s: Cluster, f: Fid)
    requires Inv(s)
    ensures Kept(s, DoForget(s, f))
  {
    hide LoftsOk, RolesOk, ConnsOk, PortMapsInverse, RegFramesOk, RegPortsOk, PortIdsOk, KnownOk, IdsOk, TokensOk, TokensUnannounced, DoomedOk, InFlightOk, WritesOk, Linear, FactsGrow, ForgetRemote;
    GatewayInside(s);
    ForgetKeeps(s, f);
    var s1 := WithLoft(s, GATEWAY, ForgetRemote(Gw(s), f));
    SetForget(s1, s.forget - {f});
    FactsSame(s1, s1.(forget := s.forget - {f}));
    KeptTwice(s, s1, s1.(forget := s.forget - {f}));
  }

  lemma RouterEventKeeps(s: Cluster, e: Event)
    requires Inv(s) && WellFormed(s) && Enabled(s, e) && (e.VerdictIn? || e.Act? || e.Forget?)
    ensures Kept(s, VerdictEvent(s, e))
  {
    hide Inv, FactsGrow, Kept, DoVerdictIn, DoAct, DoForget;
    match e
    case VerdictIn(v) => VerdictInKeeps(s, v);
    case Act(v) => ActKeeps(s, v);
    case Forget(f) => ForgetEventKeeps(s, f);
    case _ =>
  }

  lemma PacketEventKeeps(s: Cluster, e: Event)
    requires Inv(s) && WellFormed(s) && Enabled(s, e) && (e.EdgeIn? || e.PeerIn? || e.PeerFailed? || e.Lost?)
    ensures Kept(s, VerdictEvent(s, e))
  {
    hide Inv, FactsGrow, Kept, DoEdgeIn, DoPeerIn, DoPeerFailed;
    match e
    case EdgeIn(v) => EdgeInKeeps(s, v);
    case PeerIn(v) => PeerInKeeps(s, v);
    case PeerFailed(v) => PeerFailedKeeps(s, v);
    case Lost(v) => LostKeeps(s, v);
    case _ =>
  }

  /** Every event keeps the invariant and unsays nothing. */
  lemma StepKeeps(s: Cluster, e: Event)
    requires Inv(s) && WellFormed(s) && IdsLeft(s)
    ensures Kept(s, Step(s, e))
  {
    hide Inv, FactsGrow, LoftEvent, TrunkEvent, VerdictEvent;
    if !Enabled(s, e) {
      FactsSame(s, s);
    } else if e.Tick? || e.Attach? || e.TrunkUp? {
      FlagEventKeeps(s, e);
    } else if AtOneLoft(e) {
      WorkEventKeeps(s, e);
    } else if e.Dial? || e.HelloIn? || e.PortAdded? || e.PortRemoved? {
      PortEventKeeps(s, e);
    } else if OnATrunk(e) {
      TokenEventKeeps(s, e);
    } else if e.VerdictIn? || e.Act? || e.Forget? {
      RouterEventKeeps(s, e);
    } else {
      PacketEventKeeps(s, e);
    }
  }

  // ---- runs ----------------------------------------------------------------------------

  ghost predicate Moves(s: Cluster, e: Event, t: Cluster) {
    WellFormed(s) && IdsLeft(s) && t == Step(s, e)
  }

  /** `run` lists the states the flock goes through, starting with empty lofts,
    * while no id counter wraps. */
  ghost predicate IsRun(run: seq<Cluster>, events: seq<Event>) {
    && |run| == |events| + 1
    && (exists nodes, now :: run[0] == Start(nodes, now))
    && forall i :: 0 <= i < |events| ==> Moves(run[i], events[i], run[i + 1])
  }

  lemma {:induction false} RunInv(run: seq<Cluster>, events: seq<Event>, i: nat)
    requires IsRun(run, events) && i < |run|
    ensures Inv(run[i])
  {
    hide Inv, FactsGrow, Step, WellFormed, IdsLeft;
    if i == 0 {
      var nodes, now :| run[0] == Start(nodes, now);
      StartInv(nodes, now);
    } else {
      RunInv(run, events, i - 1);
      assert Moves(run[i - 1], events[i - 1], run[i]);
      StepKeeps(run[i - 1], events[i - 1]);
    }
  }

  /** Only id wrap-around ends a run: from every state a run reaches, while ids
    * are left, each event whatsoever has a next state. */
  lemma RunContinues(run: seq<Cluster>, events: seq<Event>, e: Event)
    requires IsRun(run, events) && IdsLeft(run[|events|])
    ensures WellFormed(run[|events|])
    ensures IsRun(run + [Step(run[|events|], e)], events + [e])
  {
    hide Inv, Step, WellFormed, IdsLeft;
    RunInv(run, events, |events|);
    InvWellFormed(run[|events|]);
    var longer, more := run + [Step(run[|events|], e)], events + [e];
    forall i | 0 <= i < |more|
      ensures Moves(longer[i], more[i], longer[i + 1])
    {
      if i < |events| {
        assert Moves(run[i], events[i], run[i + 1]);
      }
    }
  }

  /** Along a run no frame changes hands: announced ids, port identities, buffered
    * payloads and the fates of frames are settled once and for all. */
  lemma {:induction false} RunGrows(run: seq<Cluster>, events: seq<Event>, i: nat, j: nat)
    requires IsRun(run, events) && i <= j < |run|
    ensures FactsGrow(FactsOf(run[i]), FactsOf(run[j]))
    decreases j
  {
    hide Inv, FactsGrow, Step, WellFormed, IdsLeft;
    RunInv(run, events, i);
    if i == j {
      FactsSame(run[i], run[j]);
    } else {
      RunGrows(run, events, i, j - 1);
      RunInv(run, events, j - 1);
      assert Moves(run[j - 1], events[j - 1], run[j]);
      StepKeeps(run[j - 1], events[j - 1]);
      KeptTwice(run[i], run[j - 1], run[j]);
    }
  }

  /** Conservation over whole runs, loft by loft: every frame a loft ever received was
    * refused, shed, is still buffered, or met exactly one of three fates. */
  lemma EveryLoftBalances(run: seq<Cluster>, events: seq<Event>, i: nat, n: Node)
    requires IsRun(run, events) && i < |run| && n in run[i].lofts
    ensures var l := run[i].lofts[n];
            && l.hist.received == l.hist.unrouted + l.hist.shed + |l.frames| + |DeliveredFrames(l)| + |DroppedFrames(l)| + |ExpiredFrames(l)|
            && |l.frames| <= MAX_BUFFERED
            && (forall fid :: fid in l.hist.born <==> fid in l.frames || fid in l.hist.fate)
            && (forall fid :: fid in l.frames ==> fid !in l.hist.fate)
  {
    hide Moves, Step, LoftInv;
    RunInv(run, events, i);
    assert LoftInv(run[i].lofts[n]);
    Conservation(run[i].lofts[n]);
    Settled(run[i].lofts[n]);
  }

  lemma Settled(l: Loft)
    requires LoftInv(l)
    ensures forall fid :: fid in l.hist.born <==> fid in l.frames || fid in l.hist.fate
    ensures forall fid :: fid in l.frames ==> fid !in l.hist.fate
  {
    hide CountersExact;
  }

  // ---- what a consumer gets -------------------------------------------------------------

  /** Every payload written because of verdict (P, F) is, byte for byte, the
    * payload buffered for the frame announced as F; it agrees with the length and
    * snapshot the consumer saw; and it goes out of the physical port announced as
    * P, on whichever loft that is. */
  lemma VerdictsReachWhatTheyName(run: seq<Cluster>, events: seq<Event>, x: Write)
    requires IsRun(run, events)
    requires var s := run[|events|]; x in s.writes
    ensures var s := run[|events|];
            && x.cause in s.verdicts
            && var v := s.verdicts[x.cause];
               && v.verb != Drop
               && v.fid in s.known
               && var a := s.known[v.fid];
                  && a.token.fid == v.fid
                  && |x.data| == a.token.fullLen && a.token.snapshot == (if |x.data| <= 128 then x.data else x.data[..128])
                  && IsBorn(s.lofts, a.origin) && x.data == FrameAt(s.lofts, a.origin).data
                  && a.token.port in s.portOf && s.portOf[a.token.port] == Phys(a.origin.node, FrameAt(s.lofts, a.origin).port)
                  && v.port in s.portOf && s.portOf[v.port] == Phys(x.node, x.port)
  {
    hide LoftsOk, RolesOk, ConnsOk, PortMapsInverse, RegFramesOk, RegPortsOk, PortIdsOk, IdsOk, TokensOk, TokensUnannounced, DoomedOk, InFlightOk, Linear, Moves;
    var s := run[|events|];
    RunInv(run, events, |events|);
    assert WriteOk(FactsOf(s), x);
    assert AnnouncedOk(s.lofts, s.portOf, s.verdicts[x.cause].fid, s.known[s.verdicts[x.cause].fid]);
  }

  function FidOf(s: Cluster, x: Write): Option<Fid> {
    if x.cause in s.verdicts then Some(s.verdicts[x.cause].fid) else None
  }

  predicate Consumes(s: Cluster, x: Write) {
    x.cause in s.verdicts && s.verdicts[x.cause].verb == Deliver
  }

  /** Two consuming writes of one frame are one and the same write. */
  lemma ConsumedOnce(s: Cluster, i: nat, j: nat)
    requires Inv(s) && i < |s.writes| && j < |s.writes|
    requires Consumes(s, s.writes[i]) && Consumes(s, s.writes[j]) && FidOf(s, s.writes[i]) == FidOf(s, s.writes[j])
    ensures i == j
  {
    hide LoftsOk, RolesOk, ConnsOk, PortMapsInverse, RegFramesOk, RegPortsOk, PortIdsOk, KnownOk, IdsOk, TokensOk, TokensUnannounced, DoomedOk, InFlightOk;
    assert WriteOk(FactsOf(s), s.writes[i]) && WriteOk(FactsOf(s), s.writes[j]);
  }

  function WritesOf(s: Cluster, f: Fid): set<nat> {
    set i: nat | i < |s.writes| && FidOf(s, s.writes[i]) == Some(f)
  }

  function CopiesAsked(s: Cluster, f: Fid): set<Vid> {
    set v | v in s.verdicts && s.verdicts[v] == Verdict(CopyDeliver, s.verdicts[v].port, f)
  }

  /** A frame's payload is emitted at most once, plus once per copy-deliver. */
  lemma EmittedAtMost(run: seq<Cluster>, events: seq<Event>, f: Fid)
    requires IsRun(run, events)
    ensures var s := run[|events|]; |WritesOf(s, f)| <= 1 + |CopiesAsked(s, f)|
  {
    hide Inv, Moves, Step, IdsLeft, WellFormed;
    var s := run[|events|];
    RunInv(run, events, |events|);
    var copies := set i | i in WritesOf(s, f) && !Consumes(s, s.writes[i]);
    var final := set i | i in WritesOf(s, f) && Consumes(s, s.writes[i]);
    assert WritesOf(s, f) == copies + final;
    SizeDisjoint(copies, final);
    CopiesInjective(s, f, copies);
    FinalAtMostOne(s, f, final);
  }

  lemma FinalAtMostOne(s: Cluster, f: Fid, final: set<nat>)
    requires Inv(s)
    requires forall i :: i in final ==> i < |s.writes| && Consumes(s, s.writes[i]) && FidOf(s, s.writes[i]) == Some(f)
    ensures |final| <= 1
  {
    hide Inv;
    if final != {} {
      var i :| i in final;
      forall j | j in final
        ensures j == i
      {
        ConsumedOnce(s, i, j);
      }
      assert final == {i};
    }
  }

  lemma CauseOfCopy(s: Cluster, f: Fid, i: nat)
    requires Inv(s) && i < |s.writes| && FidOf(s, s.writes[i]) == Some(f) && !Consumes(s, s.writes[i])
    ensures s.writes[i].cause in CopiesAsked(s, f)
  {
    hide LoftsOk, RolesOk, ConnsOk, PortMapsInverse, RegFramesOk, RegPortsOk, PortIdsOk, KnownOk, IdsOk, TokensOk, TokensUnannounced, DoomedOk, InFlightOk, Linear;
    assert WriteOk(FactsOf(s), s.writes[i]);
  }

  lemma CausesDiffer(s: Cluster, i: nat, j: nat)
    requires Inv(s) && i < |s.writes| && j < |s.writes| && s.writes[i].cause == s.writes[j].cause
    ensures i == j
  {
    hide LoftsOk, RolesOk, ConnsOk, PortMapsInverse, RegFramesOk, RegPortsOk, PortIdsOk, KnownOk, IdsOk, TokensOk, TokensUnannounced, DoomedOk, InFlightOk, WritesOk;
  }

  lemma {:induction false} CopiesInjective(s: Cluster, f: Fid, copies: set<nat>)
    requires Inv(s)
    requires forall i :: i in copies ==> i < |s.writes| && FidOf(s, s.writes[i]) == Some(f) && !Consumes(s, s.writes[i])
    ensures |copies| <= |CopiesAsked(s, f)|
  {
    hide Inv, CopiesAsked;
    var causes := set i | i in copies :: s.writes[i].cause;
    forall i | i in copies
      ensures s.writes[i].cause in CopiesAsked(s, f)
    {
      CauseOfCopy(s, f, i);
    }
    SubsetSize(causes, CopiesAsked(s, f));
    ImageSize(s, copies);
  }

  lemma {:induction false} ImageSize(s: Cluster, at: set<nat>)
    requires Inv(s) && forall i :: i in at ==> i < |s.writes|
    ensures |set i | i in at :: s.writes[i].cause| == |at|
  {
    hide Inv;
    if at != {} {
      var k :| k in at;
      ImageSize(s, at - {k});
      var rest := set i | i in at - {k} :: s.writes[i].cause;
      assert (set i | i in at :: s.writes[i].cause) == rest + {s.writes[k].cause};
      if s.writes[k].cause in rest {
        var i :| i in at - {k} && s.writes[i].cause == s.writes[k].cause;
        CausesDiffer(s, i, k);
      }
    }
  }

  // ---- late and repeated verdicts -------------------------------------------------------

  /** Frame `fid` of loft `n` is exactly as it was. */
  ghost predicate Spared(s: Cluster, t: Cluster, n: Node, fid: Fid) {
    && n in s.lofts && n in t.lofts
    && (fid in s.lofts[n].frames <==> fid in t.lofts[n].frames)
    && (fid in s.lofts[n].frames ==> t.lofts[n].frames[fid] == s.lofts[n].frames[fid])
  }

  lemma WithLoftSpares(s: Cluster, n: Node, l: Loft, m: Node, other: Fid)
    requires n in s.lofts && m in s.lofts
    requires m == n ==> (other in s.lofts[n].frames <==> other in l.frames)
    requires m == n && other in l.frames ==> l.frames[other] == s.lofts[n].frames[other]
    ensures Spared(s, WithLoft(s, n, l), m, other)
  {
  }

  lemma ReleaseOne(l: Loft, fid: Fid, consume: bool, cause: Vid, other: Fid)
    requires other != fid
    ensures var m := Push(l, fid, consume, cause);
            (other in l.frames <==> other in m.frames) && (other in m.frames ==> m.frames[other] == l.frames[other])
  {
  }

  lemma DropOne(l: Loft, fid: Fid, other: Fid)
    requires l.byID <= l.stats.Keys && (fid in l.frames ==> other != fid)
    ensures var m := DropLocal(l, fid);
            (other in l.frames <==> other in m.frames) && (other in m.frames ==> m.frames[other] == l.frames[other])
  {
  }

  lemma DeliverOne(l: Loft, p: PortId, fid: Fid, consume: bool, cause: Vid, other: Fid)
    requires l.byID <= l.stats.Keys && (fid in l.frames ==> other != fid)
    ensures var m := DeliverLocal(l, p, fid, consume, cause);
            (other in l.frames <==> other in m.frames) && (other in m.frames ==> m.frames[other] == l.frames[other])
  {
  }

  lemma ExecuteSpares(s: Cluster, n: Node, vid: Vid, verb: Verb, p: PortId, fid: Fid, m: Node, other: Fid)
    requires n in s.lofts && s.lofts[n].byID <= s.lofts[n].stats.Keys && m in s.lofts
    requires fid in s.lofts[n].frames ==> Origin(m, other) != Origin(n, fid)
    ensures Spared(s, Execute(s, n, vid, verb, p, fid), m, other)
  {
    hide DropLocal, DeliverLocal;
    var l := s.lofts[n];
    if m == n {
      DropOne(l, fid, other);
      DeliverOne(l, p, fid, verb.Deliver?, vid, other);
    }
    WithLoftSpares(s, n, if verb.Drop? then DropLocal(l, fid) else DeliverLocal(l, p, fid, verb.Deliver?, vid), m, other);
  }

  lemma PushOutSpares(s: Cluster, n: Node, vid: Vid, consume: bool, fid: Fid, addr: Option<Node>, p: PortId, m: Node, other: Fid)
    requires n in s.lofts && m in s.lofts
    requires fid in s.lofts[n].frames ==> Origin(m, other) != Origin(n, fid)
    ensures Spared(s, PushOut(s, n, vid, consume, fid, addr, p), m, other)
  {
    hide Push;
    var l := s.lofts[n];
    if fid in l.frames {
      if m == n { ReleaseOne(l, fid, consume, vid, other); }
      WithLoftSpares(s, n, Push(l, fid, consume, vid), m, other);
    }
  }

  /** Whatever a verdict does at a loft, late or repeated, it does to no other
    * frame than the one its id was announced for. */
  lemma OnlyItsOwnFrame(s: Cluster, e: Event, vid: Vid, n: Node, fid: Fid)
    requires Inv(s) && WellFormed(s) && vid in s.verdicts && n in s.lofts
    requires e == Act(vid) || e == EdgeIn(vid) || e == PeerIn(vid)
    requires var f := s.verdicts[vid].fid; f !in s.known || s.known[f].origin != Origin(n, fid)
    ensures Spared(s, Step(s, e), n, fid)
  {
    hide Inv, WellFormed, DoAct, DoEdgeIn, DoPeerIn, Spared, LoftEvent, TrunkEvent;
    if Enabled(s, e) {
      match e
      case Act(_) =>
        OwnIds(s, s.verdicts[vid].port, s.verdicts[vid].fid);
        ActSpares(s, vid, n, fid);
      case EdgeIn(_) =>
        PacketInside(s, vid);
        EdgeInSpares(s, vid, n, fid);
      case PeerIn(_) => PeerInSpares(s, vid, n, fid);
    } else {
      SparedSame(s, n, fid);
    }
  }

  lemma SparedSame(s: Cluster, n: Node, fid: Fid)
    requires n in s.lofts
    ensures Spared(s, s, n, fid)
  {
  }

  lemma PeerInSpares(s: Cluster, vid: Vid, n: Node, fid: Fid)
    requires WellFormed(s) && Enabled(s, PeerIn(vid)) && n in s.lofts
    ensures Spared(s, DoPeerIn(s, vid), n, fid)
  {
    var m, p, data := s.net[vid].addr.value, s.net[vid].port, s.net[vid].data;
    WithLoftSpares(s, m, PeerWrite(s.lofts[m], p, data), n, fid);
  }

  lemma ActSpares(s: Cluster, vid: Vid, n: Node, fid: Fid)
    requires WellFormed(s) && Enabled(s, Act(vid)) && n in s.lofts
    requires s.verdicts[vid].fid in s.lofts[GATEWAY].frames ==> Origin(n, fid) != Origin(GATEWAY, s.verdicts[vid].fid)
    ensures Spared(s, DoAct(s, vid), n, fid)
  {
    hide Execute, PushOut, Send, Spared;
    var v, q, s1, t := s.verdicts[vid], s.pending[vid], s.(pending := s.pending - {vid}), DoAct(s, vid);
    if q.rf.None? {
      if v.verb.Drop? || q.rp.None? {
        ExecuteSpares(s1, GATEWAY, vid, v.verb, v.port, v.fid, n, fid);
      } else {
        PushOutSpares(s1, GATEWAY, vid, v.verb.Deliver?, v.fid, q.rp.value.addr, q.rp.value.remoteID, n, fid);
      }
      SparedFrom(s, s1, t, n, fid);
    } else {
      var packet :| t == Send(s1, vid, packet, v);
      SendSpares(s, s1, vid, packet, v, n, fid);
    }
  }

  lemma SparedFrom(s: Cluster, s1: Cluster, t: Cluster, n: Node, fid: Fid)
    requires s1.lofts == s.lofts && Spared(s1, t, n, fid)
    ensures Spared(s, t, n, fid)
  {
  }

  lemma SendSpares(s: Cluster, s1: Cluster, vid: Vid, packet: Packet, v: Verdict, n: Node, fid: Fid)
    requires s1.lofts == s.lofts && n in s.lofts
    ensures Spared(s, Send(s1, vid, packet, v), n, fid)
  {
  }

  lemma EdgeInSpares(s: Cluster, vid: Vid, n: Node, fid: Fid)
    requires WellFormed(s) && Enabled(s, EdgeIn(vid)) && n in s.lofts
    requires Origin(n, fid) != Origin(s.connNode[s.net[vid].conn], s.net[vid].fid)
    ensures Spared(s, DoEdgeIn(s, vid), n, fid)
  {
    hide Execute, PushOut;
    var m, s1 := s.connNode[s.net[vid].conn], s.(net := s.net - {vid});
    match s.net[vid]
    case Instruct(_, verb, p, g) => ExecuteSpares(s1, m, vid, verb, p, g, n, fid);
    case SendRemote(_, consume, g, dst, addr) => PushOutSpares(s1, m, vid, consume, g, addr, dst, n, fid);
  }

  // ---- the gateway never forgets a live frame ---------------------------------------------

  /** When the gateway's housekeeping expires a remote id, the edge that buffered
    * the frame has already let it go, however long the token took to arrive,
    * provided that edge swept its own buffer within the last five seconds. */
  lemma GatewayForgetsNoLiveFrame(s: Cluster, fid: Fid)
    requires Inv(s) && fid in StaleRemote(Gw(s), s.now)
    ensures fid in s.known && s.known[fid].origin.node in s.lofts
    ensures var o := s.known[fid].origin;
            s.now - s.lofts[o.node].lastSweep <= 5 * SECOND ==>
              o.fid !in s.lofts[o.node].frames && o.fid in s.lofts[o.node].hist.fate
  {
    hide ConnsOk, PortMapsInverse, RegPortsOk, PortIdsOk, IdsOk, TokensOk, TokensUnannounced, DoomedOk, WritesOk, InFlightOk, Linear;
    assert RemoteFrameOk(s.connNode, s.known, fid, Gw(s).reg.frames[fid]);
    assert AnnouncedOk(s.lofts, s.portOf, fid, s.known[fid]);
  }
}
