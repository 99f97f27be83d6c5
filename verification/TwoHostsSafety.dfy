/** Whatever the consumer does, the two hosts stay safe. */
module TwoHostsSafety {
  import opened Basics
  import opened InternetChecksum
  import opened Frames
  import opened TwoHosts

  // ---- the hosts only ever build frames of five kinds ---------------------------------------

  lemma BuiltLonger(b: Bytes, m: nat, n: nat)
    requires Built(b, m) && m <= n
    ensures Built(b, n)
  {
    hide Ask, Answer, StormFrame, Ping, PongTo;
  }

  lemma PongLonger(b: Bytes, m: nat, n: nat)
    requires IsPong(b, m) && m <= n
    ensures IsPong(b, n)
  {
    hide PongTo;
  }

  lemma FramesLonger(frames: map<nat, Held>, m: nat, n: nat)
    requires FramesBuilt(frames, m) && m <= n
    ensures FramesBuilt(frames, n)
  {
    hide Built;
    forall id | id in frames
      ensures Built(frames[id].data, n)
    {
      BuiltLonger(frames[id].data, m, n);
    }
  }

  lemma JobsLonger(timers: seq<Job>, m: nat, n: nat)
    requires JobsBuilt(timers, m) && m <= n
    ensures JobsBuilt(timers, n)
  {
    hide IsPong, Answer;
    forall k | 0 <= k < |timers| && timers[k].frame != Answer()
      ensures IsPong(timers[k].frame, n)
    {
      PongLonger(timers[k].frame, m, n);
    }
  }

  lemma AcceptedLonger(accepted: seq<nat>, m: nat, n: nat)
    requires AcceptedSent(accepted, m) && m <= n
    ensures AcceptedSent(accepted, n)
  {
    forall k | 0 <= k < |accepted|
      ensures WasSent(accepted[k], n)
    {
      assert WasSent(accepted[k], m);
      var i: nat :| 1 <= i <= m && accepted[k] == OnWire(i);
    }
  }

  // ---- counting echoes under way --------------------------------------------------------------

  /** A ping or a pong, told by its headers. */
  predicate IsEcho(b: Bytes) { |b| >= 35 && U16(b, 12) == ETH_IP4 && b[23] == ICMP }

  function EchoFrames(frames: map<nat, Held>): set<nat> { set id | id in frames && IsEcho(frames[id].data) }

  function EchoJobs(timers: seq<Job>): nat {
    if timers == [] then 0 else EchoJobs(timers[..|timers| - 1]) + if IsEcho(timers[|timers| - 1].frame) then 1 else 0
  }

  /** Pings and pongs somewhere between their sender and their receiver. */
  function UnderWay(s: Sim): nat { |EchoFrames(s.frames)| + EchoJobs(s.timers) }

  /** Answers are paid for by pings sent and copies made. */
  ghost predicate Paid(s: Sim) { s.answered + UnderWay(s) <= s.pingSeq + s.copies }

  lemma EchoKinds(n: nat)
    ensures !IsEcho(Ask()) && !IsEcho(Answer()) && !IsEcho(StormFrame()) && IsEcho(Ping(BOB_MAC, n)) && IsEcho(PongTo(n))
  {
    hide Ethernet, Arp, Ipv4, IcmpEcho, Udp, HeaderLen;
    ArpFields(BCAST, ALICE_MAC, 1, ALICE_MAC, ALICE_IP, NO_MAC, BOB_IP);
    ArpFields(ALICE_MAC, BOB_MAC, 2, BOB_MAC, BOB_IP, ALICE_MAC, ALICE_IP);
    IpFrameParts(BOB_MAC, ALICE_MAC, ALICE_IP, BOB_IP, UDP, Udp(5004, 5004, 1372));
    EchoFields(BOB_MAC, ALICE_MAC, ALICE_IP, BOB_IP, false, PING_ID, n % WORD);
    EchoFields(ALICE_MAC, BOB_MAC, BOB_IP, ALICE_IP, true, PING_ID, n % WORD);
  }

  lemma EchoFramesMore(frames: map<nat, Held>, id: nat, h: Held)
    requires id !in frames
    ensures |EchoFrames(frames[id := h])| == |EchoFrames(frames)| + if IsEcho(h.data) then 1 else 0
  {
    if IsEcho(h.data) {
      assert EchoFrames(frames[id := h]) == EchoFrames(frames) + {id};
    } else {
      assert EchoFrames(frames[id := h]) == EchoFrames(frames);
    }
  }

  lemma EchoFramesLess(frames: map<nat, Held>, id: nat)
    requires id in frames
    ensures |EchoFrames(frames - {id})| == |EchoFrames(frames)| - if IsEcho(frames[id].data) then 1 else 0
  {
    hide IsEcho;
    if IsEcho(frames[id].data) {
      assert EchoFrames(frames) == EchoFrames(frames - {id}) + {id};
    } else {
      assert EchoFrames(frames - {id}) == EchoFrames(frames);
    }
  }

  lemma EchoJobsMore(timers: seq<Job>, j: Job)
    ensures EchoJobs(timers + [j]) == EchoJobs(timers) + if IsEcho(j.frame) then 1 else 0
  {
    hide IsEcho;
    assert (timers + [j])[..|timers|] == timers;
  }

  lemma {:induction false} EchoJobsSplit(a: seq<Job>, b: seq<Job>)
    ensures EchoJobs(a + b) == EchoJobs(a) + EchoJobs(b)
    decreases |b|
  {
    hide IsEcho;
    if b == [] {
      assert a + b == a;
    } else {
      assert (a + b)[..|a + b| - 1] == a + b[..|b| - 1];
      EchoJobsSplit(a, b[..|b| - 1]);
    }
  }

  lemma EchoJobsLess(timers: seq<Job>, k: nat)
    requires k < |timers|
    ensures EchoJobs(timers[..k] + timers[k + 1..]) == EchoJobs(timers) - if IsEcho(timers[k].frame) then 1 else 0
  {
    hide IsEcho, EchoJobs;
    assert timers == timers[..k] + [timers[k]] + timers[k + 1..];
    EchoJobsSplit(timers[..k] + [timers[k]], timers[k + 1..]);
    EchoJobsMore(timers[..k], timers[k]);
    EchoJobsSplit(timers[..k], timers[k + 1..]);
  }

  // ---- sending -----------------------------------------------------------------------------------

  ghost predicate Good(s: Sim) { Safe(s) && Paid(s) }

  lemma SendKeeps(s: Sim, w: Who, frame: Bytes)
    requires Safe(s) && Built(frame, s.pingSeq)
    ensures Safe(PodSend(s, w, frame))
    ensures UnderWay(PodSend(s, w, frame)) <= UnderWay(s) + if IsEcho(frame) then 1 else 0
  {
    hide Built, JobsBuilt, TableTrue, AcceptedSent, IsEcho, EchoFrames, EchoJobs;
    if |s.frames| <= MAX_HELD { EchoFramesMore(s.frames, s.nextId, Held(frame, PortOf(w))); }
  }

  lemma PingSent(s: Sim)
    requires Safe(s)
    ensures Safe(s.(pingSeq := s.pingSeq + 1)) && Built(Ping(BOB_MAC, s.pingSeq + 1), s.pingSeq + 1)
  {
    hide JobsBuilt, TableTrue, AcceptedSent, FramesBuilt, Ask, Answer, StormFrame, Ping, PongTo, IsPong;
    FramesLonger(s.frames, s.pingSeq, s.pingSeq + 1);
    JobsLonger(s.timers, s.pingSeq, s.pingSeq + 1);
    AcceptedLonger(s.accepted, s.pingSeq, s.pingSeq + 1);
  }

  lemma SecondKeeps(s: Sim, now: int)
    requires Good(s)
    ensures Good(AliceTick(s, now))
  {
    hide JobsBuilt, AcceptedSent, FramesBuilt, Ask, Answer, StormFrame, Ping, PongTo, IsPong, IsPing, EchoFrames, EchoJobs, IsEcho, PodSend;
    EchoKinds(s.pingSeq + 1);
    SentFields(s.(askedAt := now), Alice, Ask());
    if BOB_IP !in s.arp {
      SendKeeps(s.(askedAt := now), Alice, Ask());
    } else {
      PingSent(s);
      SendKeeps(s.(pingSeq := s.pingSeq + 1), Alice, Ping(BOB_MAC, s.pingSeq + 1));
      SentFields(s.(pingSeq := s.pingSeq + 1), Alice, Ping(BOB_MAC, s.pingSeq + 1));
    }
  }

  lemma SentFields(s: Sim, w: Who, frame: Bytes)
    ensures var t := PodSend(s, w, frame); t == s.(frames := t.frames, nextId := t.nextId)
  {
  }

  lemma StormKeeps(s: Sim)
    requires Good(s)
    ensures Good(PodSend(s, Alice, StormFrame()))
  {
    hide JobsBuilt, AcceptedSent, FramesBuilt, TableTrue, Ask, Answer, StormFrame, Ping, PongTo, IsPong, IsPing, EchoFrames, EchoJobs, IsEcho, PodSend;
    EchoKinds(1);
    SendKeeps(s, Alice, StormFrame());
    SentFields(s, Alice, StormFrame());
  }

  lemma RingKeeps(s: Sim, k: nat)
    requires Good(s)
    ensures Good(RingTimer(s, k))
  {
    hide AcceptedSent, FramesBuilt, TableTrue, Ask, Answer, StormFrame, Ping, PongTo, IsPong, IsPing, EchoFrames, EchoJobs, IsEcho, PodSend;
    if k < |s.timers| {
      var s1 := s.(timers := s.timers[..k] + s.timers[k + 1..]);
      EchoJobsLess(s.timers, k);
      assert JobsBuilt(s1.timers, s.pingSeq);
      assert Built(s.timers[k].frame, s.pingSeq);
      SendKeeps(s1, s.timers[k].who, s.timers[k].frame);
      SentFields(s1, s.timers[k].who, s.timers[k].frame);
    }
  }

  // ---- receiving ------------------------------------------------------------------------------------

  /** What a host may do with a built frame: nothing, learn the truth, schedule a
    * reply bob owes, or accept a number alice sent; echoes in, echoes out. */
  ghost predicate Allowed(w: Who, r: Reaction, b: Bytes, sent: nat) {
    match r
    case Nothing => true
    case Later(frame) => w == Bob && (frame == Answer() || IsPong(frame, sent)) && (IsEcho(frame) ==> IsEcho(b))
    case Learn(ip, mac) => ip == BOB_IP && mac == BOB_MAC
    case Accept(q) => IsEcho(b) && WasSent(q, sent)
  }

  lemma ReactionAllowed(w: Who, b: Bytes, sent: nat)
    requires Built(b, sent)
    ensures |b| >= 42 && Allowed(w, Receive(w, b), b, sent)
  {
    hide Ask, Answer, StormFrame, Ping, PongTo, Receive, IsEcho, AnswerTo;
    if b == Ask() {
      AskAt(w);
      EchoKinds(1);
      AnswerIs();
    } else if b == Answer() {
      AnswerAt(w);
    } else if b == StormFrame() {
      StormAt(w);
    } else if IsPing(b, sent) {
      var n: nat :| 1 <= n <= sent && b == Ping(BOB_MAC, n);
      PingAt(w, n);
      EchoKinds(n);
    } else {
      var n: nat :| 1 <= n <= sent && b == PongTo(n);
      PongAt(w, n);
      EchoKinds(n);
      assert w == Alice ==> WasSent(OnWire(n), sent);
    }
  }

  lemma AnswerIs()
    ensures Answer() == AnswerTo(Bob, ALICE_MAC, ALICE_IP)
  {
  }

  lemma ReactKeeps(s: Sim, w: Who, r: Reaction, b: Bytes)
    requires Safe(s) && Allowed(w, r, b, s.pingSeq)
    ensures Safe(React(s, w, r))
    ensures React(s, w, r).answered + UnderWay(React(s, w, r)) <= s.answered + UnderWay(s) + if IsEcho(b) then 1 else 0
    ensures React(s, w, r).pingSeq == s.pingSeq && React(s, w, r).copies == s.copies
  {
    hide FramesBuilt, Answer, IsPong, EchoFrames, EchoJobs, IsEcho;
    match r
    case Nothing =>
    case Later(frame) => EchoJobsMore(s.timers, Job(w, frame));
    case Learn(ip, mac) =>
    case Accept(q) =>
  }

  lemma ArriveKeeps(s: Sim, port: nat, b: Bytes)
    requires Safe(s) && Built(b, s.pingSeq)
    ensures Safe(Arrive(s, port, b))
    ensures Arrive(s, port, b).answered + UnderWay(Arrive(s, port, b)) <= s.answered + UnderWay(s) + if IsEcho(b) then 1 else 0
    ensures Arrive(s, port, b).pingSeq == s.pingSeq && Arrive(s, port, b).copies == s.copies
  {
    hide Safe, Built, UnderWay, IsEcho, Receive, React, Allowed;
    if HostAt(port).Some? {
      var w := HostAt(port).value;
      ReactionAllowed(w, b, s.pingSeq);
      ReactKeeps(s, w, Receive(w, b), b);
    }
  }

  lemma TakenOut(s: Sim, id: nat)
    requires Safe(s)
    ensures Safe(s.(frames := s.frames - {id}))
  {
    hide Built, JobsBuilt, TableTrue, AcceptedSent;
  }

  lemma DeliverKeeps(s: Sim, port: nat, id: nat, consume: bool)
    requires Good(s)
    ensures Good(DeliverFrame(s, port, id, consume))
  {
    hide Built, JobsBuilt, TableTrue, AcceptedSent, EchoFrames, EchoJobs, IsEcho, Arrive;
    if id in s.frames {
      var b := s.frames[id].data;
      assert Built(b, s.pingSeq);
      if consume {
        TakenOut(s, id);
        EchoFramesLess(s.frames, id);
        ArriveKeeps(s.(frames := s.frames - {id}), port, b);
      } else {
        ArriveKeeps(s.(copies := s.copies + 1), port, b);
      }
    }
  }

  lemma DropKeeps(s: Sim, id: nat)
    requires Good(s)
    ensures Good(s.(frames := s.frames - {id}))
  {
    hide Built, JobsBuilt, TableTrue, AcceptedSent, EchoFrames, EchoJobs, IsEcho;
    TakenOut(s, id);
    if id in s.frames { EchoFramesLess(s.frames, id); } else { assert s.frames - {id} == s.frames; }
  }

  lemma StartGood()
    ensures Good(START)
  {
  }

  lemma PlayKeeps(s: Sim, m: Move)
    requires Good(s)
    ensures Good(Play(s, m))
  {
    hide Good, AliceTick, PodSend, RingTimer, DeliverFrame, StormFrame;
    match m
    case Second(now) => SecondKeeps(s, now);
    case Storm => StormKeeps(s);
    case Ring(k) => RingKeeps(s, k);
    case Deliver(port, id) => DeliverKeeps(s, port, id, true);
    case CopyDeliver(port, id) => DeliverKeeps(s, port, id, false);
    case Drop(id) => DropKeeps(s, id);
  }

  lemma {:induction false} AllGood(moves: seq<Move>)
    ensures Good(PlayAll(moves))
    decreases |moves|
  {
    hide Good, Play;
    if moves == [] {
      StartGood();
    } else {
      AllGood(moves[..|moves| - 1]);
      PlayKeeps(PlayAll(moves[..|moves| - 1]), moves[|moves| - 1]);
    }
  }

  function CopiesIn(moves: seq<Move>): nat {
    if moves == [] then 0 else CopiesIn(moves[..|moves| - 1]) + if moves[|moves| - 1].CopyDeliver? then 1 else 0
  }

  lemma {:induction false} CopiesCounted(moves: seq<Move>)
    ensures PlayAll(moves).copies <= CopiesIn(moves)
    decreases |moves|
  {
    hide Receive, Ask, Ping, StormFrame;
    if moves != [] { CopiesCounted(moves[..|moves| - 1]); }
  }

  /** Under any consumer that reorders, duplicates, loses or misroutes: every frame
    * held is one the hosts built, alice's table only ever maps bob's address to
    * bob's own, she accepts no sequence number she did not send, and there are at
    * most as many answers as pings sent and copies made. */
  lemma TwoHostsStaySafe(moves: seq<Move>)
    ensures var s := PlayAll(moves);
            && (forall id :: id in s.frames ==> Built(s.frames[id].data, s.pingSeq))
            && (forall ip :: ip in s.arp ==> ip == BOB_IP && s.arp[ip] == BOB_MAC)
            && (forall k :: 0 <= k < |s.accepted| ==> WasSent(s.accepted[k], s.pingSeq))
            && |s.accepted| == s.answered <= s.pingSeq + CopiesIn(moves)
  {
    hide Built, JobsBuilt, PlayAll, CopiesIn, UnderWay;
    AllGood(moves);
    CopiesCounted(moves);
  }

  // ---- and the copies really are needed in the bound ------------------------------------------------

  lemma AskArrives(s: Sim)
    ensures Arrive(s, 2, Ask()) == s.(timers := s.timers + [Job(Bob, Answer())])
  {
    hide Ethernet, Arp, Receive, AnswerTo;
    ArpFields(BCAST, ALICE_MAC, 1, ALICE_MAC, ALICE_IP, NO_MAC, BOB_IP);
    AskAt(Bob);
  }

  lemma AnswerArrives(s: Sim)
    ensures Arrive(s, 1, Answer()) == s.(arp := s.arp[BOB_IP := BOB_MAC])
  {
    hide Ethernet, Arp, Receive;
    ArpFields(ALICE_MAC, BOB_MAC, 2, BOB_MAC, BOB_IP, ALICE_MAC, ALICE_IP);
    AnswerAt(Alice);
  }

  lemma PingArrives(s: Sim, n: nat)
    ensures Arrive(s, 2, Ping(BOB_MAC, n)) == s.(timers := s.timers + [Job(Bob, PongTo(n))])
  {
    hide Ethernet, Ipv4, Receive, PongTo, IcmpEcho;
    EchoFields(BOB_MAC, ALICE_MAC, ALICE_IP, BOB_IP, false, PING_ID, n % WORD);
    PingAt(Bob, n);
  }

  lemma PongArrives(s: Sim, n: nat)
    ensures Arrive(s, 1, PongTo(n)) == s.(answered := s.answered + 1, accepted := s.accepted + [OnWire(n)])
  {
    hide Ethernet, Ipv4, Receive, IcmpEcho;
    EchoFields(ALICE_MAC, BOB_MAC, BOB_IP, ALICE_IP, true, PING_ID, n % WORD);
    PongAt(Alice, n);
  }

  lemma PlayMore(moves: seq<Move>, m: Move)
    ensures PlayAll(moves + [m]) == Play(PlayAll(moves), m)
  {
    assert (moves + [m])[..|moves|] == moves;
  }

  function Resolving(): seq<Move> { [Second(1000)] + [Deliver(2, 1)] + [Ring(0)] + [Deliver(1, 2)] }

  function Doubling(): seq<Move> { Resolving() + [Second(2000)] + [CopyDeliver(2, 3)] + [CopyDeliver(2, 3)] + [Ring(0)] + [Ring(0)] }

  const RESOLVED := Sim(map[], 3, map[BOB_IP := BOB_MAC], 1000, 0, 0, [], 0, [])

  lemma ResolvingPlays()
    ensures PlayAll(Resolving()) == RESOLVED
  {
    hide PlayAll, Ask, Answer, Arrive, StormFrame;
    assert PlayAll([]) == START by { PlayNone(); }
    PlayMore([], Second(1000));
    assert [] + [Second(1000)] == [Second(1000)];
    var s1 := START.(askedAt := 1000, frames := map[1 := Held(Ask(), 1)], nextId := 2);
    assert PlayAll([Second(1000)]) == s1;
    PlayMore([Second(1000)], Deliver(2, 1));
    assert s1.frames - {1} == map[];
    AskArrives(s1.(frames := map[]));
    var s2 := s1.(frames := map[], timers := [Job(Bob, Answer())]);
    assert PlayAll([Second(1000)] + [Deliver(2, 1)]) == s2;
    PlayMore([Second(1000)] + [Deliver(2, 1)], Ring(0));
    var s3 := s2.(timers := [], frames := map[2 := Held(Answer(), 2)], nextId := 3);
    assert PlayAll([Second(1000)] + [Deliver(2, 1)] + [Ring(0)]) == s3;
    PlayMore([Second(1000)] + [Deliver(2, 1)] + [Ring(0)], Deliver(1, 2));
    assert s3.frames - {2} == map[];
    AnswerArrives(s3.(frames := map[]));
  }

  lemma PlayNone()
    ensures PlayAll([]) == START
  {
  }

  lemma DoublingPlays()
    ensures var s := PlayAll(Doubling());
            && s == RESOLVED.(pingSeq := 1, copies := 2, askedAt := 1000, nextId := 6, frames := s.frames)
            && s.frames == map[3 := Held(Ping(BOB_MAC, 1), 1), 4 := Held(PongTo(1), 2), 5 := Held(PongTo(1), 2)]
  {
    hide PlayAll, Ping, PongTo, Arrive, StormFrame, Resolving, Ask;
    ResolvingPlays();
    var m0 := Resolving();
    var m1 := m0 + [Second(2000)];
    var m2 := m1 + [CopyDeliver(2, 3)];
    var m3 := m2 + [CopyDeliver(2, 3)];
    var m4 := m3 + [Ring(0)];
    PlayMore(m0, Second(2000));
    PlayMore(m1, CopyDeliver(2, 3));
    PlayMore(m2, CopyDeliver(2, 3));
    PlayMore(m3, Ring(0));
    PlayMore(m4, Ring(0));
    var s1 := RESOLVED.(pingSeq := 1, nextId := 4, frames := map[3 := Held(Ping(BOB_MAC, 1), 1)]);
    assert PlayAll(m1) == s1;
    PingArrives(s1.(copies := 1), 1);
    var s2 := s1.(copies := 1, timers := [Job(Bob, PongTo(1))]);
    assert PlayAll(m2) == s2;
    PingArrives(s2.(copies := 2), 1);
    var s3 := s2.(copies := 2, timers := [Job(Bob, PongTo(1)), Job(Bob, PongTo(1))]);
    assert PlayAll(m3) == s3;
    assert s3.timers[..0] + s3.timers[1..] == [Job(Bob, PongTo(1))];
    var s4 := s3.(timers := [Job(Bob, PongTo(1))], nextId := 5, frames := map[3 := Held(Ping(BOB_MAC, 1), 1), 4 := Held(PongTo(1), 2)]);
    assert PlayAll(m4) == s4;
    assert s4.timers[..0] + s4.timers[1..] == [];
  }

  // ---- what is in the buffer ----------------------------------------------------------------

  /** The moves that take a frame out. */
  predicate TakesOut(m: Move, id: nat) { (m.Deliver? || m.Drop?) && m.id == id }

  lemma SentHolds(s: Sim, w: Who, frame: Bytes, id: nat)
    requires id < s.nextId
    ensures var t := PodSend(s, w, frame);
            id < t.nextId && (id in t.frames <==> id in s.frames) && (id in s.frames ==> t.frames[id] == s.frames[id])
  {
  }

  lemma ArriveHolds(s: Sim, port: nat, b: Bytes)
    ensures Arrive(s, port, b).frames == s.frames && Arrive(s, port, b).nextId == s.nextId
  {
    hide Receive, Takes;
  }

  /** One move keeps a frame as it is, unless it takes it out. */
  lemma MoveHolds(s: Sim, m: Move, id: nat)
    requires id < s.nextId
    ensures var t := Play(s, m);
            && id < t.nextId && (id in t.frames <==> id in s.frames && !TakesOut(m, id))
            && (id in t.frames ==> t.frames[id] == s.frames[id])
  {
    hide PodSend, Arrive, Ask, Ping, StormFrame;
    match m
    case Second(now) =>
      if BOB_IP !in s.arp {
        SentHolds(s.(askedAt := now), Alice, Ask(), id);
      } else {
        SentHolds(s.(pingSeq := s.pingSeq + 1), Alice, Ping(s.arp[BOB_IP], s.pingSeq + 1), id);
      }
    case Storm => SentHolds(s, Alice, StormFrame(), id);
    case Ring(k) =>
      if k < |s.timers| {
        SentHolds(s.(timers := s.timers[..k] + s.timers[k + 1..]), s.timers[k].who, s.timers[k].frame, id);
      }
    case Deliver(port, i) =>
      if i in s.frames { ArriveHolds(s.(frames := s.frames - {i}), port, s.frames[i].data); }
    case CopyDeliver(port, i) =>
      if i in s.frames { ArriveHolds(s.(copies := s.copies + 1), port, s.frames[i].data); }
    case Drop(i) =>
  }

  /** A frame once sent stays in the buffer, as it was, until it is delivered or dropped,
    * and from then on no frame ever has its number again. */
  lemma {:induction false} HeldUntilTakenOut(moves: seq<Move>, more: seq<Move>, id: nat)
    requires id in PlayAll(moves).frames
    ensures var s, t := PlayAll(moves), PlayAll(moves + more);
            && id < t.nextId
            && (id in t.frames <==> forall k :: 0 <= k < |more| ==> !TakesOut(more[k], id))
            && (id in t.frames ==> t.frames[id] == s.frames[id])
    decreases |more|
  {
    hide PlayAll, Play, Good;
    if more == [] {
      AllGood(moves);
      NumbersBelow(PlayAll(moves), id);
      assert moves + more == moves;
    } else {
      var front, m := more[..|more| - 1], more[|more| - 1];
      HeldUntilTakenOut(moves, front, id);
      assert moves + more == (moves + front) + [m];
      PlayMore(moves + front, m);
      MoveHolds(PlayAll(moves + front), m, id);
      assert more == front + [m];
    }
  }

  lemma NumbersBelow(s: Sim, id: nat)
    requires Good(s) && id in s.frames
    ensures id < s.nextId
  {
  }

  /** One ping copied to bob twice is answered twice: without the copies the bound
    * would fail. */
  lemma CopiesCanOutnumberPings()
    ensures var s := PlayAll(Doubling() + [Deliver(1, 4)] + [Deliver(1, 5)]);
            s.pingSeq == 1 && s.answered == 2
  {
    hide PlayAll, Ping, PongTo, Arrive, StormFrame, Doubling, Ask;
    DoublingPlays();
    PlayMore(Doubling(), Deliver(1, 4));
    PlayMore(Doubling() + [Deliver(1, 4)], Deliver(1, 5));
    var s := PlayAll(Doubling());
    PongArrives(s.(frames := s.frames - {4}), 1);
    var t := PlayAll(Doubling() + [Deliver(1, 4)]);
    PongArrives(t.(frames := t.frames - {5}), 1);
  }
}
