/** The simulator's two hosts and its frame buffer: alice resolves bob by ARP and
  * pings him once a second, under a consumer that may do anything at all. */
module TwoHosts {
  import opened Basics
  import opened InternetChecksum
  import opened Frames

  datatype Who = Alice | Bob

  const ALICE_MAC: Mac := [0x0a, 0x58, 0x0a, 0xf4, 0x00, 0x0a]
  const BOB_MAC: Mac := [0x0a, 0x58, 0x0a, 0xf4, 0x00, 0x0b]
  const ALICE_IP: Ip := [10, 244, 0, 10]
  const BOB_IP: Ip := [10, 244, 0, 11]
  const NO_MAC: Mac := [0, 0, 0, 0, 0, 0]
  const PING_ID: nat := 0x1d42
  const MAX_HELD: nat := 8192

  function MacOf(w: Who): Mac { if w == Alice then ALICE_MAC else BOB_MAC }

  function IpOf(w: Who): Ip { if w == Alice then ALICE_IP else BOB_IP }

  function PortOf(w: Who): nat { if w == Alice then 1 else 2 }

  /** Whose port it is. */
  function HostAt(port: nat): Option<Who> { if port == 1 then Some(Alice) else if port == 2 then Some(Bob) else None }

  // ---- frames the hosts build -----------------------------------------------------------

  function Ask(): Bytes { Ethernet(BCAST, ALICE_MAC, ETH_ARP, Arp(1, ALICE_MAC, ALICE_IP, NO_MAC, BOB_IP)) }

  function AnswerTo(w: Who, sha: Mac, spa: Ip): Bytes { Ethernet(sha, MacOf(w), ETH_ARP, Arp(2, MacOf(w), IpOf(w), sha, spa)) }

  function Ping(to: Mac, n: nat): Bytes {
    Ethernet(to, ALICE_MAC, ETH_IP4, Ipv4(ALICE_IP, BOB_IP, ICMP, IcmpEcho(false, PING_ID, n % WORD, 24)))
  }

  function Pong(w: Who, to: Mac, dst: Ip, id: nat, n: nat): Bytes {
    Ethernet(to, MacOf(w), ETH_IP4, Ipv4(IpOf(w), dst, ICMP, IcmpEcho(true, id, n, 24)))
  }

  function StormFrame(): Bytes {
    Ethernet(BOB_MAC, ALICE_MAC, ETH_IP4, Ipv4(ALICE_IP, BOB_IP, UDP, Udp(5004, 5004, 1372)))
  }

  // ---- a host's kernel ---------------------------------------------------------------------

  datatype Reaction = Nothing | Later(frame: Bytes) | Learn(ip: Ip, mac: Mac) | Accept(seqNo: nat)

  /** The network card takes frames for its own address or for everyone. */
  predicate Takes(w: Who, b: Bytes)
    requires |b| >= 42
  {
    b[0..6] == MacOf(w) || b[0..6] == BCAST
  }

  function ReceiveArp(w: Who, b: Bytes): Reaction
    requires |b| >= 42
  {
    if U16(b, 20) == 1 && b[38..42] == IpOf(w) then Later(AnswerTo(w, b[22..28], b[28..32]))
    else if U16(b, 20) == 2 && w == Alice then Learn(b[28..32], b[22..28])
    else Nothing
  }

  function ReceiveIp(w: Who, b: Bytes): Reaction
    requires |b| >= 42
  {
    var l4 := 14 + HeaderLen(b);
    if b[30..34] != IpOf(w) || b[23] != ICMP || |b| < l4 + 8 then Nothing
    else if b[l4] == 8 then Later(Pong(w, b[6..12], b[26..30], U16(b, l4 + 4), U16(b, l4 + 6)))
    else if b[l4] == 0 && w == Alice then Accept(U16(b, l4 + 6))
    else Nothing
  }

  function Receive(w: Who, b: Bytes): Reaction
    requires |b| >= 42
  {
    if U16(b, 12) == ETH_ARP then ReceiveArp(w, b)
    else if U16(b, 12) == ETH_IP4 then ReceiveIp(w, b)
    else Nothing
  }

  // ---- the bridge -----------------------------------------------------------------------------

  datatype Held = Held(data: Bytes, port: nat)

  /** A reply its host will send when a timer fires. */
  datatype Job = Job(who: Who, frame: Bytes)

  /** `copies` and `accepted` are history. */
  datatype Sim = Sim(frames: map<nat, Held>, nextId: nat, arp: map<Ip, Mac>, askedAt: int, pingSeq: nat, answered: nat,
                     timers: seq<Job>, copies: nat, accepted: seq<nat>)

  const START := Sim(map[], 1, map[], 0, 0, 0, [], 0, [])

  datatype Move =
    | Second(now: int)
    | Storm
    | Ring(k: nat)
    | Deliver(port: nat, id: nat)
    | CopyDeliver(port: nat, id: nat)
    | Drop(id: nat)

  /** A host transmits, unless the buffer is over its limit. */
  function PodSend(s: Sim, w: Who, frame: Bytes): Sim {
    if |s.frames| > MAX_HELD then s
    else s.(frames := s.frames[s.nextId := Held(frame, PortOf(w))], nextId := s.nextId + 1)
  }

  function AliceTick(s: Sim, now: int): Sim {
    if BOB_IP !in s.arp then
      if now - s.askedAt >= 1000 then PodSend(s.(askedAt := now), Alice, Ask()) else s
    else PodSend(s.(pingSeq := s.pingSeq + 1), Alice, Ping(s.arp[BOB_IP], s.pingSeq + 1))
  }

  function React(s: Sim, w: Who, r: Reaction): Sim {
    match r
    case Nothing => s
    case Later(frame) => s.(timers := s.timers + [Job(w, frame)])
    case Learn(ip, mac) => s.(arp := s.arp[ip := mac])
    case Accept(n) => s.(answered := s.answered + 1, accepted := s.accepted + [n])
  }

  /** What the frame does at the host it is handed to, if there is one there. Every
    * frame held is one the hosts built, and none is shorter than an ARP frame. */
  function Arrive(s: Sim, port: nat, b: Bytes): Sim {
    match HostAt(port)
    case None => s
    case Some(w) => if |b| >= 42 && Takes(w, b) then React(s, w, Receive(w, b)) else s
  }

  function DeliverFrame(s: Sim, port: nat, id: nat, consume: bool): Sim {
    if id !in s.frames then s else
    var s1 := if consume then s.(frames := s.frames - {id}) else s.(copies := s.copies + 1);
    Arrive(s1, port, s.frames[id].data)
  }

  function RingTimer(s: Sim, k: nat): Sim {
    if k >= |s.timers| then s
    else PodSend(s.(timers := s.timers[..k] + s.timers[k + 1..]), s.timers[k].who, s.timers[k].frame)
  }

  function Play(s: Sim, m: Move): Sim {
    match m
    case Second(now) => AliceTick(s, now)
    case Storm => PodSend(s, Alice, StormFrame())
    case Ring(k) => RingTimer(s, k)
    case Deliver(port, id) => DeliverFrame(s, port, id, true)
    case CopyDeliver(port, id) => DeliverFrame(s, port, id, false)
    case Drop(id) => s.(frames := s.frames - {id})
  }

  function PlayAll(moves: seq<Move>): Sim {
    if moves == [] then START else Play(PlayAll(moves[..|moves| - 1]), moves[|moves| - 1])
  }

  // ---- what each frame does at each host ---------------------------------------------------------

  /** An ARP frame's fields, where a receiver reads them. */
  lemma ArpFields(dst: Mac, src: Mac, oper: byte, sha: Mac, spa: Ip, tha: Mac, tpa: Ip)
    ensures var b := Ethernet(dst, src, ETH_ARP, Arp(oper, sha, spa, tha, tpa));
            && |b| == 42 && b[0..6] == dst && U16(b, 12) == ETH_ARP && U16(b, 20) == oper as nat
            && b[22..28] == sha && b[28..32] == spa && b[38..42] == tpa
  {
    hide Ethernet, Arp;
    var p := Arp(oper, sha, spa, tha, tpa);
    var b := Ethernet(dst, src, ETH_ARP, p);
    EthernetParts(dst, src, ETH_ARP, p);
    ArpParts(oper, sha, spa, tha, tpa);
    Slice(b, 14, 8, 14);
    Slice(b, 14, 14, 18);
    Slice(b, 14, 24, 28);
    assert b[20] == b[14..][6] && b[21] == b[14..][7];
  }

  lemma AskAt(w: Who)
    ensures |Ask()| >= 42 && Receive(w, Ask()) == if w == Bob then Later(AnswerTo(Bob, ALICE_MAC, ALICE_IP)) else Nothing
  {
    hide Ethernet, Arp;
    ArpFields(BCAST, ALICE_MAC, 1, ALICE_MAC, ALICE_IP, NO_MAC, BOB_IP);
  }

  /** Bob's answer, the only ARP reply there is. */
  function Answer(): Bytes { AnswerTo(Bob, ALICE_MAC, ALICE_IP) }

  lemma AnswerAt(w: Who)
    ensures |Answer()| >= 42 && Receive(w, Answer()) == if w == Alice then Learn(BOB_IP, BOB_MAC) else Nothing
  {
    hide Ethernet, Arp;
    ArpFields(ALICE_MAC, BOB_MAC, 2, BOB_MAC, BOB_IP, ALICE_MAC, ALICE_IP);
  }

  /** An IP frame's fields, where a receiver reads them. */
  lemma EchoFields(dst: Mac, srcMac: Mac, src: Ip, to: Ip, reply: bool, id: nat, n: nat)
    requires id < WORD && n < WORD
    ensures var b := Ethernet(dst, srcMac, ETH_IP4, Ipv4(src, to, ICMP, IcmpEcho(reply, id, n, 24)));
            && |b| == 66 && b[0..6] == dst && b[6..12] == srcMac && U16(b, 12) == ETH_IP4 && HeaderLen(b) == 20
            && b[23] == ICMP && b[26..30] == src && b[30..34] == to
            && b[34] == (if reply then 0 else 8) && U16(b, 38) == id && U16(b, 40) == n
  {
    hide Ethernet, Ipv4, IcmpEcho;
    var p := IcmpEcho(reply, id, n, 24);
    var b := Ethernet(dst, srcMac, ETH_IP4, Ipv4(src, to, ICMP, p));
    IpFrameParts(dst, srcMac, src, to, ICMP, p);
    EchoParts(reply, id, n, 24);
    assert b[34] == b[34..][0] && b[38] == b[34..][4] && b[39] == b[34..][5] && b[40] == b[34..][6] && b[41] == b[34..][7];
  }

  /** A ping is an echo request from 10.244.0.10 to 10.244.0.11 under alice's own number. */
  lemma PingTold(n: nat)
    ensures var b := Ping(BOB_MAC, n);
            && |b| == 66 && b[0..6] == [0x0a, 0x58, 0x0a, 0xf4, 0x00, 0x0b] && b[6..12] == [0x0a, 0x58, 0x0a, 0xf4, 0x00, 0x0a]
            && b[26..30] == [10, 244, 0, 10] && b[30..34] == [10, 244, 0, 11]
            && b[34] == 8 && U16(b, 38) == 0x1d42 && U16(b, 40) == n % 0x1_0000
  {
    hide Ethernet, Ipv4, IcmpEcho, HeaderLen;
    EchoFields(BOB_MAC, ALICE_MAC, ALICE_IP, BOB_IP, false, PING_ID, n % WORD);
  }

  /** Bob's reply to ping `n`. */
  function PongTo(n: nat): Bytes { Pong(Bob, ALICE_MAC, ALICE_IP, PING_ID, n % WORD) }

  lemma PingAt(w: Who, n: nat)
    ensures |Ping(BOB_MAC, n)| >= 42 && Receive(w, Ping(BOB_MAC, n)) == if w == Bob then Later(PongTo(n)) else Nothing
  {
    hide Ethernet, Ipv4, IcmpEcho, HeaderLen;
    EchoFields(BOB_MAC, ALICE_MAC, ALICE_IP, BOB_IP, false, PING_ID, n % WORD);
  }

  lemma PongAt(w: Who, n: nat)
    ensures |PongTo(n)| >= 42 && Receive(w, PongTo(n)) == if w == Alice then Accept(n % WORD) else Nothing
  {
    hide Ethernet, Ipv4, IcmpEcho, HeaderLen;
    EchoFields(ALICE_MAC, BOB_MAC, BOB_IP, ALICE_IP, true, PING_ID, n % WORD);
  }

  lemma StormAt(w: Who)
    ensures |StormFrame()| >= 42 && Receive(w, StormFrame()) == Nothing
  {
    hide Ethernet, Ipv4, Udp;
    IpFrameParts(BOB_MAC, ALICE_MAC, ALICE_IP, BOB_IP, UDP, Udp(5004, 5004, 1372));
    UdpParts(5004, 5004, 1372);
  }

  // ---- what every run keeps ---------------------------------------------------------------------------

  /** The frame is a ping alice sent, or bob's reply to one. */
  ghost predicate IsPing(b: Bytes, sent: nat) { exists n: nat :: 1 <= n <= sent && b == Ping(BOB_MAC, n) }

  ghost predicate IsPong(b: Bytes, sent: nat) { exists n: nat :: 1 <= n <= sent && b == PongTo(n) }

  /** One of the frames the two hosts build, and nothing else. */
  ghost predicate Built(b: Bytes, sent: nat) {
    b == Ask() || b == Answer() || b == StormFrame() || IsPing(b, sent) || IsPong(b, sent)
  }

  ghost predicate FramesBuilt(frames: map<nat, Held>, sent: nat) {
    forall id :: id in frames ==> Built(frames[id].data, sent)
  }

  ghost predicate JobsBuilt(timers: seq<Job>, sent: nat) {
    forall k :: 0 <= k < |timers| ==> timers[k].who == Bob && (timers[k].frame == Answer() || IsPong(timers[k].frame, sent))
  }

  /** Alice's table holds nothing but the truth. */
  ghost predicate TableTrue(arp: map<Ip, Mac>) { forall ip :: ip in arp ==> ip == BOB_IP && arp[ip] == BOB_MAC }

  /** The number as it goes on the wire. */
  function OnWire(n: nat): nat { n % WORD }

  /** A sequence number alice has sent. */
  ghost predicate WasSent(q: nat, sent: nat) { exists n: nat :: 1 <= n <= sent && q == OnWire(n) }

  ghost predicate AcceptedSent(accepted: seq<nat>, sent: nat) {
    forall k :: 0 <= k < |accepted| ==> WasSent(accepted[k], sent)
  }

  ghost predicate Safe(s: Sim) {
    && FramesBuilt(s.frames, s.pingSeq)
    && JobsBuilt(s.timers, s.pingSeq)
    && TableTrue(s.arp)
    && AcceptedSent(s.accepted, s.pingSeq)
    && |s.accepted| == s.answered
    && (forall id :: id in s.frames ==> id < s.nextId)
  }
}
