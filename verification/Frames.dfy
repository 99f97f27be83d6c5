/** Ethernet, ARP, IPv4, ICMP and UDP frames: the simulator's builders and the
  * header decoder every consumer uses. */
module Frames {
  import opened Basics
  import opened InternetChecksum
  import opened LoftCore

  type Mac = m: Bytes | |m| == 6 witness [0, 0, 0, 0, 0, 0]
  type Ip = a: Bytes | |a| == 4 witness [0, 0, 0, 0]

  const ETH_ARP: nat := 0x0806
  const ETH_IP4: nat := 0x0800
  const ICMP: byte := 1
  const TCP: byte := 6
  const UDP: byte := 17

  const BCAST: Mac := [0xff, 0xff, 0xff, 0xff, 0xff, 0xff]

  function Hi(w: nat): byte { ((w / 256) % 256) as byte }

  function Lo(w: nat): byte { (w % 256) as byte }

  function U16(b: Bytes, off: nat): nat
    requires off + 2 <= |b|
  {
    b[off] as nat * 256 + b[off + 1] as nat
  }

  lemma WordBytes(w: nat)
    requires w < WORD
    ensures Hi(w) as nat * 256 + Lo(w) as nat == w
  {
  }

  // ---- builders --------------------------------------------------------------------------

  function Ethernet(dst: Mac, src: Mac, etherType: nat, payload: Bytes): Bytes {
    dst + src + [Hi(etherType), Lo(etherType)] + payload
  }

  function Arp(oper: byte, sha: Mac, spa: Ip, tha: Mac, tpa: Ip): (b: Bytes)
    ensures |b| == 28
  {
    [0, 1, 8, 0, 6, 4, 0, oper] + sha + spa + tha + tpa
  }

  /** The header before its checksum goes in. */
  function Ipv4Blank(src: Ip, dst: Ip, proto: byte, len: nat): (b: Bytes)
    ensures |b| == 20
  {
    [0x45, 0, Hi(20 + len), Lo(20 + len), 0, 0, 0x40, 0, 64, proto, 0, 0] + src + dst
  }

  function Ipv4Header(src: Ip, dst: Ip, proto: byte, len: nat): (b: Bytes)
    ensures |b| == 20
  {
    var hdr := Ipv4Blank(src, dst, proto, len);
    Store(hdr, 10, Checksum(hdr))
  }

  function Ipv4(src: Ip, dst: Ip, proto: byte, payload: Bytes): Bytes { Ipv4Header(src, dst, proto, |payload|) + payload }

  function Letters(n: nat): (b: Bytes)
    ensures |b| == n
  {
    if n == 0 then [] else Letters(n - 1) + [(0x61 + (n - 1) % 26) as byte]
  }

  function EchoBlank(reply: bool, id: nat, seqNo: nat, payloadLen: nat): Bytes {
    [if reply then 0 else 8, 0, 0, 0, Hi(id), Lo(id), Hi(seqNo), Lo(seqNo)] + Letters(payloadLen)
  }

  function IcmpEcho(reply: bool, id: nat, seqNo: nat, payloadLen: nat): Bytes {
    var pkt := EchoBlank(reply, id, seqNo, payloadLen);
    Store(pkt, 2, Checksum(pkt))
  }

  function Counting(n: nat): (b: Bytes)
    ensures |b| == n
  {
    if n == 0 then [] else Counting(n - 1) + [((n - 1) % 256) as byte]
  }

  function Udp(srcPort: nat, dstPort: nat, payloadLen: nat): Bytes {
    var len := 8 + payloadLen;
    [Hi(srcPort), Lo(srcPort), Hi(dstPort), Lo(dstPort), Hi(len), Lo(len), 0, 0]
    + Counting(if payloadLen <= 40 then payloadLen else 40)
  }

  // ---- the builders' loops -------------------------------------------------------------------

  method BuildIpv4(src: Ip, dst: Ip, proto: byte, payload: Bytes) returns (b: Bytes)
    ensures b == Ipv4(src, dst, proto, payload)
  {
    hide Fold, WordSum;
    var hdr := Ipv4Blank(src, dst, proto, |payload|);
    var ck := Compute(hdr);
    hdr := hdr[10 := (ck / 256) as byte];
    hdr := hdr[11 := (ck % 256) as byte];
    b := hdr + payload;
  }

  method BuildEcho(reply: bool, id: nat, seqNo: nat, payloadLen: nat) returns (pkt: Bytes)
    requires payloadLen < 0x1_0000
    ensures pkt == IcmpEcho(reply, id, seqNo, payloadLen)
  {
    hide Fold, WordSum;
    pkt := [if reply then 0 else 8, 0, 0, 0, Hi(id), Lo(id), Hi(seqNo), Lo(seqNo)];
    ghost var head := pkt;
    for i := 0 to payloadLen
      invariant pkt == head + Letters(i)
    {
      pkt := pkt + [(0x61 + i % 26) as byte];
    }
    var ck := Compute(pkt);
    pkt := pkt[2 := (ck / 256) as byte];
    pkt := pkt[3 := (ck % 256) as byte];
  }

  method BuildUdp(srcPort: nat, dstPort: nat, payloadLen: nat) returns (pkt: Bytes)
    ensures pkt == Udp(srcPort, dstPort, payloadLen)
  {
    var len := 8 + payloadLen;
    pkt := [Hi(srcPort), Lo(srcPort), Hi(dstPort), Lo(dstPort), Hi(len), Lo(len), 0, 0];
    ghost var head := pkt;
    var n := if payloadLen <= 40 then payloadLen else 40;
    for i := 0 to n
      invariant pkt == head + Counting(i)
    {
      pkt := pkt + [(i % 256) as byte];
    }
  }

  // ---- checksums in built frames -----------------------------------------------------------

  /** Every header built carries a sum that verifies. */
  lemma Ipv4HeaderVerifies(src: Ip, dst: Ip, proto: byte, len: nat)
    ensures Verifies(Ipv4Header(src, dst, proto, len))
  {
    hide Fold, WordSum, Store;
    StoredVerifies(Ipv4Blank(src, dst, proto, len), 10);
  }

  lemma IcmpEchoVerifies(reply: bool, id: nat, seqNo: nat, payloadLen: nat)
    ensures Verifies(IcmpEcho(reply, id, seqNo, payloadLen))
  {
    hide Fold, WordSum, Store, Letters;
    StoredVerifies(EchoBlank(reply, id, seqNo, payloadLen), 2);
  }

  // ---- the decoder -----------------------------------------------------------------------------

  datatype Kind = ArpRequest | ArpReply | IcmpEchoRequest | IcmpEchoReply | IcmpOther | TcpSegment | UdpDatagram | Other

  datatype IpPart = IpPart(src: Bytes, dst: Bytes, proto: byte, ttl: byte)
  datatype ArpPart = ArpPart(oper: nat, sha: Bytes, spa: Bytes, tha: Bytes, tpa: Bytes)
  datatype IcmpPart = IcmpPart(kind: byte, id: nat, seqNo: nat)
  datatype L4Part = L4Part(src: nat, dst: nat, flags: byte)

  datatype Decoded = Decoded(kind: Kind, broadcast: bool, dstMac: Option<Bytes>, srcMac: Option<Bytes>, etherType: nat, len: nat,
                             arp: Option<ArpPart>, ip: Option<IpPart>, icmp: Option<IcmpPart>, l4: Option<L4Part>)

  function Blank(fullLen: nat): Decoded { Decoded(Other, false, None, None, 0, fullLen, None, None, None, None) }

  function DecodeArp(b: Bytes, out: Decoded): Decoded
    requires |b| >= 42
  {
    var oper := U16(b, 20);
    out.(arp := Some(ArpPart(oper, b[22..28], b[28..32], b[32..38], b[38..42])),
         kind := if oper == 1 then ArpRequest else ArpReply)
  }

  function HeaderLen(b: Bytes): nat
    requires |b| >= 15
  {
    (b[14] % 16) as nat * 4
  }

  function IcmpKind(t: byte): Kind { if t == 8 then IcmpEchoRequest else if t == 0 then IcmpEchoReply else IcmpOther }

  function DecodeIp(b: Bytes, out: Decoded): Decoded
    requires |b| >= 34
  {
    var l4, proto := 14 + HeaderLen(b), b[23];
    var out1 := out.(ip := Some(IpPart(b[26..30], b[30..34], proto, b[22])));
    if proto == ICMP && |b| >= l4 + 8 then
      out1.(icmp := Some(IcmpPart(b[l4], U16(b, l4 + 4), U16(b, l4 + 6))), kind := IcmpKind(b[l4]))
    else if proto == TCP && |b| >= l4 + 14 then
      out1.(l4 := Some(L4Part(U16(b, l4), U16(b, l4 + 2), b[l4 + 13])), kind := TcpSegment)
    else if proto == UDP && |b| >= l4 + 8 then
      out1.(l4 := Some(L4Part(U16(b, l4), U16(b, l4 + 2), 0)), kind := UdpDatagram)
    else out1
  }

  function Decode(b: Bytes, fullLen: nat): Decoded {
    if |b| < 14 then Blank(fullLen) else
    var out := Blank(fullLen).(dstMac := Some(b[0..6]), srcMac := Some(b[6..12]), broadcast := b[0..6] == BCAST, etherType := U16(b, 12));
    if out.etherType == ETH_ARP && |b| >= 42 then DecodeArp(b, out)
    else if out.etherType == ETH_IP4 && |b| >= 34 then DecodeIp(b, out)
    else out
  }

  /** The decoder as it runs: one result filled in field by field. */
  method DecodeFrame(b: Bytes, fullLen: nat) returns (out: Decoded)
    ensures out == Decode(b, fullLen)
  {
    out := Blank(fullLen);
    if |b| < 14 { return; }
    out := out.(dstMac := Some(b[0..6]));
    out := out.(srcMac := Some(b[6..12]));
    out := out.(broadcast := out.dstMac == Some(BCAST));
    out := out.(etherType := U16(b, 12));
    if out.etherType == ETH_ARP && |b| >= 42 {
      var oper := U16(b, 20);
      out := out.(arp := Some(ArpPart(oper, b[22..28], b[28..32], b[32..38], b[38..42])));
      if oper == 1 { out := out.(kind := ArpRequest); } else { out := out.(kind := ArpReply); }
      return;
    }
    if out.etherType == ETH_IP4 && |b| >= 34 {
      var ihl, proto := (b[14] % 16) as nat * 4, b[23];
      out := out.(ip := Some(IpPart(b[26..30], b[30..34], proto, b[22])));
      var l4 := 14 + ihl;
      if proto == ICMP && |b| >= l4 + 8 {
        out := out.(icmp := Some(IcmpPart(b[l4], U16(b, l4 + 4), U16(b, l4 + 6))));
        if b[l4] == 8 { out := out.(kind := IcmpEchoRequest); }
        else if b[l4] == 0 { out := out.(kind := IcmpEchoReply); }
        else { out := out.(kind := IcmpOther); }
        return;
      }
      if proto == TCP && |b| >= l4 + 14 {
        out := out.(kind := TcpSegment, l4 := Some(L4Part(U16(b, l4), U16(b, l4 + 2), b[l4 + 13])));
        return;
      }
      if proto == UDP && |b| >= l4 + 8 {
        out := out.(kind := UdpDatagram, l4 := Some(L4Part(U16(b, l4), U16(b, l4 + 2), 0)));
      }
    }
  }

  // ---- round trips -------------------------------------------------------------------------------

  lemma EthernetParts(dst: Mac, src: Mac, etherType: nat, payload: Bytes)
    requires etherType < WORD
    ensures var b := Ethernet(dst, src, etherType, payload);
            && |b| == 14 + |payload|
            && b[0..6] == dst && b[6..12] == src && U16(b, 12) == etherType && b[14..] == payload
  {
    WordBytes(etherType);
  }

  lemma ArpParts(oper: byte, sha: Mac, spa: Ip, tha: Mac, tpa: Ip)
    ensures var p := Arp(oper, sha, spa, tha, tpa);
            && U16(p, 0) == 1 && U16(p, 2) == ETH_IP4 && p[4] == 6 && p[5] == 4 && U16(p, 6) == oper as nat
            && p[8..14] == sha && p[14..18] == spa && p[18..24] == tha && p[24..28] == tpa
  {
  }

  lemma Slice(b: Bytes, k: nat, i: nat, j: nat)
    requires k <= |b| && i <= j && k + j <= |b|
    ensures b[k + i..k + j] == b[k..][i..j]
  {
  }

  /** The decoder reads back every field of every ARP frame the builder makes. */
  lemma ArpRoundTrip(dst: Mac, src: Mac, oper: byte, sha: Mac, spa: Ip, tha: Mac, tpa: Ip, fullLen: nat)
    ensures Decode(Ethernet(dst, src, ETH_ARP, Arp(oper, sha, spa, tha, tpa)), fullLen)
         == Decoded(if oper == 1 then ArpRequest else ArpReply, dst == BCAST, Some(dst), Some(src), ETH_ARP, fullLen,
                    Some(ArpPart(oper as nat, sha, spa, tha, tpa)), None, None, None)
  {
    hide Ethernet, Arp;
    var p := Arp(oper, sha, spa, tha, tpa);
    var b := Ethernet(dst, src, ETH_ARP, p);
    EthernetParts(dst, src, ETH_ARP, p);
    ArpParts(oper, sha, spa, tha, tpa);
    Slice(b, 14, 8, 14);
    Slice(b, 14, 14, 18);
    Slice(b, 14, 18, 24);
    Slice(b, 14, 24, 28);
    assert b[20] == b[14..][6] && b[21] == b[14..][7];
  }

  lemma HeaderParts(src: Ip, dst: Ip, proto: byte, len: nat)
    ensures var h := Ipv4Header(src, dst, proto, len);
            && h[0] == 0x45 && h[1] == 0 && U16(h, 4) == 0 && h[6] == 0x40 && h[7] == 0 && h[8] == 64 && h[9] == proto && h[12..16] == src && h[16..20] == dst
            && (20 + len < WORD ==> U16(h, 2) == 20 + len)
  {
    hide Checksum;
    if 20 + len < WORD { WordBytes(20 + len); }
  }

  lemma IpFrameParts(dstMac: Mac, srcMac: Mac, src: Ip, dst: Ip, proto: byte, payload: Bytes)
    ensures var b := Ethernet(dstMac, srcMac, ETH_IP4, Ipv4(src, dst, proto, payload));
            && |b| == 34 + |payload| && HeaderLen(b) == 20 && b[23] == proto && b[22] == 64
            && b[26..30] == src && b[30..34] == dst && b[34..] == payload
            && b[0..6] == dstMac && b[6..12] == srcMac && U16(b, 12) == ETH_IP4
  {
    hide Ethernet, Ipv4Header;
    var h := Ipv4Header(src, dst, proto, |payload|);
    var b := Ethernet(dstMac, srcMac, ETH_IP4, h + payload);
    EthernetParts(dstMac, srcMac, ETH_IP4, h + payload);
    HeaderParts(src, dst, proto, |payload|);
    assert b[14] == b[14..][0] && b[22] == b[14..][8] && b[23] == b[14..][9];
    Slice(b, 14, 12, 16);
    Slice(b, 14, 16, 20);
    assert (h + payload)[12..16] == h[12..16] && (h + payload)[16..20] == h[16..20];
    assert b[34..] == b[14..][20..] == payload;
  }

  lemma EchoParts(reply: bool, id: nat, seqNo: nat, payloadLen: nat)
    requires id < WORD && seqNo < WORD
    ensures var p := IcmpEcho(reply, id, seqNo, payloadLen);
            && |p| == 8 + payloadLen && p[0] == (if reply then 0 else 8) && U16(p, 4) == id && U16(p, 6) == seqNo
  {
    hide Checksum, Letters;
    WordBytes(id);
    WordBytes(seqNo);
  }

  /** Likewise every echo request and reply. */
  lemma EchoRoundTrip(dstMac: Mac, srcMac: Mac, src: Ip, dst: Ip, reply: bool, id: nat, seqNo: nat, payloadLen: nat, fullLen: nat)
    requires id < WORD && seqNo < WORD
    ensures Decode(Ethernet(dstMac, srcMac, ETH_IP4, Ipv4(src, dst, ICMP, IcmpEcho(reply, id, seqNo, payloadLen))), fullLen)
         == Decoded(if reply then IcmpEchoReply else IcmpEchoRequest, dstMac == BCAST, Some(dstMac), Some(srcMac), ETH_IP4, fullLen,
                    None, Some(IpPart(src, dst, ICMP, 64)), Some(IcmpPart(if reply then 0 else 8, id, seqNo)), None)
  {
    hide Ethernet, Ipv4, IcmpEcho;
    var p := IcmpEcho(reply, id, seqNo, payloadLen);
    var b := Ethernet(dstMac, srcMac, ETH_IP4, Ipv4(src, dst, ICMP, p));
    IpFrameParts(dstMac, srcMac, src, dst, ICMP, p);
    EchoParts(reply, id, seqNo, payloadLen);
    assert b[34] == b[34..][0] && b[38] == b[34..][4] && b[39] == b[34..][5] && b[40] == b[34..][6] && b[41] == b[34..][7];
  }

  lemma UdpParts(srcPort: nat, dstPort: nat, payloadLen: nat)
    requires srcPort < WORD && dstPort < WORD
    ensures var p := Udp(srcPort, dstPort, payloadLen);
            && |p| >= 8 && U16(p, 0) == srcPort && U16(p, 2) == dstPort
            && (8 + payloadLen < WORD ==> U16(p, 4) == 8 + payloadLen) && U16(p, 6) == 0
  {
    hide Counting;
    WordBytes(srcPort);
    WordBytes(dstPort);
    if 8 + payloadLen < WORD { WordBytes(8 + payloadLen); }
  }

  /** Likewise every UDP datagram. */
  lemma UdpRoundTrip(dstMac: Mac, srcMac: Mac, src: Ip, dst: Ip, srcPort: nat, dstPort: nat, payloadLen: nat, fullLen: nat)
    requires srcPort < WORD && dstPort < WORD
    ensures Decode(Ethernet(dstMac, srcMac, ETH_IP4, Ipv4(src, dst, UDP, Udp(srcPort, dstPort, payloadLen))), fullLen)
         == Decoded(UdpDatagram, dstMac == BCAST, Some(dstMac), Some(srcMac), ETH_IP4, fullLen,
                    None, Some(IpPart(src, dst, UDP, 64)), None, Some(L4Part(srcPort, dstPort, 0)))
  {
    hide Ethernet, Ipv4, Udp;
    var p := Udp(srcPort, dstPort, payloadLen);
    var b := Ethernet(dstMac, srcMac, ETH_IP4, Ipv4(src, dst, UDP, p));
    IpFrameParts(dstMac, srcMac, src, dst, UDP, p);
    UdpParts(srcPort, dstPort, payloadLen);
    assert b[34] == b[34..][0] && b[35] == b[34..][1] && b[36] == b[34..][2] && b[37] == b[34..][3];
  }

  // ---- headers of any length -----------------------------------------------------------------------

  /** What the decoder should say of a payload, told by the payload alone. */
  function PayloadKind(proto: byte, p: Bytes): Kind {
    if proto == 1 && |p| >= 8 then (if p[0] == 8 then IcmpEchoRequest else if p[0] == 0 then IcmpEchoReply else IcmpOther)
    else if proto == 6 && |p| >= 14 then TcpSegment
    else if proto == 17 && |p| >= 8 then UdpDatagram
    else Other
  }

  /** An IPv4 header of any length, options and all, is stepped over by its own length
    * field: ports, TCP flags and echo numbers are read from the payload's own bytes. */
  lemma AnyHeaderDecodes(dstMac: Mac, srcMac: Mac, h: Bytes, p: Bytes, fullLen: nat)
    requires 20 <= |h| <= 60 && |h| % 4 == 0 && (h[0] % 16) as nat == |h| / 4
    ensures var d := Decode(dstMac + srcMac + [8, 0] + (h + p), fullLen);
            && d.kind == PayloadKind(h[9], p) && d.broadcast == (forall i :: 0 <= i < 6 ==> dstMac[i] == 0xff) && d.dstMac == Some(dstMac) && d.srcMac == Some(srcMac)
            && d.etherType == 0x0800 && d.len == fullLen && d.arp == None
            && d.ip == Some(IpPart(h[12..16], h[16..20], h[9], h[8]))
            && d.icmp == (if h[9] == 1 && |p| >= 8 then Some(IcmpPart(p[0], U16(p, 4), U16(p, 6))) else None)
            && d.l4 == (if h[9] == 6 && |p| >= 14 then Some(L4Part(U16(p, 0), U16(p, 2), p[13]))
                        else if h[9] == 17 && |p| >= 8 then Some(L4Part(U16(p, 0), U16(p, 2), 0)) else None)
  {
    hide U16;
    FrameBytes(dstMac, srcMac, h, p);
    var b := dstMac + srcMac + [8, 0] + (h + p);
    assert HeaderLen(b) == |h|;
  }

  /** Where everything is in such a frame. */
  lemma FrameBytes(dstMac: Mac, srcMac: Mac, h: Bytes, p: Bytes)
    requires 20 <= |h|
    ensures var b := dstMac + srcMac + [8, 0] + (h + p);
            && |b| == 14 + |h| + |p| && b[0..6] == dstMac && b[6..12] == srcMac && U16(b, 12) == ETH_IP4
            && b[14] == h[0] && b[22] == h[8] && b[23] == h[9] && b[26..30] == h[12..16] && b[30..34] == h[16..20]
            && (forall i :: 0 <= i < |p| ==> b[14 + |h| + i] == p[i])
            && (forall i :: 0 <= i < |p| - 1 ==> U16(b, 14 + |h| + i) == U16(p, i))
  {
    var b := dstMac + srcMac + [8, 0] + (h + p);
    assert b == dstMac + srcMac + [8, 0] + h + p;
    var front := dstMac + srcMac + [8, 0] + h;
    assert front[26..30] == h[12..16] && front[30..34] == h[16..20];
    assert b[26..30] == front[26..30] && b[30..34] == front[30..34];
  }

  // ---- the snapshot is enough ------------------------------------------------------------------------

  /** Every header the decoder reads lies in the first 128 bytes, so what a consumer
    * decodes from a token's snapshot is what the whole frame says. */
  lemma SnapshotIsEnough(b: Bytes, fullLen: nat)
    ensures Decode(Snapshot(b), fullLen) == Decode(b, fullLen)
  {
    var c := Snapshot(b);
    if |b| > SNAPSHOT_LEN {
      assert c[0..6] == b[0..6] && c[6..12] == b[6..12];
      assert c[22..28] == b[22..28] && c[28..32] == b[28..32] && c[32..38] == b[32..38] && c[38..42] == b[38..42];
      assert c[26..30] == b[26..30] && c[30..34] == b[30..34];
    }
  }
}
