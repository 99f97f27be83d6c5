/** The perch agent: a minimal host that answers ARP for its address and echoes
  * pings by editing a copy of the request. */
module Perch {
  import opened Basics
  import opened InternetChecksum
  import opened Frames

  /** A frame is ignored, answered, or too short for the fields the code reads. */
  datatype Outcome = Ignored | Reply(frame: Bytes) | OutOfRange

  function ArpReplyFrame(mac: Mac, ip: Ip, b: Bytes): Bytes
    requires |b| >= 42
  {
    b[22..28] + mac + [8, 6] + [0, 1, 8, 0, 6, 4, 0, 2] + mac + ip + b[22..28] + b[28..32]
  }

  function OnArp(mac: Mac, ip: Ip, b: Bytes): Outcome {
    if |b| < 42 || U16(b, 20) != 1 || b[38..42] != ip then Ignored
    else Reply(ArpReplyFrame(mac, ip, b))
  }

  function Put(b: Bytes, at: nat, v: Bytes): (r: Bytes)
    requires at + |v| <= |b|
    ensures |r| == |b| && forall i :: 0 <= i < |b| ==> r[i] == if at <= i < at + |v| then v[i - at] else b[i]
  {
    b[..at] + v + b[at + |v|..]
  }

  /** The request with addresses swapped, type cleared, and the echo checksum redone. */
  function Echoed(mac: Mac, ip: Ip, b: Bytes): (r: Bytes)
    requires |b| >= 34 && |b| >= 14 + HeaderLen(b) + 8
    ensures |r| == |b|
  {
    var l4 := 14 + HeaderLen(b);
    var r1 := Put(Put(Put(Put(b, 0, b[6..12]), 6, mac), 26, ip), 30, b[26..30]);
    var r2 := r1[l4 := 0][l4 + 2 := 0][l4 + 3 := 0];
    r2[..l4] + Store(r2[l4..], 2, Checksum(r2[l4..]))
  }

  /** And the header checksum redone after it. */
  function EchoReplyFrame(mac: Mac, ip: Ip, b: Bytes): (r: Bytes)
    requires |b| >= 34 && |b| >= 14 + HeaderLen(b) + 8
    ensures |r| == |b|
  {
    var l4 := 14 + HeaderLen(b);
    var r := Echoed(mac, ip, b)[24 := 0][25 := 0];
    Put(r, 24, Word(Checksum(r[14..l4])))
  }

  function Word(w: nat): (b: Bytes)
    requires w <= ONES
    ensures |b| == 2
  {
    [(w / 256) as byte, (w % 256) as byte]
  }

  function OnIpv4(mac: Mac, ip: Ip, b: Bytes): Outcome {
    if |b| < 15 then OutOfRange
    else if |b| < 14 + HeaderLen(b) + 8 then Ignored
    else if |b| < 24 then OutOfRange
    else if b[23] != ICMP then Ignored
    else if |b| < 34 then OutOfRange
    else if b[30..34] != ip || b[14 + HeaderLen(b)] != 8 then Ignored
    else Reply(EchoReplyFrame(mac, ip, b))
  }

  function OnFrame(mac: Mac, ip: Ip, b: Bytes): Outcome {
    if |b| < 14 then Ignored
    else if U16(b, 12) == ETH_ARP then OnArp(mac, ip, b)
    else if U16(b, 12) == ETH_IP4 then OnIpv4(mac, ip, b)
    else Ignored
  }

  /** No field is read past the end exactly when the frame is long enough for the
    * fixed header, or is turned away before the first field it lacks. */
  lemma InRangeIff(mac: Mac, ip: Ip, b: Bytes)
    ensures OnFrame(mac, ip, b) != OutOfRange <==>
              || |b| < 14 || U16(b, 12) != ETH_IP4 || |b| >= 34
              || (|b| >= 15 && |b| < 14 + HeaderLen(b) + 8)
              || (|b| >= 24 && b[23] != ICMP)
  {
  }

  /** A who-has for this host's address. */
  predicate AsksForUs(ip: Ip, b: Bytes) {
    |b| >= 42 && b[12] == 8 && b[13] == 6 && b[20] == 0 && b[21] == 1 && b[38..42] == ip
  }

  /** An echo request to this host's address, with room for the echo header. */
  predicate PingsUs(ip: Ip, b: Bytes) {
    && |b| >= 34 && b[12] == 8 && b[13] == 0 && b[23] == 1 && b[30..34] == ip
    && var at := 14 + (b[14] % 16) as nat * 4; |b| >= at + 8 && b[at] == 8
  }

  /** It answers these two, and nothing else at all. */
  lemma AnswersIff(mac: Mac, ip: Ip, b: Bytes)
    ensures OnFrame(mac, ip, b).Reply? <==> AsksForUs(ip, b) || PingsUs(ip, b)
  {
  }

  /** A proper header is never out of range: twenty bytes leave room for everything. */
  lemma ProperHeaderInRange(mac: Mac, ip: Ip, b: Bytes)
    requires |b| >= 15 && HeaderLen(b) >= 20
    ensures OnFrame(mac, ip, b) != OutOfRange
  {
  }

  /** A bare Ethernet header of type IPv4. */
  function BareHeader(dst: Mac, src: Mac): Bytes { dst + src + [8, 0] }

  /** Fourteen bytes are enough to be read past the end. */
  lemma BareHeaderOutOfRange(mac: Mac, ip: Ip, dst: Mac, src: Mac)
    ensures |BareHeader(dst, src)| == 14 && OnFrame(mac, ip, BareHeader(dst, src)) == OutOfRange
  {
    var b := BareHeader(dst, src);
    assert b[12] == 8 && b[13] == 0;
  }

  // ---- what a reply is ------------------------------------------------------------------------

  /** The request with the four addresses in place, not yet turned into a reply. */
  function Addressed(mac: Mac, ip: Ip, b: Bytes): (r: Bytes)
    requires |b| >= 34
    ensures |r| == |b|
  {
    Put(Put(Put(Put(b, 0, b[6..12]), 6, mac), 26, ip), 30, b[26..30])
  }

  lemma AddressedParts(mac: Mac, ip: Ip, b: Bytes)
    requires |b| >= 34
    ensures var r := Addressed(mac, ip, b);
            && r[0..6] == b[6..12] && r[6..12] == mac && r[12..26] == b[12..26] && r[26..30] == ip && r[30..34] == b[26..30]
            && r[34..] == b[34..]
  {
    hide Put;
  }

  lemma EchoedHead(mac: Mac, ip: Ip, b: Bytes)
    requires |b| >= 15 && HeaderLen(b) >= 20 && |b| >= 14 + HeaderLen(b) + 8
    ensures Echoed(mac, ip, b)[..14 + HeaderLen(b)] == Addressed(mac, ip, b)[..14 + HeaderLen(b)]
  {
    hide Checksum, Put, HeaderLen;
  }

  lemma EchoedTail(mac: Mac, ip: Ip, b: Bytes)
    requires |b| >= 15 && HeaderLen(b) >= 20 && |b| >= 14 + HeaderLen(b) + 8
    ensures var r, l4 := Echoed(mac, ip, b), 14 + HeaderLen(b);
            r[l4..] == Store(Addressed(mac, ip, b)[l4..][0 := 0][2 := 0][3 := 0], 2, Checksum(Addressed(mac, ip, b)[l4..][0 := 0][2 := 0][3 := 0]))
  {
    hide Checksum, Put, HeaderLen, Store;
    var r1, l4 := Addressed(mac, ip, b), 14 + HeaderLen(b);
    assert r1[l4 := 0][l4 + 2 := 0][l4 + 3 := 0][l4..] == r1[l4..][0 := 0][2 := 0][3 := 0];
    StoreKeeps(r1[l4..][0 := 0][2 := 0][3 := 0], 2, Checksum(r1[l4..][0 := 0][2 := 0][3 := 0]));
  }

  lemma StoreKeeps(x: Bytes, k: nat, w: nat)
    requires k + 2 <= |x| && w <= ONES
    ensures |Store(x, k, w)| == |x| && Store(x, k, w)[k + 2..] == x[k + 2..] && Store(x, k, w)[..k] == x[..k]
  {
  }

  lemma EchoedParts(mac: Mac, ip: Ip, b: Bytes)
    requires |b| >= 15 && HeaderLen(b) >= 20 && |b| >= 14 + HeaderLen(b) + 8
    ensures var r, l4 := Echoed(mac, ip, b), 14 + HeaderLen(b);
            && r[..l4] == Addressed(mac, ip, b)[..l4]
            && r[l4] == 0 && r[l4 + 1] == b[l4 + 1] && r[l4 + 4..] == b[l4 + 4..]
            && Verifies(r[l4..])
  {
    hide Fold, WordSum, HeaderLen, Echoed, Put, Addressed, Store;
    var l4 := 14 + HeaderLen(b);
    var a := Addressed(mac, ip, b);
    var x := a[l4..][0 := 0][2 := 0][3 := 0];
    EchoedHead(mac, ip, b);
    EchoedTail(mac, ip, b);
    AddressedParts(mac, ip, b);
    StoredVerifies(x, 2);
    StoreKeeps(x, 2, Checksum(x));
    var r := Echoed(mac, ip, b);
    assert r[l4..][..2] == x[..2];
    assert a[l4 + 1] == a[34..][l4 - 33] && b[l4 + 1] == b[34..][l4 - 33];
    assert r[l4 + 4..] == r[l4..][4..] == x[4..] == a[l4..][4..] == a[l4 + 4..];
    assert a[l4 + 4..] == a[34..][l4 - 30..] && b[l4 + 4..] == b[34..][l4 - 30..];
    assert r[l4] == r[l4..][..2][0] && r[l4 + 1] == r[l4..][..2][1];
  }

  lemma ReplyHeader(mac: Mac, ip: Ip, b: Bytes)
    requires |b| >= 15 && HeaderLen(b) >= 20 && |b| >= 14 + HeaderLen(b) + 8
    ensures var r, l4 := EchoReplyFrame(mac, ip, b), 14 + HeaderLen(b);
            && Verifies(r[14..l4])
            && r[l4..] == Echoed(mac, ip, b)[l4..] && r[..24] == Echoed(mac, ip, b)[..24] && r[26..l4] == Echoed(mac, ip, b)[26..l4]
  {
    hide Fold, WordSum, HeaderLen, Echoed;
    var l4 := 14 + HeaderLen(b);
    var e := Echoed(mac, ip, b)[24 := 0][25 := 0];
    var h := e[14..l4];
    StoredVerifies(h, 10);
    assert Put(e, 24, Word(Checksum(h)))[14..l4] == Store(h, 10, Checksum(h));
  }

  lemma ReplyFields(mac: Mac, ip: Ip, b: Bytes)
    requires |b| >= 15 && HeaderLen(b) >= 20 && |b| >= 14 + HeaderLen(b) + 8
    ensures var r, l4 := EchoReplyFrame(mac, ip, b), 14 + HeaderLen(b);
            && r[0..6] == b[6..12] && r[6..12] == mac && r[12..24] == b[12..24] && r[26..30] == ip && r[30..34] == b[26..30]
            && r[l4] == 0 && r[l4 + 1] == b[l4 + 1] && r[l4 + 4..] == b[l4 + 4..]
  {
    hide Verifies, HeaderLen, Echoed, EchoReplyFrame, Addressed;
    var r, e, a, l4 := EchoReplyFrame(mac, ip, b), Echoed(mac, ip, b), Addressed(mac, ip, b), 14 + HeaderLen(b);
    ReplyHeader(mac, ip, b);
    EchoedParts(mac, ip, b);
    AddressedParts(mac, ip, b);
    assert forall i :: 0 <= i < 24 ==> r[i] == r[..24][i] == e[..24][i] == e[i];
    assert forall i :: 26 <= i < l4 ==> r[i] == r[26..l4][i - 26] == e[26..l4][i - 26] == e[i];
    assert forall i :: 0 <= i < l4 ==> e[i] == e[..l4][i] == a[..l4][i] == a[i];
    assert r[0..6] == a[0..6] && r[6..12] == a[6..12] && r[12..24] == a[12..26][..12] && r[26..30] == a[26..30] && r[30..34] == a[30..34];
    assert b[12..24] == b[12..26][..12];
    assert r[l4] == r[l4..][0] && r[l4 + 1] == r[l4..][1] && r[l4 + 4..] == r[l4..][4..] == e[l4..][4..] == e[l4 + 4..];
    assert e[l4] == e[l4..][0] && e[l4 + 1] == e[l4..][1];
  }

  /** The bytes a decoder looks at, as the reply has them. */
  lemma ReplyBytes(mac: Mac, ip: Ip, b: Bytes)
    requires |b| >= 15 && HeaderLen(b) >= 20 && |b| >= 14 + HeaderLen(b) + 8
    ensures var r, l4 := EchoReplyFrame(mac, ip, b), 14 + HeaderLen(b);
            && r[12] == b[12] && r[13] == b[13] && r[14] == b[14] && r[22] == b[22] && r[23] == b[23]
            && r[l4] == 0 && r[l4 + 4] == b[l4 + 4] && r[l4 + 5] == b[l4 + 5] && r[l4 + 6] == b[l4 + 6] && r[l4 + 7] == b[l4 + 7]
  {
    hide HeaderLen, EchoReplyFrame;
    var r, l4 := EchoReplyFrame(mac, ip, b), 14 + HeaderLen(b);
    ReplyFields(mac, ip, b);
    assert forall i :: 12 <= i < 24 ==> r[i] == r[12..24][i - 12] == b[12..24][i - 12] == b[i];
    assert forall i :: l4 + 4 <= i < |b| ==> r[i] == r[l4 + 4..][i - l4 - 4] == b[l4 + 4..][i - l4 - 4] == b[i];
  }

  lemma DecodesAsReply(r: Bytes, b: Bytes, mac: Mac, ip: Ip, fullLen: nat)
    requires |r| == |b| >= 34 && HeaderLen(r) >= 20 && |r| >= 14 + HeaderLen(r) + 8
    requires U16(r, 12) == ETH_IP4 && r[23] == ICMP && r[14 + HeaderLen(r)] == 0
    requires r[0..6] == b[6..12] && r[6..12] == mac && r[26..30] == ip && r[30..34] == b[26..30]
    ensures var l4 := 14 + HeaderLen(r);
            Decode(r, fullLen) == Decoded(IcmpEchoReply, b[6..12] == BCAST, Some(b[6..12]), Some(mac), ETH_IP4, fullLen, None,
                                          Some(IpPart(ip, b[26..30], ICMP, r[22])), Some(IcmpPart(0, U16(r, l4 + 4), U16(r, l4 + 6))), None)
  {
    hide HeaderLen;
  }

  lemma ReplyIs(mac: Mac, ip: Ip, b: Bytes)
    requires OnFrame(mac, ip, b).Reply? && U16(b, 12) == ETH_IP4 && |b| >= 15
    ensures |b| >= 34 && |b| >= 14 + HeaderLen(b) + 8 && b[23] == ICMP && OnFrame(mac, ip, b) == Reply(EchoReplyFrame(mac, ip, b))
  {
    hide HeaderLen, EchoReplyFrame;
  }

  lemma SameHeaderLen(mac: Mac, ip: Ip, b: Bytes)
    requires |b| >= 15 && HeaderLen(b) >= 20 && |b| >= 14 + HeaderLen(b) + 8
    ensures HeaderLen(EchoReplyFrame(mac, ip, b)) == HeaderLen(b)
  {
    hide EchoReplyFrame;
    ReplyBytes(mac, ip, b);
  }

  /** Every echo request with a proper header is answered by a frame that goes back to
    * its sender from this host, carries the same identifier, sequence number and
    * data, decodes as an echo reply, and whose two checksums both verify. */
  lemma EchoReplyAnswers(mac: Mac, ip: Ip, b: Bytes, fullLen: nat)
    requires |b| >= 15 && OnFrame(mac, ip, b).Reply? && U16(b, 12) == ETH_IP4 && HeaderLen(b) >= 20
    ensures var r, l4 := OnFrame(mac, ip, b).frame, 14 + HeaderLen(b);
            && |r| == |b| && |b| >= l4 + 8
            && Verifies(r[14..l4]) && Verifies(r[l4..])
            && r[l4 + 4..] == b[l4 + 4..]
            && Decode(r, fullLen) == Decoded(IcmpEchoReply, b[6..12] == BCAST, Some(b[6..12]), Some(mac), ETH_IP4, fullLen, None,
                                             Some(IpPart(ip, b[26..30], ICMP, b[22])),
                                             Some(IcmpPart(0, U16(b, l4 + 4), U16(b, l4 + 6))), None)
  {
    hide Verifies, EchoReplyFrame, Echoed, Decode, OnFrame, HeaderLen;
    ReplyIs(mac, ip, b);
    var r := EchoReplyFrame(mac, ip, b);
    SameHeaderLen(mac, ip, b);
    ReplyHeader(mac, ip, b);
    EchoedParts(mac, ip, b);
    ReplyFields(mac, ip, b);
    ReplyBytes(mac, ip, b);
    DecodesAsReply(r, b, mac, ip, fullLen);
  }

  /** Likewise the answer to an ARP who-has. */
  lemma ArpReplyAnswers(mac: Mac, ip: Ip, b: Bytes, fullLen: nat)
    requires OnFrame(mac, ip, b).Reply? && U16(b, 12) == ETH_ARP
    ensures var sha, spa := b[22..28], b[28..32];
            OnFrame(mac, ip, b).frame == Ethernet(sha, mac, ETH_ARP, Arp(2, mac, ip, sha, spa))
    ensures Decode(OnFrame(mac, ip, b).frame, fullLen).kind == ArpReply
    ensures Decode(OnFrame(mac, ip, b).frame, fullLen).arp == Some(ArpPart(2, mac, ip, b[22..28], b[28..32]))
  {
    hide Decode;
    var sha, spa := b[22..28], b[28..32];
    ArpRoundTrip(sha, mac, 2, mac, ip, sha, spa, fullLen);
    assert ArpReplyFrame(mac, ip, b) == Ethernet(sha, mac, ETH_ARP, Arp(2, mac, ip, sha, spa));
  }

  // ---- the edits in place ------------------------------------------------------------------------

  /** Bytes copied into the buffer. */
  method CopyIn(reply: array<byte>, at: nat, v: Bytes)
    requires at + |v| <= reply.Length
    modifies reply
    ensures reply[..] == Put(old(reply[..]), at, v)
  {
    ghost var before := reply[..];
    for i := 0 to |v|
      invariant forall k :: 0 <= k < reply.Length ==> reply[k] == if at <= k < at + i then v[k - at] else before[k]
    {
      reply[at + i] := v[i];
    }
    assert forall k :: 0 <= k < reply.Length ==> reply[..][k] == Put(before, at, v)[k];
  }

  method EditReply(mac: Mac, ip: Ip, b: Bytes) returns (reply: array<byte>)
    requires |b| >= 34 && |b| >= 14 + HeaderLen(b) + 8
    ensures fresh(reply) && (|b| <= 0x2_0000 ==> reply[..] == EchoReplyFrame(mac, ip, b))
  {
    hide Checksum, Put, WordSum, HeaderLen, Fold;
    var l4 := 14 + HeaderLen(b);
    reply := new byte[|b|](i requires 0 <= i < |b| => b[i]);
    assert reply[..] == b;
    CopyIn(reply, 0, b[6..12]);
    CopyIn(reply, 6, mac);
    CopyIn(reply, 26, ip);
    CopyIn(reply, 30, b[26..30]);
    assert reply[..] == Addressed(mac, ip, b);
    EditEcho(reply, mac, ip, b, l4);
    reply[24] := 0;
    reply[25] := 0;
    var ipck := Compute(reply[14..l4]);
    CopyIn(reply, 24, Word(ipck));
  }

  /** Type to echo reply, and the message's checksum redone. */
  method EditEcho(reply: array<byte>, mac: Mac, ip: Ip, b: Bytes, l4: nat)
    requires |b| >= 34 && |b| >= 14 + HeaderLen(b) + 8 && l4 == 14 + HeaderLen(b)
    requires reply[..] == Addressed(mac, ip, b)
    modifies reply
    ensures reply.Length == |b| && (|b| <= 0x2_0000 ==> reply[..] == Echoed(mac, ip, b))
  {
    hide Checksum, Put, WordSum, HeaderLen, Fold;
    reply[l4] := 0;
    reply[l4 + 2] := 0;
    reply[l4 + 3] := 0;
    ghost var r2 := Addressed(mac, ip, b)[l4 := 0][l4 + 2 := 0][l4 + 3 := 0];
    assert reply[..] == r2;
    assert reply[l4..] == r2[l4..];
    var ck := Compute(reply[l4..]);
    reply[l4 + 2] := (ck / 256) as byte;
    reply[l4 + 3] := (ck % 256) as byte;
    assert reply[..] == r2[..l4] + Store(r2[l4..], 2, ck);
  }
}
