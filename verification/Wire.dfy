/** The loft's binary messages: tokens, seven-byte verdicts, pushes between lofts,
  * and the send-remote instruction with its one-byte address length. */
module Wire {
  import opened Basics
  import opened InternetChecksum
  import opened Frames
  import opened LoftCore
  import opened Cluster

  const MSG_TOKEN: byte := 0x01
  const MSG_DELIVER: byte := 0x02
  const MSG_DROP: byte := 0x03
  const MSG_COPY_DELIVER: byte := 0x04
  const MSG_INJECT: byte := 0x14
  const MSG_SEND_REMOTE: byte := 0x15

  function Word16(w: nat): (b: Bytes)
    ensures |b| == 2
  {
    [Hi(w), Lo(w)]
  }

  function Word32(w: nat): (b: Bytes)
    ensures |b| == 4
  {
    [Hi(w / WORD), Lo(w / WORD), Hi(w), Lo(w)]
  }

  function U32(b: Bytes, off: nat): nat
    requires off + 4 <= |b|
  {
    U16(b, off) * WORD + U16(b, off + 2)
  }

  lemma Word32Bytes(w: nat)
    requires w < FRAME_IDS
    ensures (Hi(w / WORD) as nat * 256 + Lo(w / WORD) as nat) * WORD + (Hi(w) as nat * 256 + Lo(w) as nat) == w
  {
    var h, l := w / WORD, w % WORD;
    assert w == h * WORD + l;
    assert Hi(w) == Hi(l) && Lo(w) == Lo(l) by { LowWord(h, l); }
    WordBytes(h);
    WordBytes(l);
  }

  lemma LowWord(h: nat, l: nat)
    requires l < WORD
    ensures Hi(h * WORD + l) == Hi(l) && Lo(h * WORD + l) == Lo(l)
  {
    assert (h * WORD + l) / 256 == h * 256 + l / 256;
  }

  /** Everything fits its field. */
  predicate Fits(port: nat, fid: nat) { port < PORT_IDS && fid < FRAME_IDS }

  // ---- tokens --------------------------------------------------------------------------

  function EncodeToken(t: Token): Bytes { [MSG_TOKEN] + Word16(t.port) + Word32(t.fid) + Word32(t.fullLen) + t.snapshot }

  function DecodeToken(b: Bytes): Option<Token> {
    if |b| < 11 || b[0] != MSG_TOKEN then None else Some(Token(U16(b, 1), U32(b, 3), U32(b, 7), b[11..]))
  }

  lemma TokenRoundTrip(t: Token)
    requires Fits(t.port, t.fid) && t.fullLen < FRAME_IDS
    ensures DecodeToken(EncodeToken(t)) == Some(t)
  {
    WordBytes(t.port);
    Word32Bytes(t.fid);
    Word32Bytes(t.fullLen);
  }

  /** The gateway patches both ids in the bytes and passes the rest through: exactly
    * the encoding of the rewritten token. */
  function Patched(b: Bytes, port: nat, fid: nat): Bytes
    requires |b| >= 7
  {
    b[..1] + Word16(port) + Word32(fid) + b[7..]
  }

  lemma PatchIsRewrite(t: Token, port: nat, fid: nat)
    ensures Patched(EncodeToken(t), port, fid) == EncodeToken(t.(port := port, fid := fid))
  {
  }

  function TokenHead(port: nat, fid: nat, len: nat): (b: Bytes)
    ensures |b| == 11
  {
    [MSG_TOKEN] + Word16(port) + Word32(fid) + Word32(len)
  }

  function Spliced(b: Bytes, at: nat, v: Bytes): (r: Bytes)
    requires at + |v| <= |b|
    ensures |r| == |b|
  {
    b[..at] + v + b[at + |v|..]
  }

  method PutU16(msg: array<byte>, at: nat, w: nat)
    requires at + 2 <= msg.Length
    modifies msg
    ensures msg[..] == Spliced(old(msg[..]), at, Word16(w))
  {
    hide Hi, Lo;
    msg[at], msg[at + 1] := Hi(w), Lo(w);
  }

  method PutU32(msg: array<byte>, at: nat, w: nat)
    requires at + 4 <= msg.Length
    modifies msg
    ensures msg[..] == Spliced(old(msg[..]), at, Word32(w))
  {
    hide Hi, Lo;
    msg[at], msg[at + 1], msg[at + 2], msg[at + 3] := Hi(w / WORD), Lo(w / WORD), Hi(w), Lo(w);
  }

  lemma HeadSpliced(b: Bytes, port: nat, fid: nat, len: nat)
    requires |b| >= 11
    ensures Spliced(Spliced(Spliced(b[0 := MSG_TOKEN], 1, Word16(port)), 3, Word32(fid)), 7, Word32(len)) == TokenHead(port, fid, len) + b[11..]
  {
    hide Hi, Lo, Word16, Word32;
    var b1 := Spliced(b[0 := MSG_TOKEN], 1, Word16(port));
    assert b1 == [MSG_TOKEN] + Word16(port) + b[3..];
    var b2 := Spliced(b1, 3, Word32(fid));
    assert b2 == [MSG_TOKEN] + Word16(port) + Word32(fid) + b[7..];
  }

  method PutHead(msg: array<byte>, port: nat, fid: nat, len: nat)
    requires msg.Length >= 11
    modifies msg
    ensures msg[..] == TokenHead(port, fid, len) + old(msg[11..])
  {
    hide Spliced, TokenHead;
    HeadSpliced(msg[..], port, fid, len);
    assert msg[..][11..] == msg[11..];
    msg[0] := MSG_TOKEN;
    PutU16(msg, 1, port);
    PutU32(msg, 3, fid);
    PutU32(msg, 7, len);
  }

  method BuildTokenBytes(port: nat, fid: nat, data: Bytes) returns (msg: array<byte>)
    ensures msg[..] == EncodeToken(BuildToken(port, fid, data))
  {
    hide TokenHead;
    var snap := if |data| > SNAPSHOT_LEN then SNAPSHOT_LEN else |data|;
    msg := new byte[11 + snap](_ => 0);
    PutHead(msg, port, fid, |data|);
    ghost var head := TokenHead(port, fid, |data|);
    assert msg[..11] == head;
    for i := 0 to snap
      invariant msg[..11] == head && msg[11..11 + i] == data[..i]
    {
      msg[11 + i] := data[i];
      assert msg[11..11 + i + 1] == msg[11..11 + i] + [data[i]];
    }
    assert msg[..] == head + msg[11..11 + snap];
    TokenHeadIs(BuildToken(port, fid, data));
  }

  lemma TokenHeadIs(t: Token)
    ensures EncodeToken(t) == TokenHead(t.port, t.fid, t.fullLen) + t.snapshot
  {
  }

  // ---- verdicts ---------------------------------------------------------------------------

  function VerbByte(v: Verb): byte { match v case Deliver => MSG_DELIVER case CopyDeliver => MSG_COPY_DELIVER case Drop => MSG_DROP }

  function EncodeVerdict(v: Verdict): Bytes { [VerbByte(v.verb)] + Word16(v.port) + Word32(v.fid) }

  function DecodeVerdict(b: Bytes): Option<Verdict> {
    if |b| < 7 then None
    else if b[0] == MSG_DELIVER then Some(Verdict(Deliver, U16(b, 1), U32(b, 3)))
    else if b[0] == MSG_COPY_DELIVER then Some(Verdict(CopyDeliver, U16(b, 1), U32(b, 3)))
    else if b[0] == MSG_DROP then Some(Verdict(Drop, U16(b, 1), U32(b, 3)))
    else None
  }

  lemma VerdictRoundTrip(v: Verdict)
    requires Fits(v.port, v.fid)
    ensures DecodeVerdict(EncodeVerdict(v)) == Some(v)
  {
    WordBytes(v.port);
    Word32Bytes(v.fid);
  }

  // ---- pushes ---------------------------------------------------------------------------------

  datatype Push = Push(port: nat, frame: Bytes)

  function EncodePush(p: Push): Bytes { [MSG_INJECT] + Word16(p.port) + [0, 0, 0, 0] + p.frame }

  function DecodePush(b: Bytes): Option<Push> {
    if |b| < 7 || b[0] != MSG_INJECT then None else Some(Push(U16(b, 1), b[7..]))
  }

  lemma PushRoundTrip(p: Push)
    requires p.port < PORT_IDS
    ensures DecodePush(EncodePush(p)) == Some(p)
  {
    WordBytes(p.port);
  }

  // ---- send-remote ---------------------------------------------------------------------------

  datatype Send = Send(consume: bool, fid: nat, dstPort: nat, addr: Bytes)

  /** The address length is written as one byte, whatever it is. */
  function EncodeSend(s: Send): Bytes {
    [MSG_SEND_REMOTE] + Word16(if s.consume then 1 else 0) + Word32(s.fid) + Word16(s.dstPort) + [Lo(|s.addr|)] + s.addr
  }

  function DecodeSend(b: Bytes): Option<Send> {
    if |b| < 10 || b[0] != MSG_SEND_REMOTE then None else
    var n := b[9] as nat;
    if |b| < 10 + n then None else Some(Send(U16(b, 1) == 1, U32(b, 3), U16(b, 7), b[10..10 + n]))
  }

  /** The edge always reads the instruction, with the address cut to its length
    * modulo 256. */
  lemma SendDecodes(s: Send)
    requires Fits(s.dstPort, s.fid)
    ensures DecodeSend(EncodeSend(s)) == Some(s.(addr := s.addr[..|s.addr| % 256]))
  {
    hide Word32;
    SendFields(s);
    var b := EncodeSend(s);
    assert b[10..10 + |s.addr| % 256] == s.addr[..|s.addr| % 256];
  }

  lemma SendFields(s: Send)
    requires Fits(s.dstPort, s.fid)
    ensures var b := EncodeSend(s);
            && |b| == 10 + |s.addr| && b[0] == MSG_SEND_REMOTE && U16(b, 1) == (if s.consume then 1 else 0)
            && U32(b, 3) == s.fid && U16(b, 7) == s.dstPort && b[9] == Lo(|s.addr|) && b[10..] == s.addr
  {
    WordBytes(s.dstPort);
    WordBytes(if s.consume then 1 else 0);
    Word32Bytes(s.fid);
  }

  /** The instruction survives exactly when the address is shorter than 256 bytes. */
  lemma SendRoundTripIff(s: Send)
    requires Fits(s.dstPort, s.fid)
    ensures DecodeSend(EncodeSend(s)) == Some(s) <==> |s.addr| < 256
  {
    SendDecodes(s);
    assert |s.addr| < 256 ==> s.addr[..|s.addr| % 256] == s.addr;
  }

  // ---- the bytes themselves ------------------------------------------------------------------------

  /** Seven bytes: the verb, the port and the frame, each number high byte first. */
  lemma VerdictLayout(v: Verdict)
    requires Fits(v.port, v.fid)
    ensures var b := EncodeVerdict(v);
            && |b| == 7 && b[0] == (match v.verb case Deliver => 2 case Drop => 3 case CopyDeliver => 4)
            && b[1] as nat == v.port / 256 && b[2] as nat == v.port % 256
            && b[3] as nat == v.fid / 0x100_0000 && b[4] as nat == v.fid / 0x1_0000 % 256 && b[5] as nat == v.fid / 256 % 256 && b[6] as nat == v.fid % 256
  {
    FourBytes(v.fid);
  }

  lemma FourBytes(w: nat)
    requires w < FRAME_IDS
    ensures w / WORD / 256 % 256 == w / 0x100_0000 && w / WORD / 256 == w / 0x100_0000
  {
  }

  /** Eleven bytes and the snapshot: kind, port, frame and length. */
  lemma TokenLayout(t: Token)
    requires Fits(t.port, t.fid) && t.fullLen < FRAME_IDS
    ensures var b := EncodeToken(t);
            && |b| == 11 + |t.snapshot| && b[0] == 1 && b[11..] == t.snapshot
            && b[1] as nat == t.port / 256 && b[2] as nat == t.port % 256
            && b[3] as nat == t.fid / 0x100_0000 && b[4] as nat == t.fid / 0x1_0000 % 256 && b[5] as nat == t.fid / 256 % 256 && b[6] as nat == t.fid % 256
            && b[7] as nat == t.fullLen / 0x100_0000 && b[8] as nat == t.fullLen / 0x1_0000 % 256 && b[9] as nat == t.fullLen / 256 % 256 && b[10] as nat == t.fullLen % 256
  {
    FourBytes(t.fid);
    FourBytes(t.fullLen);
  }

  /** A push: kind 0x14, the port, four bytes unused, and the payload. */
  lemma PushLayout(p: Push)
    requires p.port < PORT_IDS
    ensures var b := EncodePush(p);
            |b| == 7 + |p.frame| && b[0] == 0x14 && b[1] as nat == p.port / 256 && b[2] as nat == p.port % 256 && b[7..] == p.frame
  {
  }

  /** A send-remote: kind 0x15, one for consuming, frame, port, and a one-byte address length. */
  lemma SendLayout(s: Send)
    requires Fits(s.dstPort, s.fid)
    ensures var b := EncodeSend(s);
            && |b| == 10 + |s.addr| && b[0] == 0x15 && b[1] == 0 && b[2] == (if s.consume then 1 else 0)
            && b[3] as nat == s.fid / 0x100_0000 && b[4] as nat == s.fid / 0x1_0000 % 256 && b[5] as nat == s.fid / 256 % 256 && b[6] as nat == s.fid % 256
            && b[7] as nat == s.dstPort / 256 && b[8] as nat == s.dstPort % 256 && b[9] as nat == |s.addr| % 256 && b[10..] == s.addr
  {
    FourBytes(s.fid);
  }

  /** Of two messages of different kinds, no decoder reads the other's. */
  lemma KindsApart(t: Token, v: Verdict, p: Push, s: Send)
    ensures DecodeToken(EncodeVerdict(v)).None? && DecodeToken(EncodePush(p)).None? && DecodeToken(EncodeSend(s)).None?
    ensures DecodeVerdict(EncodeToken(t)).None? && DecodeVerdict(EncodePush(p)).None? && DecodeVerdict(EncodeSend(s)).None?
    ensures DecodePush(EncodeToken(t)).None? && DecodePush(EncodeVerdict(v)).None? && DecodePush(EncodeSend(s)).None?
    ensures DecodeSend(EncodeToken(t)).None? && DecodeSend(EncodeVerdict(v)).None? && DecodeSend(EncodePush(p)).None?
  {
  }
}
