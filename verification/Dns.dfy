/** The uplink's DNS answers (RFC 1035 section 4.1): question parser, question end,
  * and the responses built by echoing a query. */
module Dns {
  import opened Basics
  import opened InternetChecksum
  import opened Frames

  type Label = Bytes

  const DOT: byte := 0x2e
  const HEADER: nat := 12

  function Lower(b: byte): byte { if 0x41 <= b <= 0x5a then (b as nat + 32) as byte else b }

  function LowerAll(bs: Bytes): (r: Bytes)
    ensures |r| == |bs|
  {
    seq(|bs|, i requires 0 <= i < |bs| => Lower(bs[i]))
  }

  function Join(labels: seq<Label>): Bytes {
    if labels == [] then [] else if |labels| == 1 then labels[0] else Join(labels[..|labels| - 1]) + [DOT] + labels[|labels| - 1]
  }

  // ---- walking a name ------------------------------------------------------------------

  /** The labels from `off` on, and where the walk stops; nothing for a pointer or a
    * label that runs off the end. */
  function Walk(msg: Bytes, off: nat): Option<(seq<Label>, nat)>
    decreases |msg| - off
  {
    if off >= |msg| then Some(([], off))
    else if msg[off] == 0 then Some(([], off + 1))
    else
      var n := msg[off] as nat;
      if n >= 64 || off + 1 + n > |msg| then None
      else
        match Walk(msg, off + 1 + n)
        case None => None
        case Some(rest) => Some(([msg[off + 1..off + 1 + n]] + rest.0, rest.1))
  }

  datatype Question = Question(name: Bytes, qtype: nat)

  function ParseQuestion(msg: Bytes): Option<Question> {
    if |msg| < HEADER || U16(msg, 4) < 1 then None else
    match Walk(msg, HEADER)
    case None => None
    case Some(w) => if w.1 + 4 > |msg| then None else Some(Question(LowerAll(Join(w.0)), U16(msg, w.1)))
  }

  /** Where the labels end, without looking at what they are. */
  function NameEnd(msg: Bytes, off: nat): (end: nat)
    ensures end >= off
    decreases |msg| - off
  {
    if off >= |msg| then off
    else if msg[off] == 0 then off + 1
    else NameEnd(msg, off + 1 + msg[off] as nat)
  }

  function QuestionEnd(msg: Bytes): nat { NameEnd(msg, HEADER) + 4 }

  // ---- responses --------------------------------------------------------------------------

  /** A flag byte with the response bit (128) and the authoritative bit (4) set. */
  function Answering(b: byte): byte { (132 + b as nat / 8 % 16 * 8 + b as nat % 4) as byte }

  /** Both bits are set and the other six are as they were. */
  lemma AnsweringBits(b: byte)
    ensures var x, y := b as nat, Answering(b) as nat;
            y / 128 == 1 && y / 4 % 2 == 1 && y / 8 % 16 == x / 8 % 16 && y % 4 == x % 4
  {
    Digits(b as nat / 8 % 16, b as nat % 4);
  }

  lemma Digits(m: nat, l: nat)
    requires m < 16 && l < 4
    ensures var y := 132 + m * 8 + l; y / 128 == 1 && y / 4 % 2 == 1 && y / 8 % 16 == m && y % 4 == l
  {
    var y := 132 + m * 8 + l;
    assert y / 4 == 33 + 2 * m && y / 8 == 16 + m;
  }

  function Counted(q: Bytes, answers: byte, flags: byte): (r: Bytes)
    requires |q| >= HEADER
    ensures |r| == |q|
  {
    q[..2] + [Answering(q[2]), flags] + q[4..6] + [0, answers, 0, 0, 0, 0] + q[12..]
  }

  const RECORD: Bytes := [0xc0, 0x0c, 0, 1, 0, 1, 0, 0, 0, 30, 0, 4]

  function HeaderOnly(q: Bytes, rcode: byte): Bytes {
    var end := QuestionEnd(q);
    var r := q[..if end > |q| then |q| else end];
    if |r| >= HEADER then Counted(r, 0, (128 + rcode as nat % 16) as byte) else r
  }

  function BuildA(q: Bytes, ip: Ip): Bytes {
    var end := QuestionEnd(q);
    if end > |q| || |q| < HEADER then HeaderOnly(q, 2) else Counted(q[..end], 1, 0x80) + RECORD + ip
  }

  // ---- queries as resolvers make them --------------------------------------------------------

  predicate GoodLabel(l: Label) { 1 <= |l| <= 63 && DOT !in l }

  predicate GoodLabels(labels: seq<Label>) { forall i :: 0 <= i < |labels| ==> GoodLabel(labels[i]) }

  function EncodeName(labels: seq<Label>): (b: Bytes)
    requires GoodLabels(labels)
    ensures b != []
  {
    assert labels != [] ==> GoodLabel(labels[0]);
    if labels == [] then [0] else [|labels[0]| as byte] + labels[0] + EncodeName(labels[1..])
  }

  /** One question; `tail` is whatever follows it, such as an EDNS record. */
  function Query(header: Bytes, labels: seq<Label>, qtype: nat, qclass: nat, tail: Bytes): Bytes
    requires GoodLabels(labels)
  {
    header + EncodeName(labels) + [Hi(qtype), Lo(qtype), Hi(qclass), Lo(qclass)] + tail
  }

  lemma {:induction false} WalkEncoded(pre: Bytes, labels: seq<Label>, post: Bytes)
    requires GoodLabels(labels)
    ensures Walk(pre + EncodeName(labels) + post, |pre|) == Some((labels, |pre| + |EncodeName(labels)|))
    ensures NameEnd(pre + EncodeName(labels) + post, |pre|) == |pre| + |EncodeName(labels)|
    decreases |labels|
  {
    var msg := pre + EncodeName(labels) + post;
    assert EncodeName(labels) != [];
    assert msg[|pre|] == EncodeName(labels)[0];
    if labels != [] {
      var l := labels[0];
      assert GoodLabel(l);
      var pre' := pre + [|l| as byte] + l;
      assert msg == pre' + EncodeName(labels[1..]) + post;
      assert msg[|pre| + 1..|pre| + 1 + |l|] == l;
      WalkEncoded(pre', labels[1..], post);
      assert [l] + labels[1..] == labels;
    }
  }

  /** The parser returns the lowercased name and the type of any such query, and the
    * question ends exactly where its class does. */
  lemma ParsesQueries(header: Bytes, labels: seq<Label>, qtype: nat, qclass: nat, tail: Bytes)
    requires |header| == HEADER && U16(header, 4) >= 1 && GoodLabels(labels) && qtype < WORD && qclass < WORD
    ensures var q := Query(header, labels, qtype, qclass, tail);
            && ParseQuestion(q) == Some(Question(LowerAll(Join(labels)), qtype))
            && QuestionEnd(q) == HEADER + |EncodeName(labels)| + 4 == |q| - |tail|
            && Walk(q, HEADER) == Some((labels, HEADER + |EncodeName(labels)|))
  {
    hide Walk, NameEnd, EncodeName, Join;
    var post := [Hi(qtype), Lo(qtype), Hi(qclass), Lo(qclass)] + tail;
    var q := Query(header, labels, qtype, qclass, tail);
    assert q == header + EncodeName(labels) + post;
    WalkEncoded(header, labels, post);
    WordBytes(qtype);
    var end := HEADER + |EncodeName(labels)|;
    assert q[end] == post[0] && q[end + 1] == post[1] && q[4] == header[4] && q[5] == header[5];
  }

  /** After the name there must be a type and a class, whole. */
  lemma CutShortIff(header: Bytes, labels: seq<Label>, tail: Bytes)
    requires |header| == 12 && U16(header, 4) >= 1 && GoodLabels(labels)
    ensures ParseQuestion(header + EncodeName(labels) + tail).None? <==> |tail| < 4
  {
    hide Walk, EncodeName, Join;
    var q := header + EncodeName(labels) + tail;
    WalkEncoded(header, labels, tail);
    assert q[4] == header[4] && q[5] == header[5];
  }

  // ---- what the name says -------------------------------------------------------------------------

  /** The pieces between the dots. */
  function Split(bs: Bytes): (ls: seq<Label>)
    ensures ls != []
  {
    if bs == [] then [[]]
    else if bs[0] == DOT then [[]] + Split(bs[1..])
    else var r := Split(bs[1..]); [[bs[0]] + r[0]] + r[1..]
  }

  lemma {:induction false} SplitPlain(bs: Bytes)
    requires DOT !in bs
    ensures Split(bs) == [bs]
    decreases |bs|
  {
    if bs != [] {
      SplitPlain(bs[1..]);
      assert bs == [bs[0]] + bs[1..];
    }
  }

  /** One byte more in front of the pieces. */
  function Front(b: byte, ls: seq<Label>): seq<Label>
    requires ls != []
  {
    if b == DOT then [[]] + ls else [[b] + ls[0]] + ls[1..]
  }

  lemma SplitOne(bs: Bytes)
    requires bs != []
    ensures Split(bs) == Front(bs[0], Split(bs[1..]))
  {
  }

  lemma FrontMore(b: byte, r: seq<Label>, more: seq<Label>)
    requires r != []
    ensures Front(b, r + more) == Front(b, r) + more
  {
    assert (r + more)[1..] == r[1..] + more;
    assert [[]] + (r + more) == [[]] + r + more;
    assert [[b] + r[0]] + (r[1..] + more) == [[b] + r[0]] + r[1..] + more;
  }

  lemma SplitNone(b: Bytes)
    ensures Split([]) == [[]] && Split([DOT] + b) == [[]] + Split(b)
  {
    assert ([DOT] + b)[1..] == b;
  }

  lemma {:induction false} SplitAtDot(a: Bytes, b: Bytes)
    ensures Split(a + [DOT] + b) == Split(a) + Split(b)
    decreases |a|
  {
    hide Split, Front;
    if a == [] {
      assert a + [DOT] + b == [DOT] + b;
      SplitNone(b);
    } else {
      SplitAtDot(a[1..], b);
      var whole := a + [DOT] + b;
      assert whole[0] == a[0] && whole[1..] == a[1..] + [DOT] + b;
      SplitOne(whole);
      SplitOne(a);
      FrontMore(a[0], Split(a[1..]), Split(b));
    }
  }

  /** Upper-case ASCII letters, and nothing else, are moved to their lower case. */
  lemma LowerFolds(b: byte)
    ensures var l := Lower(b);
            && !('A' as int <= l as int <= 'Z' as int)
            && (l == b || ('A' as int <= b as int <= 'Z' as int && l as int - 'a' as int == b as int - 'A' as int))
  {
  }

  lemma LowerMore(a: Bytes, b: Bytes)
    ensures LowerAll(a + b) == LowerAll(a) + LowerAll(b)
  {
  }

  function LowerEach(labels: seq<Label>): seq<Label> { seq(|labels|, i requires 0 <= i < |labels| => LowerAll(labels[i])) }

  lemma NoNewDots(l: Label)
    requires DOT !in l
    ensures DOT !in LowerAll(l)
  {
  }

  /** The name read at its dots gives back the labels, in order and in lower case. */
  lemma {:induction false} NameReadsBack(labels: seq<Label>)
    requires GoodLabels(labels) && labels != []
    ensures Split(LowerAll(Join(labels))) == LowerEach(labels)
    decreases |labels|
  {
    hide LowerAll, Split;
    var k := |labels| - 1;
    assert GoodLabel(labels[k]);
    NoNewDots(labels[k]);
    SplitPlain(LowerAll(labels[k]));
    if k > 0 {
      var front := labels[..k];
      NameReadsBack(front);
      LowerMore(Join(front) + [DOT], labels[k]);
      LowerMore(Join(front), [DOT]);
      assert LowerAll([DOT]) == [DOT] by { DotStays(); }
      SplitAtDot(LowerAll(Join(front)), LowerAll(labels[k]));
      assert LowerEach(labels) == LowerEach(front) + [LowerAll(labels[k])];
    }
  }

  lemma DotStays()
    ensures LowerAll([DOT]) == [DOT]
  {
  }

  // ---- what an answer is -------------------------------------------------------------------------

  /** One address record, as a resolver reads it: the name by its pointer. */
  datatype Record = Record(owner: seq<Label>, rtype: nat, rclass: nat, ttl: nat, address: Bytes)

  /** Follow a compression pointer. */
  function PointedName(msg: Bytes, at: nat): Option<seq<Label>>
    requires at + 2 <= |msg|
  {
    if msg[at] < 0xc0 then None else
    match Walk(msg, U16(msg, at) - 0xc000)
    case None => None
    case Some(w) => Some(w.0)
  }

  function ReadRecord(msg: Bytes, at: nat): Option<Record> {
    if at + 12 > |msg| then None else
    var len := U16(msg, at + 10);
    if at + 12 + len > |msg| then None else
    match PointedName(msg, at)
    case None => None
    case Some(owner) => Some(Record(owner, U16(msg, at + 2), U16(msg, at + 4), U16(msg, at + 6) * WORD + U16(msg, at + 8), msg[at + 12..at + 12 + len]))
  }

  lemma CountedBytes(q: Bytes, answers: byte, flags: byte)
    requires |q| >= HEADER
    ensures var r := Counted(q, answers, flags);
            && r[0] == q[0] && r[1] == q[1] && r[2] == Answering(q[2]) && r[3] == flags && r[4] == q[4] && r[5] == q[5]
            && U16(r, 6) == answers as nat && U16(r, 8) == 0 && U16(r, 10) == 0 && r[12..] == q[12..]
  {
  }

  /** Only the header is rewritten. */
  lemma CountedHeader(header: Bytes, more: Bytes, answers: byte, flags: byte)
    requires |header| == HEADER
    ensures Counted(header + more, answers, flags) == Counted(header, answers, flags) + more
  {
    hide Answering;
    var q := header + more;
    assert q[..2] == header[..2] && q[4..6] == header[4..6] && q[12..] == more && header[12..] == [] && q[2] == header[2];
  }

  lemma AnswerShape(header: Bytes, labels: seq<Label>, qtype: nat, qclass: nat, tail: Bytes, ip: Ip)
    requires |header| == HEADER && U16(header, 4) >= 1 && GoodLabels(labels) && qtype < WORD && qclass < WORD
    ensures BuildA(Query(header, labels, qtype, qclass, tail), ip)
         == Query(Counted(header, 1, 0x80), labels, qtype, qclass, RECORD + ip)
  {
    hide Walk, NameEnd, EncodeName, Join, Counted, LowerAll, QuestionEnd;
    var q := Query(header, labels, qtype, qclass, tail);
    ParsesQueries(header, labels, qtype, qclass, tail);
    var end := QuestionEnd(q);
    var word := [Hi(qtype), Lo(qtype), Hi(qclass), Lo(qclass)];
    assert q[..end] == header + (EncodeName(labels) + word);
    CountedHeader(header, EncodeName(labels) + word, 1, 0x80);
  }

  /** The answer to any such query keeps its id and its question, says it is an
    * authoritative response with one answer, and carries one address record whose
    * name points back at the question and whose address is the one given. */
  lemma AnswersUndoQueries(header: Bytes, labels: seq<Label>, qtype: nat, qclass: nat, tail: Bytes, ip: Ip)
    requires |header| == HEADER && U16(header, 4) >= 1 && GoodLabels(labels) && qtype < WORD && qclass < WORD
    ensures var q := Query(header, labels, qtype, qclass, tail);
            var r := BuildA(q, ip);
            && ParseQuestion(r) == ParseQuestion(q) == Some(Question(LowerAll(Join(labels)), qtype))
            && |r| == QuestionEnd(q) + 16 && QuestionEnd(r) == QuestionEnd(q)
            && r[0..2] == q[0..2] && r[2] == Answering(q[2]) && r[3] == 0x80
            && U16(r, 4) == U16(q, 4) && U16(r, 6) == 1 && U16(r, 8) == 0 && U16(r, 10) == 0
            && ReadRecord(r, QuestionEnd(q)) == Some(Record(labels, 1, 1, 30, ip))
  {
    hide Walk, NameEnd, EncodeName, Join, Answering, LowerAll, BuildA, ParseQuestion, QuestionEnd;
    AnswerShape(header, labels, qtype, qclass, tail, ip);
    ParsesQueries(header, labels, qtype, qclass, tail);
    CountedBytes(header, 1, 0x80);
    ParsesQueries(Counted(header, 1, 0x80), labels, qtype, qclass, RECORD + ip);
    var q, r := Query(header, labels, qtype, qclass, tail), BuildA(Query(header, labels, qtype, qclass, tail), ip);
    var at := QuestionEnd(q);
    assert r[at..] == RECORD + ip;
    assert forall i :: 0 <= i < HEADER ==> r[i] == Counted(header, 1, 0x80)[i] && q[i] == header[i];
    RecordReads(r, at, labels, ip);
  }

  lemma RecordBytes(r: Bytes, at: nat, ip: Ip)
    requires at <= |r| && r[at..] == RECORD + ip
    ensures |r| == at + 16 && U16(r, at) == 0xc00c && U16(r, at + 2) == 1 && U16(r, at + 4) == 1
    ensures U16(r, at + 6) == 0 && U16(r, at + 8) == 30 && U16(r, at + 10) == 4 && r[at + 12..at + 16] == ip
  {
    var t := r[at..];
    assert t[0] == 0xc0 && t[1] == 0x0c && t[2] == 0 && t[3] == 1 && t[4] == 0 && t[5] == 1;
    assert t[6] == 0 && t[7] == 0 && t[8] == 0 && t[9] == 30 && t[10] == 0 && t[11] == 4;
    assert t[12..16] == ip && r[at + 12..at + 16] == t[12..16];
  }

  lemma RecordReads(r: Bytes, at: nat, labels: seq<Label>, ip: Ip)
    requires at <= |r| && r[at..] == RECORD + ip && Walk(r, HEADER).Some? && Walk(r, HEADER).value.0 == labels
    ensures ReadRecord(r, at) == Some(Record(labels, 1, 1, 30, ip))
  {
    hide Walk;
    RecordBytes(r, at, ip);
  }

  // ---- the walks as they run -----------------------------------------------------------------------

  method FindQuestionEnd(msg: Bytes) returns (end: nat)
    ensures end == QuestionEnd(msg)
  {
    var off := HEADER;
    while off < |msg|
      invariant NameEnd(msg, off) == NameEnd(msg, HEADER)
      decreases |msg| - off
    {
      var n := msg[off] as nat;
      if n == 0 { return off + 1 + 4; }
      off := off + 1 + n;
    }
    return off + 4;
  }

  method Parse(msg: Bytes) returns (q: Option<Question>)
    ensures q == ParseQuestion(msg)
  {
    if |msg| < HEADER || U16(msg, 4) < 1 { return None; }
    var off, labels := HEADER, [];
    var done := false;
    PrependNone(Walk(msg, HEADER));
    while off < |msg| && !done
      invariant HEADER <= off <= |msg|
      invariant Walk(msg, HEADER) == if done then Some((labels, off)) else Prepend(labels, Walk(msg, off))
      decreases |msg| - off, !done
    {
      var n := msg[off] as nat;
      if n == 0 {
        off := off + 1;
        done := true;
        assert labels + [] == labels;
      } else {
        if n >= 64 || off + 1 + n > |msg| { return None; }
        PrependMore(labels, msg[off + 1..off + 1 + n], Walk(msg, off + 1 + n));
        labels := labels + [msg[off + 1..off + 1 + n]];
        off := off + 1 + n;
      }
    }
    assert labels + [] == labels;
    if off + 4 > |msg| { return None; }
    return Some(Question(LowerAll(Join(labels)), U16(msg, off)));
  }

  function Prepend(labels: seq<Label>, w: Option<(seq<Label>, nat)>): Option<(seq<Label>, nat)> {
    match w case None => None case Some(x) => Some((labels + x.0, x.1))
  }

  lemma PrependNone(w: Option<(seq<Label>, nat)>)
    ensures Prepend([], w) == w
  {
    match w
    case None =>
    case Some(x) => assert [] + x.0 == x.0;
  }

  lemma PrependMore(labels: seq<Label>, l: Label, w: Option<(seq<Label>, nat)>)
    ensures Prepend(labels, Prepend([l], w)) == Prepend(labels + [l], w)
  {
    match w
    case None =>
    case Some(x) => assert labels + ([l] + x.0) == labels + [l] + x.0;
  }

  /** A refusal keeps id and question too, has no records of any kind, and carries the
    * response code asked for. */
  lemma RefusalsKeepTheQuestion(header: Bytes, labels: seq<Label>, qtype: nat, qclass: nat, tail: Bytes, rcode: byte)
    requires |header| == HEADER && U16(header, 4) >= 1 && GoodLabels(labels) && qtype < WORD && qclass < WORD
    ensures var q := Query(header, labels, qtype, qclass, tail);
            var r := HeaderOnly(q, rcode);
            && ParseQuestion(r) == ParseQuestion(q) && |r| == QuestionEnd(q) == QuestionEnd(r)
            && r[0..2] == q[0..2] && r[2] == Answering(q[2]) && r[3] as nat == 128 + rcode as nat % 16
            && U16(r, 4) == U16(q, 4) && U16(r, 6) == 0 && U16(r, 8) == 0 && U16(r, 10) == 0
  {
    hide Walk, NameEnd, EncodeName, Join, Answering, LowerAll, ParseQuestion;
    var q := Query(header, labels, qtype, qclass, tail);
    var flags := (128 + rcode as nat % 16) as byte;
    ParsesQueries(header, labels, qtype, qclass, tail);
    CountedBytes(header, 0, flags);
    ParsesQueries(Counted(header, 0, flags), labels, qtype, qclass, []);
    RefusalShape(header, labels, qtype, qclass, tail, rcode);
    assert forall i :: 0 <= i < HEADER ==> Query(Counted(header, 0, flags), labels, qtype, qclass, [])[i] == Counted(header, 0, flags)[i] && q[i] == header[i];
  }

  lemma RefusalShape(header: Bytes, labels: seq<Label>, qtype: nat, qclass: nat, tail: Bytes, rcode: byte)
    requires |header| == HEADER && U16(header, 4) >= 1 && GoodLabels(labels) && qtype < WORD && qclass < WORD
    ensures HeaderOnly(Query(header, labels, qtype, qclass, tail), rcode)
         == Query(Counted(header, 0, (128 + rcode as nat % 16) as byte), labels, qtype, qclass, [])
  {
    hide Walk, NameEnd, EncodeName, Join, Counted, LowerAll, QuestionEnd;
    var q := Query(header, labels, qtype, qclass, tail);
    ParsesQueries(header, labels, qtype, qclass, tail);
    var end := QuestionEnd(q);
    var flags := (128 + rcode as nat % 16) as byte;
    var word := [Hi(qtype), Lo(qtype), Hi(qclass), Lo(qclass)];
    assert q[..end] == header + (EncodeName(labels) + word);
    CountedHeader(header, EncodeName(labels) + word, 0, flags);
    assert Counted(header, 0, flags) + (EncodeName(labels) + word) + [] == Counted(header, 0, flags) + (EncodeName(labels) + word);
  }

  // ---- the header rewritten in its buffer -----------------------------------------------------------

  method RewriteHeader(resp: array<byte>, answers: byte, flags: byte)
    requires resp.Length >= HEADER
    modifies resp
    ensures resp[..] == Counted(old(resp[..]), answers, flags)
  {
    resp[2] := Answering(resp[2]);
    resp[3] := flags;
    resp[6], resp[7] := 0, answers;
    resp[8], resp[9] := 0, 0;
    resp[10], resp[11] := 0, 0;
  }

  method MakeRefusal(q: Bytes, rcode: byte) returns (resp: Bytes)
    ensures resp == HeaderOnly(q, rcode)
  {
    hide QuestionEnd, Counted;
    var end := FindQuestionEnd(q);
    if end > |q| { end := |q|; }
    var buf := new byte[end](i requires 0 <= i < end => q[i]);
    assert buf[..] == q[..end];
    if buf.Length >= HEADER { RewriteHeader(buf, 0, (128 + rcode as nat % 16) as byte); }
    resp := buf[..];
  }

  method MakeAnswer(q: Bytes, ip: Ip) returns (resp: Bytes)
    ensures resp == BuildA(q, ip)
  {
    hide Counted, NameEnd, HeaderOnly;
    var end := FindQuestionEnd(q);
    if end > |q| {
      resp := MakeRefusal(q, 2);
      return;
    }
    var buf := new byte[end](i requires 0 <= i < end => q[i]);
    assert buf[..] == q[..end];
    RewriteHeader(buf, 1, 0x80);
    resp := buf[..] + RECORD;
    resp := resp + ip;
  }
}
