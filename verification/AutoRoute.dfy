/** The headless consumer: a learning switch that answers every token over the
  * wire with its own verdicts. */
module AutoRoute {
  import opened Basics
  import opened LoftCore
  import opened Cluster
  import opened Pigeons
  import opened PigeonRuns
  import opened PigeonsAndLoft
  import F = Frames

  type Mac = seq<byte>

  function DstMac(snap: Payload): Mac
    requires |snap| >= 14
  {
    snap[0..6]
  }

  function SrcMac(snap: Payload): Mac
    requires |snap| >= 14
  {
    snap[6..12]
  }

  /** They are the frame's own destination and source, however short the snapshot. */
  lemma ReadsTheAddresses(dst: F.Mac, src: F.Mac, etherType: nat, payload: Payload)
    ensures var snap := Snapshot(F.Ethernet(dst, src, etherType, payload));
            |snap| >= 14 && DstMac(snap) == dst && SrcMac(snap) == src
  {
  }

  /** One copy for every listed port but `ingress`. */
  function Copies(ports: seq<PortId>, ingress: PortId, fid: Fid): seq<Verdict> {
    if ports == [] then []
    else Copies(ports[..|ports| - 1], ingress, fid)
         + if ports[|ports| - 1] != ingress then [Verdict(CopyDeliver, ports[|ports| - 1], fid)] else []
  }

  /** What the consumer answers, once it has learned the source. */
  function Answer(table: map<Mac, PortId>, ports: seq<PortId>, tok: Token): seq<Verdict> {
    if |tok.snapshot| < 14 then [Verdict(Drop, 0, tok.fid)] else
    var dst := DstMac(tok.snapshot);
    if dst in table && table[dst] != tok.port then [Verdict(Deliver, table[dst], tok.fid)]
    else Copies(ports, tok.port, tok.fid) + [Verdict(Drop, 0, tok.fid)]
  }

  predicate Unique(ports: seq<PortId>) { forall i, j :: 0 <= i < j < |ports| ==> ports[i] != ports[j] }

  /** The ports a list of verdicts hands payloads to. */
  function Reached(vs: seq<Verdict>): set<PortId> { set v | v in vs && v.verb != Drop :: v.port }

  lemma {:induction false} CopiesReach(ports: seq<PortId>, ingress: PortId, fid: Fid)
    ensures Reached(Copies(ports, ingress, fid)) == (set p | p in ports && p != ingress)
    ensures forall v :: v in Copies(ports, ingress, fid) ==> v.verb == CopyDeliver && v.fid == fid
    ensures VerbsOf(Copies(ports, ingress, fid), fid) == seq(|Copies(ports, ingress, fid)|, i => CopyDeliver)
    decreases |ports|
  {
    if ports == [] {
      assert Copies(ports, ingress, fid) == [];
    } else {
      var front, p := ports[..|ports| - 1], ports[|ports| - 1];
      CopiesReach(front, ingress, fid);
      assert ports == front + [p];
      var before, after := Copies(front, ingress, fid), Copies(ports, ingress, fid);
      if p != ingress {
        var v := Verdict(CopyDeliver, p, fid);
        VerbsMore(before, v, fid);
        ReachedMore(before, v);
      } else {
        assert after == before;
      }
    }
  }

  lemma ReachedMore(vs: seq<Verdict>, v: Verdict)
    ensures Reached(vs + [v]) == Reached(vs) + if v.verb == Drop then {} else {v.port}
  {
    assert (vs + [v])[|vs|] == v;
    assert forall x :: x in vs + [v] <==> x in vs || x == v;
  }

  lemma SingleFinal(v: Verdict)
    requires v.verb != CopyDeliver
    ensures Finished(VerbsOf([v], v.fid))
  {
    assert [v] == [] + [v];
    VerbsMore([], v, v.fid);
    assert VerbsOf([v], v.fid) == [v.verb];
  }

  lemma FloodEnds(ports: seq<PortId>, ingress: PortId, fid: Fid)
    ensures Finished(VerbsOf(Copies(ports, ingress, fid) + [Verdict(Drop, 0, fid)], fid))
    ensures forall v :: v in Copies(ports, ingress, fid) + [Verdict(Drop, 0, fid)] ==> v.fid == fid
  {
    hide Copies, VerbsOf, Reached, Finished;
    CopiesReach(ports, ingress, fid);
    var copies := Copies(ports, ingress, fid);
    VerbsMore(copies, Verdict(Drop, 0, fid), fid);
    CopiesMore(VerbsOf(copies, fid), Drop);
  }

  /** Every token is answered by copies and then exactly one consuming verb, all
    * naming that token's own frame and nothing else. */
  lemma OneConsumingVerb(table: map<Mac, PortId>, ports: seq<PortId>, tok: Token)
    ensures Finished(VerbsOf(Answer(table, ports, tok), tok.fid))
    ensures forall v :: v in Answer(table, ports, tok) ==> v.fid == tok.fid
  {
    hide Copies, VerbsOf, Finished;
    SingleFinal(Verdict(Drop, 0, tok.fid));
    if |tok.snapshot| >= 14 {
      var dst := DstMac(tok.snapshot);
      if dst in table && table[dst] != tok.port {
        SingleFinal(Verdict(Deliver, table[dst], tok.fid));
      } else {
        FloodEnds(ports, tok.port, tok.fid);
      }
    }
  }

  /** The home port of a known destination gets the frame, and the port it came in
    * on never does; an unknown destination reaches every other known port. */
  lemma AnswerReaches(table: map<Mac, PortId>, ports: seq<PortId>, tok: Token)
    requires |tok.snapshot| >= 14
    ensures tok.port !in Reached(Answer(table, ports, tok))
    ensures var dst := DstMac(tok.snapshot);
            Reached(Answer(table, ports, tok)) == if dst in table && table[dst] != tok.port then {table[dst]} else (set p | p in ports && p != tok.port)
  {
    var dst := DstMac(tok.snapshot);
    if dst in table && table[dst] != tok.port {
      var v := Verdict(Deliver, table[dst], tok.fid);
      ReachedMore([], v);
      assert [] + [v] == [v];
    } else {
      CopiesReach(ports, tok.port, tok.fid);
      ReachedMore(Copies(ports, tok.port, tok.fid), Verdict(Drop, 0, tok.fid));
    }
  }

  function Learned(table: map<Mac, PortId>, tok: Token): map<Mac, PortId> {
    if |tok.snapshot| >= 14 then table[SrcMac(tok.snapshot) := tok.port] else table
  }

  function TableAfter(toks: seq<Token>): map<Mac, PortId> {
    if toks == [] then map[] else Learned(TableAfter(toks[..|toks| - 1]), toks[|toks| - 1])
  }

  /** Every MAC always enters on its own port. */
  predicate AtHome(toks: seq<Token>, home: map<Mac, PortId>) {
    forall i :: 0 <= i < |toks| && |toks[i].snapshot| >= 14 ==>
      SrcMac(toks[i].snapshot) in home && home[SrcMac(toks[i].snapshot)] == toks[i].port
  }

  lemma {:induction false} TableTrue(toks: seq<Token>, home: map<Mac, PortId>)
    requires AtHome(toks, home)
    ensures forall m :: m in TableAfter(toks) ==> m in home && TableAfter(toks)[m] == home[m]
    decreases |toks|
  {
    if toks != [] { TableTrue(toks[..|toks| - 1], home); }
  }

  /** With every MAC on its own port, after any history, a frame reaches its host
    * exactly when that host's port is not the one it came from and the port is
    * either learned or listed; it never goes back the way it came. */
  lemma UnicastReachesItsHost(toks: seq<Token>, ports: seq<PortId>, tok: Token, home: map<Mac, PortId>)
    requires AtHome(toks + [tok], home) && |tok.snapshot| >= 14 && DstMac(tok.snapshot) in home
    ensures var dst, table := DstMac(tok.snapshot), TableAfter(toks + [tok]);
            && tok.port !in Reached(Answer(table, ports, tok))
            && (home[dst] in Reached(Answer(table, ports, tok)) <==> home[dst] != tok.port && (dst in table || home[dst] in ports))
  {
    TableTrue(toks + [tok], home);
    AnswerReaches(TableAfter(toks + [tok]), ports, tok);
  }

  /** Whatever it answered, the loft is done with the frame afterwards, unless it
    * was sent to a port the loft does not have, and exactly then it is not. */
  lemma AnswerFreesTheFrameIff(l: Loft, table: map<Mac, PortId>, ports: seq<PortId>, tok: Token)
    requires l.byID <= l.stats.Keys && tok.fid in l.frames
    ensures var answer := Answer(table, ports, tok);
            tok.fid in ApplyAll(l, answer).frames <==>
              |tok.snapshot| >= 14 && DstMac(tok.snapshot) in table && table[DstMac(tok.snapshot)] !in l.byID + {tok.port}
  {
    hide ApplyAll, Finished, VerbsOf;
    OneConsumingVerb(table, ports, tok);
    FinishedLeavesTheLoftIff(l, Answer(table, ports, tok), tok.fid);
  }

  class Consumer {
    var macTable: map<Mac, PortId>
    var ports: seq<PortId>   // in the order they were announced
    var delivered: nat
    var flooded: nat
    var dropped: nat
    ghost var seen: seq<Token>

    ghost predicate Valid()
      reads this
    {
      Unique(ports) && macTable == TableAfter(seen)
    }

    constructor ()
      ensures Valid() && seen == [] && ports == []
    {
      macTable, ports, delivered, flooded, dropped, seen := map[], [], 0, 0, 0, [];
    }

    method PortAdded(p: PortId)
      requires Valid()
      modifies `ports
      ensures Valid() && (forall q :: q in ports <==> q in old(ports) || q == p)
    {
      if p !in ports { ports := ports + [p]; }
    }

    method PortRemoved(p: PortId)
      requires Valid()
      modifies `ports
      ensures Valid() && (forall q :: q in ports <==> q in old(ports) && q != p)
    {
      for i := 0 to |ports|
        invariant ports == old(ports) && p !in ports[..i]
      {
        if ports[i] == p {
          ports := ports[..i] + ports[i + 1..];
          assert forall q :: q in old(ports) <==> q in old(ports)[..i] || q == p || q in old(ports)[i + 1..];
          return;
        }
        assert ports[..i + 1] == ports[..i] + [ports[i]];
      }
      assert ports[..|ports|] == ports;
    }

    /** Learn where the source lives, then answer. */
    method OnToken(tok: Token) returns (vs: seq<Verdict>)
      requires Valid()
      modifies `macTable, `delivered, `flooded, `dropped, `seen
      ensures Valid() && seen == old(seen) + [tok]
      ensures vs == Answer(macTable, ports, tok)
      ensures delivered + flooded + dropped == old(delivered) + old(flooded) + old(dropped) + 1
      ensures delivered == old(delivered) + if vs[0].verb == Deliver then 1 else 0
      ensures flooded == old(flooded) + if vs[0].verb == CopyDeliver then 1 else 0
    {
      assert (seen + [tok])[..|seen|] == seen;
      seen := seen + [tok];
      vs := [];
      if |tok.snapshot| >= 14 {
        macTable := macTable[SrcMac(tok.snapshot) := tok.port];
        var dst := DstMac(tok.snapshot);
        if dst in macTable && macTable[dst] != tok.port {
          delivered := delivered + 1;
          return [Verdict(Deliver, macTable[dst], tok.fid)];
        }
        for i := 0 to |ports|
          invariant vs == Copies(ports[..i], tok.port, tok.fid)
          invariant forall v :: v in vs ==> v.verb == CopyDeliver
        {
          assert ports[..i + 1][..i] == ports[..i];
          if ports[i] != tok.port { vs := vs + [Verdict(CopyDeliver, ports[i], tok.fid)]; }
        }
        assert ports[..|ports|] == ports;
        var copies := |vs|;
        vs := vs + [Verdict(Drop, 0, tok.fid)];
        if copies > 0 { flooded := flooded + 1; return; }
      } else {
        vs := [Verdict(Drop, 0, tok.fid)];
      }
      dropped := dropped + 1;
    }
  }
}
