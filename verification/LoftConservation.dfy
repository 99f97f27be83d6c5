/** Every atomic section of a loft keeps its books balanced. */
module LoftConservation {
  import opened Basics
  import opened LoftCore

  ghost predicate Extends<K, V>(m: map<K, V>, n: map<K, V>) {
    forall k :: k in m ==> k in n && n[k] == m[k]
  }

  /** Nothing recorded is ever forgotten or rewritten. */
  ghost predicate Grows(l: Loft, m: Loft) {
    && l.stats.Keys <= m.stats.Keys
    && l.nextID <= m.nextID
    && l.nextFID <= m.nextFID
    && Extends(l.hist.born, m.hist.born)
    && Extends(l.hist.fate, m.hist.fate)
  }

  // ---- the per-port counters ------------------------------------------------------

  lemma EndedAddBorn(born: Frames, fate: Fates, fid: Fid, f: BufFrame, kind: Fate, p: PortId)
    requires fid !in fate
    ensures Ended(born[fid := f], fate, kind, p) == Ended(born, fate, kind, p)
  {
  }

  lemma EndedAddFate(born: Frames, fate: Fates, fid: Fid, x: Fate, kind: Fate, p: PortId)
    requires fid !in fate && fid in born
    ensures Ended(born, fate[fid := x], kind, p)
         == Ended(born, fate, kind, p) + if x == kind && born[fid].port == p then {fid} else {}
  {
  }

  /** Counters other than the two drop counters are free to move. */
  lemma CountersOther(stats: map<PortId, PortStats>, after: map<PortId, PortStats>, born: Frames, fate: Fates)
    requires CountersExact(stats, born, fate)
    requires forall p :: p in after ==> p in stats && after[p].consumer == stats[p].consumer && after[p].ttl == stats[p].ttl
    ensures CountersExact(after, born, fate)
  {
  }

  lemma CountersBorn(stats: map<PortId, PortStats>, born: Frames, fate: Fates, fid: Fid, f: BufFrame)
    requires CountersExact(stats, born, fate) && fid !in fate
    ensures CountersExact(stats, born[fid := f], fate)
  {
    forall p | p in stats
      ensures stats[p].consumer == |Ended(born[fid := f], fate, Dropped(true), p)|
      ensures stats[p].ttl == |Ended(born[fid := f], fate, Expired(true), p)|
    {
      EndedAddBorn(born, fate, fid, f, Dropped(true), p);
      EndedAddBorn(born, fate, fid, f, Expired(true), p);
    }
  }

  /** An uncounted end moves neither drop counter. */
  lemma CountersUncounted(stats: map<PortId, PortStats>, born: Frames, fate: Fates, fid: Fid, x: Fate)
    requires CountersExact(stats, born, fate) && fid !in fate && fid in born
    requires x != Dropped(true) && x != Expired(true)
    ensures CountersExact(stats, born, fate[fid := x])
  {
    forall p | p in stats
      ensures stats[p].consumer == |Ended(born, fate[fid := x], Dropped(true), p)|
      ensures stats[p].ttl == |Ended(born, fate[fid := x], Expired(true), p)|
    {
      EndedAddFate(born, fate, fid, x, Dropped(true), p);
      EndedAddFate(born, fate, fid, x, Expired(true), p);
    }
  }

  /** A counted drop moves its port's consumer counter, and only that. */
  lemma CountersDropped(stats: map<PortId, PortStats>, after: map<PortId, PortStats>, born: Frames, fate: Fates, fid: Fid)
    requires CountersExact(stats, born, fate) && fid !in fate && fid in born && born[fid].port in stats
    requires var s := stats[born[fid].port]; after == stats[born[fid].port := s.(consumer := s.consumer + 1)]
    ensures CountersExact(after, born, fate[fid := Dropped(true)])
  {
    forall p | p in after
      ensures after[p].consumer == |Ended(born, fate[fid := Dropped(true)], Dropped(true), p)|
      ensures after[p].ttl == |Ended(born, fate[fid := Dropped(true)], Expired(true), p)|
    {
      EndedAddFate(born, fate, fid, Dropped(true), Dropped(true), p);
      EndedAddFate(born, fate, fid, Dropped(true), Expired(true), p);
    }
  }

  lemma CountersNewPort(stats: map<PortId, PortStats>, born: Frames, fate: Fates, p: PortId)
    requires CountersExact(stats, born, fate)
    requires Ended(born, fate, Dropped(true), p) == {} && Ended(born, fate, Expired(true), p) == {}
    ensures CountersExact(stats[p := NO_STATS], born, fate)
  {
  }

  // ---- the buffer and its record ---------------------------------------------------

  lemma AccountedBuffer(frames: Frames, born: Frames, fate: Fates, fid: Fid, f: BufFrame)
    requires Accounted(frames, born, fate) && fid !in born && !f.copied
    ensures Accounted(frames[fid := f], born[fid := f], fate)
  {
  }

  lemma AccountedEnd(frames: Frames, born: Frames, fate: Fates, fid: Fid, x: Fate)
    requires Accounted(frames, born, fate) && fid in frames
    ensures Accounted(frames - {fid}, born, fate[fid := x])
    ensures fid !in fate && fid in born && born[fid].port == frames[fid].port
  {
  }

  lemma AccountedCopy(frames: Frames, born: Frames, fate: Fates, fid: Fid)
    requires Accounted(frames, born, fate) && fid in frames
    ensures Accounted(frames[fid := frames[fid].(copied := true)], born, fate)
    ensures |frames[fid := frames[fid].(copied := true)]| == |frames|
  {
    assert frames[fid := frames[fid].(copied := true)].Keys == frames.Keys;
  }

  lemma AccountedSweep(frames: Frames, born: Frames, fate: Fates, gone: Fates)
    requires Accounted(frames, born, fate) && gone.Keys <= frames.Keys
    ensures Accounted(frames - gone.Keys, born, fate + gone)
    ensures Extends(fate, fate + gone)
  {
  }

  lemma FewerFrames(frames: Frames, gone: set<Fid>)
    ensures |frames - gone| <= |frames|
  {
    SubsetSize((frames - gone).Keys, frames.Keys);
  }

  lemma BornWellGrows(born: Frames, ports: set<PortId>, n: nat, more: set<PortId>, m: nat)
    requires BornWell(born, ports, n) && ports <= more && n <= m
    ensures BornWell(born, more, m)
  {
  }

  // ---- one lemma per atomic section -------------------------------------------------

  lemma InitBooks(now: Time)
    ensures LoftInv(Init(now))
  {
  }

  /** A port without a past has no ended frames. */
  lemma NoPast(l: Loft, p: PortId, kind: Fate)
    requires LoftInv(l) && p !in l.stats
    ensures Ended(l.hist.born, l.hist.fate, kind, p) == {}
  {
  }

  lemma IdsAdvance(l: Loft)
    requires BeforeWrap(l)
    ensures NextPortId(l.nextID) == l.nextID + 1 && NextFrameId(l.nextFID) == l.nextFID + 1
  {
  }

  lemma NewPortIsNew(l: Loft)
    requires LoftInv(l)
    ensures l.nextID !in l.stats
    ensures Ended(l.hist.born, l.hist.fate, Dropped(true), l.nextID) == {}
    ensures Ended(l.hist.born, l.hist.fate, Expired(true), l.nextID) == {}
    ensures PortsBelow(l.stats.Keys + {l.nextID}, l.nextID + 1)
  {
    NoPast(l, l.nextID, Dropped(true));
    NoPast(l, l.nextID, Expired(true));
  }

  lemma AddPortBooks(l: Loft)
    requires LoftInv(l) && BeforeWrap(l)
    ensures LoftInv(AddPort(l)) && Grows(l, AddPort(l))
  {
    hide Accounted, BornWell, CountersExact, Ended, PortsBelow, Unexpired, NextPortId, NextFrameId;
    IdsAdvance(l);
    NewPortIsNew(l);
    var ports := l.stats.Keys + {l.nextID};
    assert l.stats[l.nextID := NO_STATS].Keys == ports;
    assert l.byID + {l.nextID} <= ports;
    BornWellGrows(l.hist.born, l.stats.Keys, l.nextFID, ports, l.nextFID);
    CountersNewPort(l.stats, l.hist.born, l.hist.fate, l.nextID);
    assert Extends(l.hist.born, l.hist.born) && Extends(l.hist.fate, l.hist.fate);
  }

  lemma RemovePortBooks(l: Loft, p: PortId)
    requires LoftInv(l)
    ensures LoftInv(RemovePort(l, p)) && Grows(l, RemovePort(l, p))
  {
  }

  lemma CountRxBooks(l: Loft, p: PortId, len: nat)
    requires LoftInv(l) && p in l.stats
    ensures var m := CountRx(l, p, len);
            LoftInv(m.(hist := l.hist)) && Grows(l, m)
  {
    var m := CountRx(l, p, len);
    assert m.stats.Keys == l.stats.Keys;
    CountersOther(l.stats, m.stats, l.hist.born, l.hist.fate);
  }

  lemma ShedBooks(l: Loft, p: PortId)
    requires LoftInv(l) && p in l.stats
    ensures var m := Shed(l, p); LoftInv(m.(hist := l.hist)) && Grows(l, m)
  {
    var m := Shed(l, p);
    assert m.stats.Keys == l.stats.Keys;
    CountersOther(l.stats, m.stats, l.hist.born, l.hist.fate);
  }

  lemma NewFidIsNew(l: Loft, f: BufFrame)
    requires LoftInv(l) && f.port in l.stats && |f.data| >= MIN_FRAME && !f.copied
    ensures l.nextFID !in l.hist.born && l.nextFID !in l.hist.fate && l.nextFID !in l.frames
    ensures BornWell(l.hist.born[l.nextFID := f], l.stats.Keys, l.nextFID + 1)
  {
  }

  lemma BufferBooks(l: Loft, p: PortId, data: Payload, now: Time)
    requires LoftInv(l) && BeforeWrap(l) && p in l.stats && l.lastSweep <= now
    requires |data| >= MIN_FRAME && |l.frames| < MAX_BUFFERED
    ensures var m := Buffer(l, p, data, now);
            LoftInv(m.(hist := m.hist.(received := m.hist.received + 1))) && Grows(l, m)
  {
    hide Accounted, BornWell, CountersExact, Ended;
    var f := BufFrame(p, data, now, false);
    NewFidIsNew(l, f);
    CountersBorn(l.stats, l.hist.born, l.hist.fate, l.nextFID, f);
    AccountedBuffer(l.frames, l.hist.born, l.hist.fate, l.nextFID, f);
  }

  /** Each ingest balances: the frame is unrouted, shed, or newly buffered. */
  lemma IngestBooks(l: Loft, p: PortId, data: Payload, now: Time)
    requires LoftInv(l) && BeforeWrap(l) && p in l.stats && l.lastSweep <= now
    ensures LoftInv(Ingest(l, p, data, now)) && Grows(l, Ingest(l, p, data, now))
  {
    hide Accounted, BornWell, CountersExact, Ended, PortsBelow, Unexpired;
    if IngestOutcome(l, p, data) != Ignored {
      CountRxBooks(l, p, |data|);
      var r := CountRx(l, p, |data|).(hist := l.hist);
      if IngestOutcome(l, p, data).Overflow? {
        ShedBooks(r, p);
      } else if IngestOutcome(l, p, data).Accepted? {
        BufferBooks(r, p, data, now);
        assert Ingest(l, p, data, now)
            == var m := Buffer(r, p, data, now); m.(hist := m.hist.(received := m.hist.received + 1));
      }
    }
  }

  lemma ConsumeBooks(l: Loft, fid: Fid, x: Fate)
    requires LoftInv(l) && fid in l.frames && x != Dropped(true) && x != Expired(true)
    ensures var m := l.(frames := l.frames - {fid}, hist := l.hist.(fate := l.hist.fate[fid := x]));
            LoftInv(m) && Grows(l, m)
  {
    FewerFrames(l.frames, {fid});
    AccountedEnd(l.frames, l.hist.born, l.hist.fate, fid, x);
    CountersUncounted(l.stats, l.hist.born, l.hist.fate, fid, x);
  }

  lemma ReleaseBooks(l: Loft, fid: Fid, consume: bool, cause: Vid)
    requires LoftInv(l) && fid in l.frames
    ensures var m := Release(l, fid, consume, cause); LoftInv(m) && Grows(l, m)
  {
    if consume {
      ConsumeBooks(l, fid, Delivered(cause));
    } else {
      AccountedCopy(l.frames, l.hist.born, l.hist.fate, fid);
    }
  }

  lemma PushBooks(l: Loft, fid: Fid, consume: bool, cause: Vid)
    requires LoftInv(l)
    ensures LoftInv(Push(l, fid, consume, cause)) && Grows(l, Push(l, fid, consume, cause))
  {
    if fid in l.frames { ReleaseBooks(l, fid, consume, cause); }
  }

  lemma CountTxBooks(l: Loft, p: PortId, len: nat)
    requires LoftInv(l) && p in l.stats
    ensures LoftInv(CountTx(l, p, len)) && Grows(l, CountTx(l, p, len))
  {
    var m := CountTx(l, p, len);
    assert m.stats.Keys == l.stats.Keys;
    CountersOther(l.stats, m.stats, l.hist.born, l.hist.fate);
  }

  lemma DeliverLocalBooks(l: Loft, p: PortId, fid: Fid, consume: bool, cause: Vid)
    requires LoftInv(l)
    ensures var m := DeliverLocal(l, p, fid, consume, cause); LoftInv(m) && Grows(l, m)
  {
    if CanDeliver(l, p, fid) {
      ReleaseBooks(l, fid, consume, cause);
      CountTxBooks(Release(l, fid, consume, cause), p, |l.frames[fid].data|);
    }
  }

  lemma PeerWriteBooks(l: Loft, p: PortId, data: Payload)
    requires LoftInv(l)
    ensures LoftInv(PeerWrite(l, p, data)) && Grows(l, PeerWrite(l, p, data))
  {
    if PeerAccepts(l, p, data) { CountTxBooks(l, p, |data|); }
  }

  lemma CountedDropBooks(l: Loft, fid: Fid)
    requires LoftInv(l) && fid in l.frames && DropIsCounted(l, l.frames[fid])
    ensures LoftInv(DropLocal(l, fid)) && Grows(l, DropLocal(l, fid))
  {
    hide Accounted, BornWell, CountersExact, Ended;
    var m := DropLocal(l, fid);
    FewerFrames(l.frames, {fid});
    AccountedEnd(l.frames, l.hist.born, l.hist.fate, fid, Dropped(true));
    CountersDropped(l.stats, m.stats, l.hist.born, l.hist.fate, fid);
    assert m.stats.Keys == l.stats.Keys;
  }

  lemma DropLocalBooks(l: Loft, fid: Fid)
    requires LoftInv(l)
    ensures LoftInv(DropLocal(l, fid)) && Grows(l, DropLocal(l, fid))
  {
    if fid in l.frames {
      var f := l.frames[fid];
      if DropIsCounted(l, f) {
        CountedDropBooks(l, fid);
      } else {
        ConsumeBooks(l, fid, Dropped(false));
      }
    }
  }

  // ---- sweeping ------------------------------------------------------------------

  function Expiries(l: Loft, now: Time): Fates {
    map fid | fid in StaleFrames(l, now) :: Expired(l.frames[fid].port in l.byID)
  }

  lemma SweptDrops(l: Loft, now: Time, p: PortId)
    requires LoftInv(l)
    ensures Ended(l.hist.born, l.hist.fate + Expiries(l, now), Dropped(true), p) == Ended(l.hist.born, l.hist.fate, Dropped(true), p)
  {
  }

  lemma SweptExpiries(l: Loft, now: Time, p: PortId)
    requires LoftInv(l)
    ensures Ended(l.hist.born, l.hist.fate + Expiries(l, now), Expired(true), p)
         == Ended(l.hist.born, l.hist.fate, Expired(true), p) + if p in l.byID then StaleFrom(l, now, p) else {}
  {
    hide Accounted, BornWell, CountersExact, Unexpired, Ended, Expiries, StaleFrom;
    var before := Ended(l.hist.born, l.hist.fate, Expired(true), p);
    var stale := if p in l.byID then StaleFrom(l, now, p) else {};
    var after := Ended(l.hist.born, l.hist.fate + Expiries(l, now), Expired(true), p);
    forall fid
      ensures fid in after <==> fid in before + stale
    {
      SweptExpiry(l, now, p, fid);
    }
  }

  lemma SweptExpiry(l: Loft, now: Time, p: PortId, fid: Fid)
    requires LoftInv(l)
    ensures fid in Ended(l.hist.born, l.hist.fate + Expiries(l, now), Expired(true), p)
       <==> fid in Ended(l.hist.born, l.hist.fate, Expired(true), p) || (p in l.byID && fid in StaleFrom(l, now, p))
  {
    if fid in l.frames {
      assert fid !in l.hist.fate && l.hist.born[fid].port == l.frames[fid].port;
    }
  }

  lemma SweptCounters(l: Loft, now: Time)
    requires LoftInv(l)
    ensures CountersExact(SweepStats(l, now), l.hist.born, l.hist.fate + Expiries(l, now))
  {
    forall p | p in l.stats
      ensures SweepStats(l, now)[p].consumer == |Ended(l.hist.born, l.hist.fate + Expiries(l, now), Dropped(true), p)|
      ensures SweepStats(l, now)[p].ttl == |Ended(l.hist.born, l.hist.fate + Expiries(l, now), Expired(true), p)|
    {
      SweptDrops(l, now, p);
      SweptExpiries(l, now, p);
      assert Ended(l.hist.born, l.hist.fate, Expired(true), p) !! StaleFrom(l, now, p);
      SizeDisjoint(Ended(l.hist.born, l.hist.fate, Expired(true), p), StaleFrom(l, now, p));
    }
  }

  lemma SweptUnexpired(l: Loft, now: Time)
    ensures Unexpired(l.frames - StaleFrames(l, now), now)
    ensures StaleFrames(l, now) == Expiries(l, now).Keys <= l.frames.Keys
  {
  }

  lemma SweepBooks(l: Loft, now: Time)
    requires LoftInv(l)
    ensures LoftInv(Sweep(l, now)) && Grows(l, Sweep(l, now))
  {
    hide Accounted, BornWell, CountersExact, Ended, Unexpired, StaleFrames, StaleFrom, StaleRemote, PortsBelow;
    SweptCounters(l, now);
    SweptUnexpired(l, now);
    AccountedSweep(l.frames, l.hist.born, l.hist.fate, Expiries(l, now));
    FewerFrames(l.frames, StaleFrames(l, now));
    assert Sweep(l, now).stats.Keys == l.stats.Keys;
    assert Sweep(l, now).hist.fate == l.hist.fate + Expiries(l, now);
  }

  /** Registry work never touches the books. */
  lemma RegistryBooks(l: Loft, m: Loft)
    requires LoftInv(l)
    requires m == l.(reg := m.reg, nextID := m.nextID, nextFID := m.nextFID, noGame := m.noGame,
                     dropTrunk := m.dropTrunk, router := m.router, trunk := m.trunk)
    requires l.nextID <= m.nextID && l.nextFID <= m.nextFID
    ensures LoftInv(m) && Grows(l, m)
  {
  }

  // ---- what the balanced books say ----------------------------------------------

  function DeliveredFrames(l: Loft): set<Fid> { set fid | fid in l.hist.fate && l.hist.fate[fid].Delivered? }

  function DroppedFrames(l: Loft): set<Fid> { set fid | fid in l.hist.fate && l.hist.fate[fid].Dropped? }

  function ExpiredFrames(l: Loft): set<Fid> { set fid | fid in l.hist.fate && l.hist.fate[fid].Expired? }

  lemma FatesPartition(l: Loft)
    ensures |l.hist.fate| == |DeliveredFrames(l)| + |DroppedFrames(l)| + |ExpiredFrames(l)|
  {
    var d, k, e := DeliveredFrames(l), DroppedFrames(l), ExpiredFrames(l);
    assert l.hist.fate.Keys == d + k + e;
    SizeDisjoint(d, k);
    SizeDisjoint(d + k, e);
  }

  /** Conservation: every frame received was refused for want of a router, shed
    * at a full buffer, is still buffered, or met exactly one of three fates. */
  lemma Conservation(l: Loft)
    requires LoftInv(l)
    ensures l.hist.received == l.hist.unrouted + l.hist.shed + |l.frames|
              + |DeliveredFrames(l)| + |DroppedFrames(l)| + |ExpiredFrames(l)|
    ensures |l.frames| <= MAX_BUFFERED
  {
    FatesPartition(l);
    assert l.hist.born.Keys == l.frames.Keys + l.hist.fate.Keys;
    SizeDisjoint(l.frames.Keys, l.hist.fate.Keys);
  }

  /** The documented rule that no frame leaves without moving a counter holds
    * for a drop exactly when the frame was never copied out and the port it
    * came in on is still registered. */
  lemma DropMovesACounterIff(l: Loft, fid: Fid)
    requires LoftInv(l) && fid in l.frames
    ensures DropLocal(l, fid).stats != l.stats <==> !l.frames[fid].copied && l.frames[fid].port in l.byID
  {
    var f := l.frames[fid];
    if DropIsCounted(l, f) {
      assert DropLocal(l, fid).stats[f.port].consumer == l.stats[f.port].consumer + 1;
    }
  }

  /** Likewise a sweep counts a port's expired frames exactly when the port is still here. */
  lemma SweepCountsIff(l: Loft, now: Time, p: PortId)
    requires LoftInv(l) && p in l.stats && StaleFrom(l, now, p) != {}
    ensures Sweep(l, now).stats[p].ttl != l.stats[p].ttl <==> p in l.byID
  {
  }

  /** If the frame counter does wrap onto a live frame, that frame is silently
    * overwritten: the id must be free for an ingest to keep every frame. */
  lemma IngestKeepsEveryFrameIff(l: Loft, p: PortId, data: Payload, now: Time)
    requires p in l.stats && IngestOutcome(l, p, data).Accepted?
    requires forall fid :: fid in l.frames ==> l.frames[fid].added < now
    ensures Extends(l.frames, Ingest(l, p, data, now).frames) <==> l.nextFID !in l.frames
  {
    var m := Ingest(l, p, data, now);
    if l.nextFID in l.frames {
      assert m.frames[l.nextFID].added == now;
    }
  }

  // ---- when an id comes round again ------------------------------------------------------

  lemma OneMorePort(x: nat)
    ensures (x % 0x1_0000 + 1) % 0x1_0000 == (x + 1) % 0x1_0000
  {
  }

  lemma OneMoreFrame(x: nat)
    ensures (x % 0x1_0000_0000 + 1) % 0x1_0000_0000 == (x + 1) % 0x1_0000_0000
  {
  }

  function PortsAdded(l: Loft, n: nat): Loft { if n == 0 then l else AddPort(PortsAdded(l, n - 1)) }

  /** Ports are numbered in order by 16 bits: a number is given out again after 65536 ports. */
  lemma {:induction false} PortIdsComeRound(l: Loft, n: nat)
    requires l.nextID < 0x1_0000
    ensures PortsAdded(l, n).nextID == (l.nextID + n) % 0x1_0000
  {
    if n > 0 {
      PortIdsComeRound(l, n - 1);
      OneMorePort(l.nextID + n - 1);
    }
  }

  function AllBuffered(l: Loft, fs: seq<BufFrame>): Loft {
    if fs == [] then l else
    var f := fs[|fs| - 1];
    Buffer(AllBuffered(l, fs[..|fs| - 1]), f.port, f.data, f.added)
  }

  /** And frames by 32 bits. */
  lemma {:induction false} FrameIdsComeRound(l: Loft, fs: seq<BufFrame>)
    requires l.nextFID < 0x1_0000_0000
    ensures AllBuffered(l, fs).nextFID == (l.nextFID + |fs|) % 0x1_0000_0000
    decreases |fs|
  {
    if fs != [] {
      FrameIdsComeRound(l, fs[..|fs| - 1]);
      OneMoreFrame(l.nextFID + |fs| - 1);
    }
  }
}
