/** The learning bridge (IEEE 802.1D sections 7.7 to 7.9): a filtering database
  * in insertion order, learning, ageing, eviction and the forwarding decision. */
module Switching {
  import opened Basics

  type Mac = string
  type Ms = real

  datatype FdbEntry = FdbEntry(mac: Mac, port: nat, learnedAt: Ms, hits: nat)
  type Fdb = seq<FdbEntry>

  datatype Frame = Frame(src: Mac, dst: Mac, broadcast: bool)

  datatype Action = Forward | Flood | Filter
  datatype Decision = Decision(exits: seq<nat>, action: Action)

  datatype Switch = Switch(fdb: Fdb, ttl: Ms, maxEntries: int, floods: nat, forwards: nat, filters: nat)

  function Macs(fdb: Fdb): set<Mac> { set e | e in fdb :: e.mac }

  ghost predicate Keyed(fdb: Fdb) {
    forall i, j :: 0 <= i < j < |fdb| ==> fdb[i].mac != fdb[j].mac
  }

  /** Where `mac` is, or the length if it is nowhere. */
  function Find(fdb: Fdb, mac: Mac): (i: nat)
    ensures i <= |fdb| && (i < |fdb| ==> fdb[i].mac == mac)
    ensures mac in Macs(fdb) <==> i < |fdb|
  {
    if fdb == [] then 0
    else if fdb[0].mac == mac then 0
    else 1 + Find(fdb[1..], mac)
  }

  /** The first of the least recently learned. */
  function Oldest(fdb: Fdb): (i: nat)
    requires fdb != []
    ensures i < |fdb|
    ensures forall j :: 0 <= j < |fdb| ==> fdb[i].learnedAt <= fdb[j].learnedAt
    ensures forall j :: 0 <= j < i ==> fdb[i].learnedAt < fdb[j].learnedAt
  {
    if |fdb| == 1 then 0 else
    var i := Oldest(fdb[..|fdb| - 1]);
    if fdb[|fdb| - 1].learnedAt < fdb[i].learnedAt then |fdb| - 1 else i
  }

  function Remove(fdb: Fdb, i: nat): Fdb
    requires i < |fdb|
  {
    fdb[..i] + fdb[i + 1..]
  }

  /** An entry whose key is the empty string is never evicted. */
  function Evict(fdb: Fdb): Fdb {
    if fdb == [] || fdb[Oldest(fdb)].mac == "" then fdb else Remove(fdb, Oldest(fdb))
  }

  function Learn(fdb: Fdb, maxEntries: int, mac: Mac, port: nat, now: Ms): Fdb {
    var i := Find(fdb, mac);
    if i < |fdb| then fdb[i := fdb[i].(port := port, learnedAt := now)]
    else (if |fdb| >= maxEntries then Evict(fdb) else fdb) + [FdbEntry(mac, port, now, 0)]
  }

  predicate Fresh(e: FdbEntry, now: Ms, ttl: Ms) { now - e.learnedAt <= ttl }

  /** Read an entry: a fresh one is hit, a stale one forgotten. */
  function Look(fdb: Fdb, mac: Mac, now: Ms, ttl: Ms): Fdb {
    var i := Find(fdb, mac);
    if i == |fdb| then fdb
    else if Fresh(fdb[i], now, ttl) then fdb[i := fdb[i].(hits := fdb[i].hits + 1)]
    else Remove(fdb, i)
  }

  function Others(ingress: nat, portCount: nat): (out: seq<nat>)
    ensures forall p: nat :: p in out <==> p < portCount && p != ingress
  {
    if portCount == 0 then []
    else Others(ingress, portCount - 1) + if portCount - 1 != ingress then [portCount - 1] else []
  }

  function Decide(fdb: Fdb, f: Frame, ingress: nat, portCount: nat, now: Ms, ttl: Ms): Decision {
    var i := Find(fdb, f.dst);
    if f.broadcast || i == |fdb| || !Fresh(fdb[i], now, ttl) then Decision(Others(ingress, portCount), Flood)
    else if fdb[i].port == ingress then Decision([], Filter)
    else Decision([fdb[i].port], Forward)
  }

  function Step(s: Switch, f: Frame, ingress: nat, portCount: nat, now: Ms): (Switch, Decision) {
    var learned := Learn(s.fdb, s.maxEntries, f.src, ingress, now);
    var d := Decide(learned, f, ingress, portCount, now, s.ttl);
    var fdb := if f.broadcast then learned else Look(learned, f.dst, now, s.ttl);
    (s.(fdb := fdb,
        floods := if d.action == Flood then s.floods + 1 else s.floods,
        forwards := if d.action == Forward then s.forwards + 1 else s.forwards,
        filters := if d.action == Filter then s.filters + 1 else s.filters),
     d)
  }

  // ---- traces ---------------------------------------------------------------------

  /** One frame through the bridge. */
  datatype Passage = Passage(frame: Frame, ingress: nat, now: Ms)

  datatype Sighting = Sighting(at: Ms, port: nat)

  function NewSwitch(ttl: Ms, maxEntries: int): Switch { Switch([], ttl, maxEntries, 0, 0, 0) }

  function After(ttl: Ms, maxEntries: int, portCount: nat, trace: seq<Passage>): Switch {
    if trace == [] then NewSwitch(ttl, maxEntries) else
    var x := trace[|trace| - 1];
    Step(After(ttl, maxEntries, portCount, trace[..|trace| - 1]), x.frame, x.ingress, portCount, x.now).0
  }

  /** The last sighting of every source in the trace. */
  function Heard(trace: seq<Passage>): map<Mac, Sighting> {
    if trace == [] then map[] else
    var x := trace[|trace| - 1];
    Heard(trace[..|trace| - 1])[x.frame.src := Sighting(x.now, x.ingress)]
  }

  predicate ClockRuns(trace: seq<Passage>) {
    forall i, j :: 0 <= i < j < |trace| ==> trace[i].now <= trace[j].now
  }

  predicate ClockTicks(trace: seq<Passage>) {
    forall i, j :: 0 <= i < j < |trace| ==> trace[i].now < trace[j].now
  }

  predicate NamedSources(trace: seq<Passage>) {
    forall i :: 0 <= i < |trace| ==> trace[i].frame.src != ""
  }

  function Capacity(maxEntries: int): nat { Max(1, maxEntries) }

  // ---- the database is a recency window ---------------------------------------------

  ghost predicate EntriesTrue(fdb: Fdb, heard: map<Mac, Sighting>) {
    forall e :: e in fdb ==> e.mac != "" && e.mac in heard && heard[e.mac] == Sighting(e.learnedAt, e.port)
  }

  ghost predicate HeardBefore(heard: map<Mac, Sighting>, now: Ms) {
    forall m :: m in heard ==> heard[m].at <= now
  }

  /** Why a source that was heard has no entry. */
  ghost predicate Gone(fdb: Fdb, s: Sighting, now: Ms, ttl: Ms, cap: nat) {
    now - s.at > ttl || (|fdb| >= cap && forall e :: e in fdb ==> s.at <= e.learnedAt)
  }

  ghost predicate MissingGone(fdb: Fdb, heard: map<Mac, Sighting>, now: Ms, ttl: Ms, cap: nat) {
    forall m :: m in heard && m !in Macs(fdb) ==> Gone(fdb, heard[m], now, ttl, cap)
  }

  ghost predicate Window(fdb: Fdb, heard: map<Mac, Sighting>, now: Ms, ttl: Ms, maxEntries: int) {
    && Keyed(fdb)
    && |fdb| <= Capacity(maxEntries)
    && EntriesTrue(fdb, heard)
    && HeardBefore(heard, now)
    && MissingGone(fdb, heard, now, ttl, Capacity(maxEntries))
  }

  lemma RemoveKeyed(fdb: Fdb, i: nat)
    requires Keyed(fdb) && i < |fdb|
    ensures Keyed(Remove(fdb, i)) && |Remove(fdb, i)| == |fdb| - 1
    ensures Macs(Remove(fdb, i)) == Macs(fdb) - {fdb[i].mac}
    ensures forall e :: e in Remove(fdb, i) <==> e in fdb && e != fdb[i]
  {
    var r := Remove(fdb, i);
    forall e | e in fdb && e != fdb[i]
      ensures e in r
    {
      var k :| 0 <= k < |fdb| && fdb[k] == e;
      assert r[if k < i then k else k - 1] == e;
    }
    forall k | 0 <= k < |r|
      ensures r[k] == fdb[if k < i then k else k + 1]
    {
    }
  }

  lemma UpdateKeyed(fdb: Fdb, i: nat, e: FdbEntry)
    requires Keyed(fdb) && i < |fdb| && e.mac == fdb[i].mac
    ensures Keyed(fdb[i := e]) && Macs(fdb[i := e]) == Macs(fdb)
    ensures forall x :: x in fdb[i := e] <==> x == e || (x in fdb && x.mac != e.mac)
  {
    var r := fdb[i := e];
    assert forall k :: 0 <= k < |fdb| ==> r[k].mac == fdb[k].mac;
    assert r[i] == e;
    forall x | x in fdb && x.mac != e.mac
      ensures x in r
    {
      var k :| 0 <= k < |fdb| && fdb[k] == x;
      assert r[k] == x;
    }
    forall m | m in Macs(fdb)
      ensures m in Macs(r)
    {
      var k :| 0 <= k < |fdb| && fdb[k].mac == m;
      assert r[k] in r;
    }
    forall m | m in Macs(r)
      ensures m in Macs(fdb)
    {
      var k :| 0 <= k < |r| && r[k].mac == m;
      assert fdb[k] in fdb;
    }
  }

  lemma AppendKeyed(fdb: Fdb, e: FdbEntry)
    requires Keyed(fdb) && e.mac !in Macs(fdb)
    ensures Keyed(fdb + [e]) && Macs(fdb + [e]) == Macs(fdb) + {e.mac}
  {
    var r := fdb + [e];
    assert r[|fdb|] == e;
    forall k | 0 <= k < |fdb|
      ensures r[k].mac != e.mac
    {
      assert fdb[k] in fdb;
    }
    forall m | m in Macs(fdb)
      ensures m in Macs(r)
    {
      var k :| 0 <= k < |fdb| && fdb[k].mac == m;
      assert r[k] in r;
    }
  }

  // ---- one step ----------------------------------------------------------------------

  lemma RefreshKeeps(fdb: Fdb, heard: map<Mac, Sighting>, t: Ms, now: Ms, ttl: Ms, maxEntries: int, mac: Mac, port: nat)
    requires Window(fdb, heard, t, ttl, maxEntries) && t <= now && mac in Macs(fdb)
    ensures Window(Learn(fdb, maxEntries, mac, port, now), heard[mac := Sighting(now, port)], now, ttl, maxEntries)
  {
    hide Keyed, Macs;
    var i := Find(fdb, mac);
    var e := fdb[i].(port := port, learnedAt := now);
    UpdateKeyed(fdb, i, e);
    assert fdb[i] in fdb;
  }

  lemma AdmitKeeps(fdb: Fdb, heard: map<Mac, Sighting>, t: Ms, now: Ms, ttl: Ms, maxEntries: int, mac: Mac, port: nat)
    requires Window(fdb, heard, t, ttl, maxEntries) && t <= now && mac !in Macs(fdb) && mac != ""
    requires |fdb| < maxEntries || fdb == []
    ensures Window(fdb + [FdbEntry(mac, port, now, 0)], heard[mac := Sighting(now, port)], now, ttl, maxEntries)
  {
    hide Keyed;
    AppendKeyed(fdb, FdbEntry(mac, port, now, 0));
  }

  /** With the oldest gone, everyone left out is still accounted for, and so is it. */
  lemma EvictedGone(fdb: Fdb, heard: map<Mac, Sighting>, t: Ms, now: Ms, ttl: Ms, maxEntries: int, e: FdbEntry)
    requires Window(fdb, heard, t, ttl, maxEntries) && t <= now && e.learnedAt == now && fdb != [] && |fdb| >= maxEntries
    ensures forall m :: m in heard && m !in Macs(Remove(fdb, Oldest(fdb)) + [e]) ==>
              Gone(Remove(fdb, Oldest(fdb)) + [e], heard[m], now, ttl, Capacity(maxEntries))
  {
    hide Keyed, Remove;
    var i := Oldest(fdb);
    var rest := Remove(fdb, i);
    assert fdb[i] in fdb;
    RemoveKeyed(fdb, i);
    forall m | m in heard && m !in Macs(rest + [e])
      ensures Gone(rest + [e], heard[m], now, ttl, Capacity(maxEntries))
    {
      forall x | x in rest
        ensures x.mac in Macs(rest + [e]) && fdb[i].learnedAt <= x.learnedAt
      {
        assert x in rest + [e];
      }
    }
  }

  lemma NamedEntry(fdb: Fdb, heard: map<Mac, Sighting>, i: nat)
    requires EntriesTrue(fdb, heard) && i < |fdb|
    ensures fdb[i].mac != ""
  {
    assert fdb[i] in fdb;
  }

  lemma AddedTrue(fdb: Fdb, rest: Fdb, heard: map<Mac, Sighting>, e: FdbEntry)
    requires EntriesTrue(fdb, heard) && (forall x :: x in rest ==> x in fdb) && e.mac !in Macs(fdb) && e.mac != ""
    ensures EntriesTrue(rest + [e], heard[e.mac := Sighting(e.learnedAt, e.port)])
  {
  }

  lemma ReplaceKeeps(fdb: Fdb, heard: map<Mac, Sighting>, t: Ms, now: Ms, ttl: Ms, maxEntries: int, mac: Mac, port: nat)
    requires Window(fdb, heard, t, ttl, maxEntries) && t <= now && mac !in Macs(fdb) && mac != ""
    requires |fdb| >= maxEntries && fdb != []
    ensures Evict(fdb) == Remove(fdb, Oldest(fdb))
    ensures Window(Evict(fdb) + [FdbEntry(mac, port, now, 0)], heard[mac := Sighting(now, port)], now, ttl, maxEntries)
  {
    hide Keyed, Remove, Gone, EntriesTrue, Macs;
    var i, e := Oldest(fdb), FdbEntry(mac, port, now, 0);
    NamedEntry(fdb, heard, i);
    RemoveKeyed(fdb, i);
    AddedTrue(fdb, Remove(fdb, i), heard, e);
    AppendKeyed(Remove(fdb, i), e);
    EvictedGone(fdb, heard, t, now, ttl, maxEntries, e);
  }

  lemma LearnKeeps(fdb: Fdb, heard: map<Mac, Sighting>, t: Ms, now: Ms, ttl: Ms, maxEntries: int, mac: Mac, port: nat)
    requires Window(fdb, heard, t, ttl, maxEntries) && t <= now && mac != ""
    ensures Window(Learn(fdb, maxEntries, mac, port, now), heard[mac := Sighting(now, port)], now, ttl, maxEntries)
  {
    hide Window, Macs, Remove;
    if mac in Macs(fdb) {
      RefreshKeeps(fdb, heard, t, now, ttl, maxEntries, mac, port);
    } else if |fdb| < maxEntries || fdb == [] {
      AdmitKeeps(fdb, heard, t, now, ttl, maxEntries, mac, port);
    } else {
      ReplaceKeeps(fdb, heard, t, now, ttl, maxEntries, mac, port);
    }
  }

  lemma LookKeeps(fdb: Fdb, heard: map<Mac, Sighting>, now: Ms, ttl: Ms, maxEntries: int, mac: Mac)
    requires Window(fdb, heard, now, ttl, maxEntries)
    ensures Window(Look(fdb, mac, now, ttl), heard, now, ttl, maxEntries)
  {
    hide Keyed, Macs, Remove;
    var i := Find(fdb, mac);
    if i < |fdb| {
      assert fdb[i] in fdb;
      if Fresh(fdb[i], now, ttl) {
        UpdateKeyed(fdb, i, fdb[i].(hits := fdb[i].hits + 1));
      } else {
        RemoveKeyed(fdb, i);
      }
    }
  }

  lemma {:induction false} TraceKeeps(ttl: Ms, maxEntries: int, portCount: nat, trace: seq<Passage>, now: Ms)
    requires ClockRuns(trace) && NamedSources(trace) && (trace != [] ==> trace[|trace| - 1].now <= now)
    ensures Window(After(ttl, maxEntries, portCount, trace).fdb, Heard(trace), now, ttl, maxEntries)
    ensures After(ttl, maxEntries, portCount, trace).ttl == ttl && After(ttl, maxEntries, portCount, trace).maxEntries == maxEntries
    decreases |trace|
  {
    hide Window, Learn, Look, Decide;
    if trace == [] {
      EmptyWindow(now, ttl, maxEntries);
    } else {
      var before, x := trace[..|trace| - 1], trace[|trace| - 1];
      TraceKeeps(ttl, maxEntries, portCount, before, x.now);
      var s := After(ttl, maxEntries, portCount, before);
      LearnKeeps(s.fdb, Heard(before), x.now, x.now, ttl, maxEntries, x.frame.src, x.ingress);
      LookKeeps(Learn(s.fdb, maxEntries, x.frame.src, x.ingress, x.now), Heard(trace), x.now, ttl, maxEntries, x.frame.dst);
      LaterWindow(After(ttl, maxEntries, portCount, trace).fdb, Heard(trace), x.now, now, ttl, maxEntries);
    }
  }

  lemma EmptyWindow(now: Ms, ttl: Ms, maxEntries: int)
    ensures Window([], map[], now, ttl, maxEntries)
  {
  }

  lemma LaterWindow(fdb: Fdb, heard: map<Mac, Sighting>, t: Ms, now: Ms, ttl: Ms, maxEntries: int)
    requires Window(fdb, heard, t, ttl, maxEntries) && t <= now
    ensures Window(fdb, heard, now, ttl, maxEntries)
  {
    hide Keyed, Macs;
  }

  // ---- what the window says --------------------------------------------------------------

  /** Sources heard strictly more recently than `at`, and at least as recently. */
  function Newer(heard: map<Mac, Sighting>, at: Ms): set<Mac> { set m | m in heard && heard[m].at > at }

  function NoOlder(heard: map<Mac, Sighting>, at: Ms, but: Mac): set<Mac> {
    set m | m in heard && heard[m].at >= at && m != but
  }

  lemma {:induction false} MacsSize(fdb: Fdb)
    requires Keyed(fdb)
    ensures |Macs(fdb)| == |fdb|
    decreases |fdb|
  {
    if fdb != [] {
      var front := fdb[..|fdb| - 1];
      MacsSize(front);
      assert fdb == front + [fdb[|fdb| - 1]];
      assert fdb[|fdb| - 1].mac !in Macs(front);
      AppendKeyed(front, fdb[|fdb| - 1]);
    }
  }

  /** A fresh entry is among the most recently heard: fewer than the capacity
    * were heard after it. */
  lemma EntryIsRecent(fdb: Fdb, heard: map<Mac, Sighting>, now: Ms, ttl: Ms, maxEntries: int, e: FdbEntry)
    requires Window(fdb, heard, now, ttl, maxEntries) && e in fdb && Fresh(e, now, ttl)
    ensures e.mac in heard && heard[e.mac] == Sighting(e.learnedAt, e.port)
    ensures |Newer(heard, e.learnedAt)| < Capacity(maxEntries)
  {
    hide Keyed, Macs;
    var newer := Newer(heard, e.learnedAt);
    assert e.mac in Macs(fdb) by { EntryHasMac(fdb, e); }
    forall m | m in newer
      ensures m in Macs(fdb) - {e.mac}
    {
    }
    MacsSize(fdb);
    SubsetSize(newer, Macs(fdb) - {e.mac});
  }

  lemma EntryHasMac(fdb: Fdb, e: FdbEntry)
    requires e in fdb
    ensures e.mac in Macs(fdb)
  {
  }

  /** A source heard within the ageing time but without an entry has been
    * overtaken: the capacity's worth of others were heard no earlier. */
  lemma MissingIsOvertaken(fdb: Fdb, heard: map<Mac, Sighting>, now: Ms, ttl: Ms, maxEntries: int, m: Mac)
    requires Window(fdb, heard, now, ttl, maxEntries) && m in heard && now - heard[m].at <= ttl && m !in Macs(fdb)
    ensures |NoOlder(heard, heard[m].at, m)| >= Capacity(maxEntries)
  {
    hide Keyed;
    assert Gone(fdb, heard[m], now, ttl, Capacity(maxEntries));
    forall k | k in Macs(fdb)
      ensures k in NoOlder(heard, heard[m].at, m)
    {
    }
    MacsSize(fdb);
    SubsetSize(Macs(fdb), NoOlder(heard, heard[m].at, m));
  }

  lemma {:induction false} SightingsDiffer(trace: seq<Passage>)
    requires ClockTicks(trace)
    ensures forall a, b :: a in Heard(trace) && b in Heard(trace) && a != b ==> Heard(trace)[a].at != Heard(trace)[b].at
    ensures forall a :: a in Heard(trace) ==> trace != [] && Heard(trace)[a].at <= trace[|trace| - 1].now
    decreases |trace|
  {
    if trace != [] { SightingsDiffer(trace[..|trace| - 1]); }
  }

  lemma TicksRun(trace: seq<Passage>)
    requires ClockTicks(trace)
    ensures ClockRuns(trace)
  {
  }

  /** The filtering database is exactly a recency window: after any trace a source
    * heard within the ageing time has an entry, and the one of its last frame, if
    * and only if fewer than the capacity of other sources were heard since. */
  lemma RecencyWindow(ttl: Ms, maxEntries: int, portCount: nat, trace: seq<Passage>, now: Ms, m: Mac)
    requires ClockTicks(trace) && NamedSources(trace) && (trace != [] ==> trace[|trace| - 1].now <= now)
    requires m in Heard(trace) && now - Heard(trace)[m].at <= ttl
    ensures var s, heard := After(ttl, maxEntries, portCount, trace), Heard(trace);
            && (m in Macs(s.fdb) <==> |Newer(heard, heard[m].at)| < Capacity(maxEntries))
            && (forall e :: e in s.fdb && e.mac == m ==> e.learnedAt == heard[m].at && e.port == heard[m].port)
            && |s.fdb| <= Capacity(maxEntries)
  {
    hide Keyed, ClockTicks, ClockRuns, NamedSources, HeardBefore, MissingGone;
    TicksRun(trace);
    TraceKeeps(ttl, maxEntries, portCount, trace, now);
    SightingsDiffer(trace);
    var fdb, heard := After(ttl, maxEntries, portCount, trace).fdb, Heard(trace);
    if m in Macs(fdb) {
      var e :| e in fdb && e.mac == m;
      EntryIsRecent(fdb, heard, now, ttl, maxEntries, e);
    } else {
      MissingIsOvertaken(fdb, heard, now, ttl, maxEntries, m);
      assert NoOlder(heard, heard[m].at, m) == Newer(heard, heard[m].at);
    }
  }

  /** With a clock that may stand still the window is bounded from both sides. */
  lemma RecencyBounds(ttl: Ms, maxEntries: int, portCount: nat, trace: seq<Passage>, now: Ms, m: Mac)
    requires ClockRuns(trace) && NamedSources(trace) && (trace != [] ==> trace[|trace| - 1].now <= now)
    requires m in Heard(trace) && now - Heard(trace)[m].at <= ttl
    ensures var fdb, heard := After(ttl, maxEntries, portCount, trace).fdb, Heard(trace);
            && (m in Macs(fdb) ==> |Newer(heard, heard[m].at)| < Capacity(maxEntries))
            && (m !in Macs(fdb) ==> |NoOlder(heard, heard[m].at, m)| >= Capacity(maxEntries))
  {
    hide Keyed, ClockRuns, NamedSources, HeardBefore, MissingGone;
    TraceKeeps(ttl, maxEntries, portCount, trace, now);
    var fdb, heard := After(ttl, maxEntries, portCount, trace).fdb, Heard(trace);
    if m in Macs(fdb) {
      var e :| e in fdb && e.mac == m;
      EntryIsRecent(fdb, heard, now, ttl, maxEntries, e);
    } else {
      MissingIsOvertaken(fdb, heard, now, ttl, maxEntries, m);
    }
  }
}
