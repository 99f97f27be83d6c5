/** What a learning bridge does for its hosts, and the same bridge rebuilt out of
  * a learn machine, a lookup machine and a hub sharing one named table. */
module Bridges {
  import opened Basics
  import opened Switching

  // ---- the tie that breaks strict recency ------------------------------------------------

  function Shout(src: Mac): Frame { Frame(src, "ff:ff:ff:ff:ff:ff", true) }

  function TiedTrace(): seq<Passage> {
    [Passage(Shout("a"), 0, 1.0), Passage(Shout("b"), 1, 1.0), Passage(Shout("a"), 0, 1.0), Passage(Shout("c"), 2, 1.0)]
  }

  lemma AfterMore(ttl: Ms, maxEntries: int, portCount: nat, trace: seq<Passage>, x: Passage)
    ensures After(ttl, maxEntries, portCount, trace + [x])
         == Step(After(ttl, maxEntries, portCount, trace), x.frame, x.ingress, portCount, x.now).0
  {
    assert (trace + [x])[..|trace|] == trace;
  }

  function E(m: Mac, p: nat): FdbEntry { FdbEntry(m, p, 1.0, 0) }

  /** Within one clock reading a refresh does not count: a is heard after b, and
    * a is the one evicted. */
  lemma TiesEvictTheRefreshed(portCount: nat)
    ensures After(300000.0, 2, portCount, TiedTrace()).fdb == [E("b", 1), E("c", 2)]
  {
    hide After, Decide, Oldest;
    var t := TiedTrace();
    assert t == [] + [t[0]] + [t[1]] + [t[2]] + [t[3]];
    assert After(300000.0, 2, portCount, []) == NewSwitch(300000.0, 2) by { AfterNone(300000.0, 2, portCount); }
    AfterMore(300000.0, 2, portCount, [], t[0]);
    AfterMore(300000.0, 2, portCount, [] + [t[0]], t[1]);
    AfterMore(300000.0, 2, portCount, [] + [t[0]] + [t[1]], t[2]);
    AfterMore(300000.0, 2, portCount, [] + [t[0]] + [t[1]] + [t[2]], t[3]);
    assert Learn([], 2, "a", 0, 1.0) == [E("a", 0)];
    assert Learn([E("a", 0)], 2, "b", 1, 1.0) == [E("a", 0), E("b", 1)];
    assert Learn([E("a", 0), E("b", 1)], 2, "a", 0, 1.0) == [E("a", 0), E("b", 1)];
    assert Oldest([E("a", 0), E("b", 1)]) == 0;
    assert Learn([E("a", 0), E("b", 1)], 2, "c", 2, 1.0) == [E("b", 1), E("c", 2)];
  }

  /** The same three sources, each last seen at the same reading and on the same port. */
  function PlainTrace(): seq<Passage> {
    [Passage(Shout("b"), 1, 1.0), Passage(Shout("a"), 0, 1.0), Passage(Shout("c"), 2, 1.0)]
  }

  lemma PlainEvictsTheFirst(portCount: nat)
    ensures After(300000.0, 2, portCount, PlainTrace()).fdb == [E("a", 0), E("c", 2)]
  {
    hide After, Decide, Oldest;
    var t := PlainTrace();
    assert t == [] + [t[0]] + [t[1]] + [t[2]];
    AfterNone(300000.0, 2, portCount);
    AfterMore(300000.0, 2, portCount, [], t[0]);
    AfterMore(300000.0, 2, portCount, [] + [t[0]], t[1]);
    AfterMore(300000.0, 2, portCount, [] + [t[0]] + [t[1]], t[2]);
    assert Learn([], 2, "b", 1, 1.0) == [E("b", 1)];
    assert Learn([E("b", 1)], 2, "a", 0, 1.0) == [E("b", 1), E("a", 0)];
    assert Oldest([E("b", 1), E("a", 0)]) == 0;
    assert Learn([E("b", 1), E("a", 0)], 2, "c", 2, 1.0) == [E("a", 0), E("c", 2)];
  }

  lemma HeardMore(trace: seq<Passage>, x: Passage)
    ensures Heard(trace + [x]) == Heard(trace)[x.frame.src := Sighting(x.now, x.ingress)]
  {
    assert (trace + [x])[..|trace|] == trace;
  }

  lemma SameSightings()
    ensures Heard(TiedTrace()) == Heard(PlainTrace()) == map["a" := Sighting(1.0, 0), "b" := Sighting(1.0, 1), "c" := Sighting(1.0, 2)]
  {
    hide Heard;
    var t, u := TiedTrace(), PlainTrace();
    assert t == [] + [t[0]] + [t[1]] + [t[2]] + [t[3]] && u == [] + [u[0]] + [u[1]] + [u[2]];
    assert Heard([]) == map[] by { HeardNone(); }
    HeardMore([], t[0]);
    HeardMore([] + [t[0]], t[1]);
    HeardMore([] + [t[0]] + [t[1]], t[2]);
    HeardMore([] + [t[0]] + [t[1]] + [t[2]], t[3]);
    HeardMore([], u[0]);
    HeardMore([] + [u[0]], u[1]);
    HeardMore([] + [u[0]] + [u[1]], u[2]);
  }

  lemma HeardNone()
    ensures Heard([]) == map[]
  {
  }

  /** Sightings decide what the table holds unless a tie straddles the edge of the
    * window: fewer than the capacity heard later, but enough heard no earlier. */
  predicate TiedAtTheEdge(heard: map<Mac, Sighting>, m: Mac, cap: nat)
    requires m in heard
  {
    |Newer(heard, heard[m].at)| < cap <= |NoOlder(heard, heard[m].at, m)|
  }

  lemma RecencyUnlessTied(ttl: Ms, maxEntries: int, portCount: nat, trace: seq<Passage>, now: Ms, m: Mac)
    requires ClockRuns(trace) && NamedSources(trace) && (trace != [] ==> trace[|trace| - 1].now <= now)
    requires m in Heard(trace) && now - Heard(trace)[m].at <= ttl && !TiedAtTheEdge(Heard(trace), m, Capacity(maxEntries))
    ensures var s, heard := After(ttl, maxEntries, portCount, trace), Heard(trace);
            && (m in Macs(s.fdb) <==> |Newer(heard, heard[m].at)| < Capacity(maxEntries))
            && (forall e :: e in s.fdb && e.mac == m ==> e.learnedAt == heard[m].at && e.port == heard[m].port)
  {
    hide ClockRuns, NamedSources, Keyed, HeardBefore, MissingGone;
    RecencyBounds(ttl, maxEntries, portCount, trace, now, m);
    TraceKeeps(ttl, maxEntries, portCount, trace, now);
  }

  /** At such a tie they decide nothing: two traces with the same last sightings, one
    * ends with an entry for a and without b, the other the other way about. */
  lemma TiesUndecided(portCount: nat)
    ensures ClockRuns(TiedTrace()) && NamedSources(TiedTrace()) && ClockRuns(PlainTrace()) && NamedSources(PlainTrace())
    ensures Heard(TiedTrace()) == Heard(PlainTrace()) && "a" in Heard(TiedTrace()) && "b" in Heard(TiedTrace())
    ensures TiedAtTheEdge(Heard(TiedTrace()), "a", 2) && TiedAtTheEdge(Heard(TiedTrace()), "b", 2)
    ensures var t, u := After(300000.0, 2, portCount, TiedTrace()).fdb, After(300000.0, 2, portCount, PlainTrace()).fdb;
            "a" !in Macs(t) && "b" in Macs(t) && "a" in Macs(u) && "b" !in Macs(u)
  {
    hide After, Heard, Newer, NoOlder;
    TiesEvictTheRefreshed(portCount);
    PlainEvictsTheFirst(portCount);
    SameSightings();
    var h := Heard(TiedTrace());
    assert Newer(h, 1.0) == {} && NoOlder(h, 1.0, "a") == {"b", "c"} && NoOlder(h, 1.0, "b") == {"a", "c"} by { NewerHere(h); }
    assert [E("b", 1), E("c", 2)][0].mac == "b" && E("b", 1) in [E("b", 1), E("c", 2)] && E("a", 0) in [E("a", 0), E("c", 2)];
  }

  lemma NewerHere(h: map<Mac, Sighting>)
    requires h == map["a" := Sighting(1.0, 0), "b" := Sighting(1.0, 1), "c" := Sighting(1.0, 2)]
    ensures Newer(h, 1.0) == {} && NoOlder(h, 1.0, "a") == {"b", "c"} && NoOlder(h, 1.0, "b") == {"a", "c"}
  {
  }

  lemma AfterNone(ttl: Ms, maxEntries: int, portCount: nat)
    ensures After(ttl, maxEntries, portCount, []) == NewSwitch(ttl, maxEntries)
  {
  }

  // ---- unicast always reaches its host -----------------------------------------------------

  /** Every MAC always enters on its own port. */
  predicate AtHome(trace: seq<Passage>, home: map<Mac, nat>) {
    forall i :: 0 <= i < |trace| ==> trace[i].frame.src in home && trace[i].ingress == home[trace[i].frame.src]
  }

  ghost predicate KnowsHomes(fdb: Fdb, home: map<Mac, nat>) {
    forall i :: 0 <= i < |fdb| ==> fdb[i].mac in home && fdb[i].port == home[fdb[i].mac]
  }

  lemma LearnHome(fdb: Fdb, maxEntries: int, mac: Mac, now: Ms, home: map<Mac, nat>)
    requires KnowsHomes(fdb, home) && mac in home
    ensures KnowsHomes(Learn(fdb, maxEntries, mac, home[mac], now), home)
  {
  }

  lemma LookHome(fdb: Fdb, mac: Mac, now: Ms, ttl: Ms, home: map<Mac, nat>)
    requires KnowsHomes(fdb, home)
    ensures KnowsHomes(Look(fdb, mac, now, ttl), home)
  {
  }

  lemma {:induction false} HomesKept(ttl: Ms, maxEntries: int, portCount: nat, trace: seq<Passage>, home: map<Mac, nat>)
    requires AtHome(trace, home)
    ensures KnowsHomes(After(ttl, maxEntries, portCount, trace).fdb, home)
    ensures After(ttl, maxEntries, portCount, trace).ttl == ttl && After(ttl, maxEntries, portCount, trace).maxEntries == maxEntries
    decreases |trace|
  {
    hide KnowsHomes, Learn, Look, Decide;
    if trace == [] {
      assert KnowsHomes([], home) by { NoHomes(home); }
    } else {
      var before, x := trace[..|trace| - 1], trace[|trace| - 1];
      HomesKept(ttl, maxEntries, portCount, before, home);
      var s := After(ttl, maxEntries, portCount, before);
      LearnHome(s.fdb, maxEntries, x.frame.src, x.now, home);
      LookHome(Learn(s.fdb, maxEntries, x.frame.src, x.ingress, x.now), x.frame.dst, x.now, ttl, home);
    }
  }

  lemma NoHomes(home: map<Mac, nat>)
    ensures KnowsHomes([], home)
  {
  }

  /** Whatever was learned, aged out or evicted before: a frame never goes back out
    * of the port it came in on; a unicast frame reaches the port its destination
    * lives on, and once that is known, no other; a broadcast reaches every other. */
  lemma UnicastReachesItsHost(ttl: Ms, maxEntries: int, portCount: nat, trace: seq<Passage>, x: Passage, home: map<Mac, nat>)
    requires AtHome(trace + [x], home)
    ensures var d := Step(After(ttl, maxEntries, portCount, trace), x.frame, x.ingress, portCount, x.now).1;
            && x.ingress !in d.exits
            && (x.frame.broadcast ==> forall p: nat :: p in d.exits <==> p < portCount && p != x.ingress)
            && (!x.frame.broadcast && x.frame.dst in home && home[x.frame.dst] < portCount ==>
                  && (home[x.frame.dst] != x.ingress ==> home[x.frame.dst] in d.exits)
                  && (d.action == Forward ==> d.exits == [home[x.frame.dst]])
                  && (d.action == Filter ==> home[x.frame.dst] == x.ingress))
  {
    hide Learn, Look, After;
    forall i | 0 <= i < |trace|
      ensures trace[i].frame.src in home && trace[i].ingress == home[trace[i].frame.src]
    {
      assert (trace + [x])[i] == trace[i];
    }
    assert (trace + [x])[|trace|] == x;
    HomesKept(ttl, maxEntries, portCount, trace, home);
    var s := After(ttl, maxEntries, portCount, trace);
    LearnHome(s.fdb, maxEntries, x.frame.src, x.now, home);
  }

  // ---- named tables ------------------------------------------------------------------------

  datatype TableEntry = TableEntry(key: Mac, dir: nat, at: Ms, hits: nat)

  datatype Table = Table(entries: seq<TableEntry>, ttl: Ms, maxEntries: int)

  function Where(entries: seq<TableEntry>, key: Mac): (i: nat)
    ensures i <= |entries| && (i < |entries| ==> entries[i].key == key)
  {
    if entries == [] then 0 else if entries[0].key == key then 0 else 1 + Where(entries[1..], key)
  }

  /** The loop's running best: the least time so far, and the first to have it. */
  function Earliest(entries: seq<TableEntry>): (i: nat)
    requires entries != []
    ensures i < |entries|
    ensures forall j :: 0 <= j < |entries| ==> entries[i].at <= entries[j].at
    ensures forall j :: 0 <= j < i ==> entries[i].at < entries[j].at
  {
    if |entries| == 1 then 0 else
    var i := Earliest(entries[..|entries| - 1]);
    if entries[|entries| - 1].at < entries[i].at then |entries| - 1 else i
  }

  function MakeRoom(t: Table): seq<TableEntry> {
    var es := t.entries;
    if |es| < t.maxEntries || es == [] || es[Earliest(es)].key == "" then es
    else es[..Earliest(es)] + es[Earliest(es) + 1..]
  }

  function TableLearn(t: Table, key: Mac, dir: nat, now: Ms): Table {
    var i := Where(t.entries, key);
    t.(entries := if i < |t.entries| then t.entries[i := t.entries[i].(dir := dir, at := now)]
                  else MakeRoom(t) + [TableEntry(key, dir, now, 0)])
  }

  /** The stored direction, if fresh; a stale entry is forgotten. */
  function TableLookup(t: Table, key: Mac, now: Ms): (Table, Option<nat>) {
    var i := Where(t.entries, key);
    if i == |t.entries| then (t, None)
    else if now - t.entries[i].at > t.ttl then (t.(entries := t.entries[..i] + t.entries[i + 1..]), None)
    else (t.(entries := t.entries[i := t.entries[i].(hits := t.entries[i].hits + 1)]), Some(t.entries[i].dir))
  }

  /** Learn the source, look the destination up; a miss goes to the hub and a hit
    * on the side it came from goes nowhere. */
  function PartsStep(t: Table, f: Frame, ingress: nat, portCount: nat, now: Ms): (Table, Decision) {
    var (t1, dir) := TableLookup(TableLearn(t, f.src, ingress, now), f.dst, now);
    (t1, match dir
         case None => Decision(Others(ingress, portCount), Flood)
         case Some(d) => if d == ingress then Decision([], Filter) else Decision([d], Forward))
  }

  function PartsAfter(ttl: Ms, maxEntries: int, portCount: nat, trace: seq<Passage>): Table {
    if trace == [] then Table([], ttl, maxEntries) else
    var x := trace[|trace| - 1];
    PartsStep(PartsAfter(ttl, maxEntries, portCount, trace[..|trace| - 1]), x.frame, x.ingress, portCount, x.now).0
  }

  /** The two tables hold the same, entry by entry and in the same order. */
  ghost predicate Same(fdb: Fdb, entries: seq<TableEntry>) {
    |fdb| == |entries| && forall i :: 0 <= i < |fdb| ==> fdb[i] == FdbEntry(entries[i].key, entries[i].dir, entries[i].at, entries[i].hits)
  }

  lemma {:induction false} SamePlace(fdb: Fdb, entries: seq<TableEntry>, key: Mac)
    requires Same(fdb, entries)
    ensures Find(fdb, key) == Where(entries, key)
    decreases |fdb|
  {
    if fdb != [] && fdb[0].mac != key { SamePlace(fdb[1..], entries[1..], key); }
  }

  /** Ties and all: both evict the first of the earliest. */
  lemma SameOldest(fdb: Fdb, entries: seq<TableEntry>)
    requires Same(fdb, entries) && fdb != []
    ensures Oldest(fdb) == Earliest(entries)
  {
    var i, j := Oldest(fdb), Earliest(entries);
    assert fdb[i].learnedAt <= fdb[j].learnedAt && entries[j].at <= entries[i].at;
  }

  lemma SameWithout(fdb: Fdb, entries: seq<TableEntry>, i: nat)
    requires Same(fdb, entries) && i < |fdb|
    ensures Same(Remove(fdb, i), entries[..i] + entries[i + 1..])
  {
  }

  lemma SameLearn(fdb: Fdb, t: Table, key: Mac, dir: nat, now: Ms)
    requires Same(fdb, t.entries)
    ensures Same(Learn(fdb, t.maxEntries, key, dir, now), TableLearn(t, key, dir, now).entries)
  {
    SamePlace(fdb, t.entries, key);
    if fdb != [] {
      SameOldest(fdb, t.entries);
      SameWithout(fdb, t.entries, Oldest(fdb));
    }
  }

  lemma SameLook(fdb: Fdb, t: Table, key: Mac, now: Ms)
    requires Same(fdb, t.entries)
    ensures Same(Look(fdb, key, now, t.ttl), TableLookup(t, key, now).0.entries)
    ensures var i := Find(fdb, key);
            TableLookup(t, key, now).1 == if i < |fdb| && Fresh(fdb[i], now, t.ttl) then Some(fdb[i].port) else None
  {
    SamePlace(fdb, t.entries, key);
    var i := Find(fdb, key);
    if i < |fdb| { SameWithout(fdb, t.entries, i); }
  }

  const BCAST: Mac := "ff:ff:ff:ff:ff:ff"

  /** Frames as the decoder makes them: broadcast means addressed to everyone. */
  predicate Decoded(trace: seq<Passage>) {
    forall i :: 0 <= i < |trace| ==> (trace[i].frame.broadcast <==> trace[i].frame.dst == BCAST)
  }

  predicate NoBroadcastSource(trace: seq<Passage>) {
    forall i :: 0 <= i < |trace| ==> trace[i].frame.src != BCAST
  }

  lemma {:induction false} NeverKeyed(ttl: Ms, maxEntries: int, portCount: nat, trace: seq<Passage>)
    requires NoBroadcastSource(trace)
    ensures forall e :: e in After(ttl, maxEntries, portCount, trace).fdb ==> e.mac != BCAST
    decreases |trace|
  {
    hide Decide;
    if trace != [] {
      var before, x := trace[..|trace| - 1], trace[|trace| - 1];
      NeverKeyed(ttl, maxEntries, portCount, before);
      var s := After(ttl, maxEntries, portCount, before);
      LearnKeys(s.fdb, s.maxEntries, x.frame.src, x.ingress, x.now);
      LookMacs(Learn(s.fdb, s.maxEntries, x.frame.src, x.ingress, x.now), x.frame.dst, x.now, s.ttl);
    }
  }

  lemma LearnKeys(fdb: Fdb, maxEntries: int, mac: Mac, port: nat, now: Ms)
    ensures forall e :: e in Learn(fdb, maxEntries, mac, port, now) ==> e.mac == mac || exists k :: 0 <= k < |fdb| && fdb[k].mac == e.mac
  {
  }

  lemma LookMacs(fdb: Fdb, mac: Mac, now: Ms, ttl: Ms)
    ensures forall e :: e in Look(fdb, mac, now, ttl) ==> exists k :: 0 <= k < |fdb| && fdb[k].mac == e.mac
  {
  }

  /** One step of the parts agrees with one of the switch exactly when the frame
    * is not a broadcast that finds a fresh entry for the broadcast address. */
  lemma StepAgreesIff(s: Switch, t: Table, f: Frame, ingress: nat, portCount: nat, now: Ms)
    requires Same(s.fdb, t.entries) && s.ttl == t.ttl && s.maxEntries == t.maxEntries
    ensures var learned := Learn(s.fdb, s.maxEntries, f.src, ingress, now);
            var i := Find(learned, f.dst);
            var (s1, d) := Step(s, f, ingress, portCount, now);
            var (t1, d1) := PartsStep(t, f, ingress, portCount, now);
            && (d == d1 <==> !(f.broadcast && i < |learned| && Fresh(learned[i], now, s.ttl)))
            && (!(f.broadcast && i < |learned|) ==> Same(s1.fdb, t1.entries))
            && s1.ttl == t1.ttl && s1.maxEntries == t1.maxEntries
  {
    hide Learn, TableLearn, TableLookup, Same;
    SameLearn(s.fdb, t, f.src, ingress, now);
    SameLook(Learn(s.fdb, s.maxEntries, f.src, ingress, now), TableLearn(t, f.src, ingress, now), f.dst, now);
    TableKeepsLimits(t, f.src, ingress, now);
    LookupKeepsLimits(TableLearn(t, f.src, ingress, now), f.dst, now);
  }

  lemma TableKeepsLimits(t: Table, key: Mac, dir: nat, now: Ms)
    ensures TableLearn(t, key, dir, now).ttl == t.ttl && TableLearn(t, key, dir, now).maxEntries == t.maxEntries
  {
  }

  lemma LookupKeepsLimits(t: Table, key: Mac, now: Ms)
    ensures TableLookup(t, key, now).0.ttl == t.ttl && TableLookup(t, key, now).0.maxEntries == t.maxEntries
  {
  }

  /** The parts rebuild the switch: on any trace in which nobody claims the
    * broadcast address, both decide every frame alike and hold the same table,
    * through hits, ageing, eviction and ties. */
  lemma {:induction false} PartsRebuildTheSwitch(ttl: Ms, maxEntries: int, portCount: nat, trace: seq<Passage>, x: Passage)
    requires Decoded(trace + [x]) && NoBroadcastSource(trace + [x])
    ensures var s, t := After(ttl, maxEntries, portCount, trace), PartsAfter(ttl, maxEntries, portCount, trace);
            && Same(s.fdb, t.entries) && s.ttl == t.ttl && s.maxEntries == t.maxEntries
            && Step(s, x.frame, x.ingress, portCount, x.now).1 == PartsStep(t, x.frame, x.ingress, portCount, x.now).1
            && Same(Step(s, x.frame, x.ingress, portCount, x.now).0.fdb, PartsStep(t, x.frame, x.ingress, portCount, x.now).0.entries)
    decreases |trace|
  {
    hide Learn, Look, Decide, Same, Step, PartsStep, Find;
    var s, t := After(ttl, maxEntries, portCount, trace), PartsAfter(ttl, maxEntries, portCount, trace);
    PrefixPlain(trace, x);
    if trace != [] {
      var before, y := trace[..|trace| - 1], trace[|trace| - 1];
      assert trace == before + [y];
      PartsRebuildTheSwitch(ttl, maxEntries, portCount, before, y);
      StepAgreesIff(After(ttl, maxEntries, portCount, before), PartsAfter(ttl, maxEntries, portCount, before), y.frame, y.ingress, portCount, y.now);
    } else {
      assert Same([], []) by { SameNone(); }
    }
    StepAgreesIff(s, t, x.frame, x.ingress, portCount, x.now);
    BroadcastUnknown(ttl, maxEntries, portCount, trace, x);
  }

  lemma SameNone()
    ensures Same([], [])
  {
  }

  lemma PrefixPlain(trace: seq<Passage>, x: Passage)
    requires Decoded(trace + [x]) && NoBroadcastSource(trace + [x])
    ensures Decoded(trace) && NoBroadcastSource(trace)
    ensures (x.frame.broadcast <==> x.frame.dst == BCAST) && x.frame.src != BCAST
  {
    assert (trace + [x])[|trace|] == x;
    forall i | 0 <= i < |trace|
      ensures (trace + [x])[i] == trace[i]
    {
    }
  }

  lemma BroadcastUnknown(ttl: Ms, maxEntries: int, portCount: nat, trace: seq<Passage>, x: Passage)
    requires NoBroadcastSource(trace) && x.frame.src != BCAST && (x.frame.broadcast <==> x.frame.dst == BCAST)
    ensures var s := After(ttl, maxEntries, portCount, trace);
            var learned := Learn(s.fdb, s.maxEntries, x.frame.src, x.ingress, x.now);
            x.frame.broadcast ==> Find(learned, x.frame.dst) == |learned|
  {
    hide Learn, Decide;
    NeverKeyed(ttl, maxEntries, portCount, trace);
    var s := After(ttl, maxEntries, portCount, trace);
    LearnKeys(s.fdb, s.maxEntries, x.frame.src, x.ingress, x.now);
  }
}
