/** The switch and the named table as the objects they are: entries updated in
  * place, the oldest found by a scan. */
module SwitchMachine {
  import opened Basics
  import opened Switching
  import opened Bridges

  class SwitchState {
    var fdb: Fdb
    const ttl: Ms
    const maxEntries: int
    var floods: nat
    var forwards: nat
    var filters: nat
    ghost var trace: seq<Passage>
    const portCount: nat

    ghost function State(): Switch
      reads this
    {
      Switch(fdb, ttl, maxEntries, floods, forwards, filters)
    }

    /** The state is what the trace so far leads to. */
    ghost predicate Valid()
      reads this
    {
      State() == After(ttl, maxEntries, portCount, trace)
    }

    constructor (ttl: Ms, maxEntries: int, portCount: nat)
      ensures Valid() && trace == [] && this.ttl == ttl && this.maxEntries == maxEntries && this.portCount == portCount
    {
      this.ttl, this.maxEntries, this.portCount := ttl, maxEntries, portCount;
      fdb, floods, forwards, filters := [], 0, 0, 0;
      trace := [];
    }

    method Lookup(mac: Mac) returns (i: nat)
      ensures i == Find(fdb, mac)
    {
      i := 0;
      while i < |fdb| && fdb[i].mac != mac
        invariant 0 <= i <= |fdb|
        invariant Find(fdb, mac) == i + Find(fdb[i..], mac)
      {
        assert fdb[i..][1..] == fdb[i + 1..];
        i := i + 1;
      }
    }

    method EvictOldest()
      modifies `fdb
      ensures fdb == Evict(old(fdb))
    {
      var oldest: Option<nat> := None;
      for i := 0 to |fdb|
        invariant fdb == old(fdb) && (oldest.None? <==> i == 0)
        invariant oldest.Some? ==> oldest.value < i && oldest.value == Oldest(fdb[..i])
      {
        assert fdb[..i + 1][..i] == fdb[..i];
        if oldest.None? || fdb[i].learnedAt < fdb[oldest.value].learnedAt {
          oldest := Some(i);
        }
      }
      assert fdb[..|fdb|] == fdb;
      if oldest.Some? && fdb[oldest.value].mac != "" {
        fdb := fdb[..oldest.value] + fdb[oldest.value + 1..];
      }
    }

    method LearnSource(src: Mac, ingress: nat, now: Ms)
      modifies `fdb
      ensures fdb == Learn(old(fdb), maxEntries, src, ingress, now)
    {
      var i := Lookup(src);
      if i < |fdb| {
        fdb := fdb[i := fdb[i].(port := ingress, learnedAt := now)];
      } else {
        if |fdb| >= maxEntries { EvictOldest(); }
        fdb := fdb + [FdbEntry(src, ingress, now, 0)];
      }
    }

    method OtherPorts(ingress: nat) returns (out: seq<nat>)
      ensures out == Others(ingress, portCount)
    {
      out := [];
      for p := 0 to portCount
        invariant out == Others(ingress, p)
      {
        if p != ingress { out := out + [p]; }
      }
    }

    /** One frame: learn its source, then forward, filter or flood. */
    method Step(f: Frame, ingress: nat, now: Ms) returns (d: Decision)
      requires Valid()
      modifies this
      ensures State() == Switching.Step(old(State()), f, ingress, portCount, now).0
      ensures d == Switching.Step(old(State()), f, ingress, portCount, now).1
      ensures Valid() && trace == old(trace) + [Passage(f, ingress, now)]
    {
      AfterMore(ttl, maxEntries, portCount, trace, Passage(f, ingress, now));
      trace := trace + [Passage(f, ingress, now)];
      LearnSource(f.src, ingress, now);
      d := Route(f, ingress, now);
    }

    method Route(f: Frame, ingress: nat, now: Ms) returns (d: Decision)
      modifies `fdb, `floods, `forwards, `filters
      ensures d == Decide(old(fdb), f, ingress, portCount, now, ttl)
      ensures fdb == if f.broadcast then old(fdb) else Look(old(fdb), f.dst, now, ttl)
      ensures floods == old(floods) + if d.action == Flood then 1 else 0
      ensures forwards == old(forwards) + if d.action == Forward then 1 else 0
      ensures filters == old(filters) + if d.action == Filter then 1 else 0
    {
      if !f.broadcast {
        var i := Lookup(f.dst);
        if i < |fdb| && now - fdb[i].learnedAt <= ttl {
          var port := fdb[i].port;
          fdb := fdb[i := fdb[i].(hits := fdb[i].hits + 1)];
          if port == ingress {
            filters := filters + 1;
            return Decision([], Filter);
          }
          forwards := forwards + 1;
          return Decision([port], Forward);
        }
        if i < |fdb| { fdb := fdb[..i] + fdb[i + 1..]; }
      }
      floods := floods + 1;
      var out := OtherPorts(ingress);
      return Decision(out, Flood);
    }
  }

  /** A table machines share by name. */
  class NamedTable {
    var entries: seq<TableEntry>
    const ttl: Ms
    const maxEntries: int

    ghost function State(): Table
      reads this
    {
      Table(entries, ttl, maxEntries)
    }

    constructor (ttl: Ms, maxEntries: int)
      ensures State() == Table([], ttl, maxEntries)
    {
      this.entries, this.ttl, this.maxEntries := [], ttl, maxEntries;
    }

    method Seek(key: Mac) returns (i: nat)
      ensures i == Where(entries, key)
    {
      i := 0;
      while i < |entries| && entries[i].key != key
        invariant 0 <= i <= |entries|
        invariant Where(entries, key) == i + Where(entries[i..], key)
      {
        assert entries[i..][1..] == entries[i + 1..];
        i := i + 1;
      }
    }

    method Learn(key: Mac, dir: nat, now: Ms)
      modifies `entries
      ensures State() == TableLearn(old(State()), key, dir, now)
    {
      var k := Seek(key);
      if k < |entries| {
        entries := entries[k := entries[k].(dir := dir, at := now)];
        return;
      }
      if |entries| >= maxEntries { EvictOldest(); }
      entries := entries + [TableEntry(key, dir, now, 0)];
    }

    method EvictOldest()
      requires |entries| >= maxEntries
      modifies `entries
      ensures entries == MakeRoom(old(State()))
    {
      var oldest: Option<nat> := None;
      for i := 0 to |entries|
        invariant entries == old(entries) && (oldest.None? <==> i == 0)
        invariant oldest.Some? ==> oldest.value < i && oldest.value == Earliest(entries[..i])
      {
        assert entries[..i + 1][..i] == entries[..i];
        if oldest.None? || entries[i].at < entries[oldest.value].at {
          oldest := Some(i);
        }
      }
      assert entries[..|entries|] == entries;
      if oldest.Some? && entries[oldest.value].key != "" {
        entries := entries[..oldest.value] + entries[oldest.value + 1..];
      }
    }

    method Lookup(key: Mac, now: Ms) returns (dir: Option<nat>)
      modifies `entries
      ensures State() == TableLookup(old(State()), key, now).0
      ensures dir == TableLookup(old(State()), key, now).1
    {
      var i := Seek(key);
      if i == |entries| { return None; }
      if now - entries[i].at > ttl {
        entries := entries[..i] + entries[i + 1..];
        return None;
      }
      entries := entries[i := entries[i].(hits := entries[i].hits + 1)];
      return Some(entries[i].dir);
    }
  }
}
