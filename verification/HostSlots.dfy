/** Where hosts sit on the perimeter: remembered slots, placement zones, the lowest
  * free slot, and what happens when there is none. */
module HostSlots {
  import opened Basics

  const SLOTS: nat := 18

  type Ident = string

  /** Which slot each placed port sits at and in what order the ports were placed, which
    * slots are taken, which slot each host remembers, who each announced port is, and
    * the port last announced for each host. */
  datatype Seating = Seating(placed: map<nat, nat>, order: seq<nat>, used: set<nat>, byIdent: map<Ident, nat>,
                             identOf: map<nat, Ident>, known: map<Ident, nat>)

  /** Only what hosts remember survives a session. */
  function Nobody(memory: map<Ident, nat>): Seating { Seating(map[], [], {}, memory, map[], map[]) }

  predicate Remembered(byIdent: map<Ident, nat>, slot: nat) { exists i :: i in byIdent && byIdent[i] == slot }

  predicate Free(s: Seating, i: nat) { i !in s.used && !Remembered(s.byIdent, i) }

  /** The first slot of the zone that is on the board and free. */
  function FirstInZone(s: Seating, zone: seq<int>): Option<nat> {
    if zone == [] then None
    else if 0 <= zone[0] < SLOTS && Free(s, zone[0]) then Some(zone[0])
    else FirstInZone(s, zone[1..])
  }

  function FirstFree(s: Seating, i: nat): Option<nat>
    decreases SLOTS - i
  {
    if i >= SLOTS then None else if Free(s, i) then Some(i) else FirstFree(s, i + 1)
  }

  function FirstUnused(s: Seating, i: nat): (r: Option<nat>)
    ensures r.Some? ==> i <= r.value < SLOTS && r.value !in s.used
    ensures r.None? ==> forall k :: i <= k < SLOTS ==> k in s.used
    decreases SLOTS - i
  {
    if i >= SLOTS then None else if i !in s.used then Some(i) else FirstUnused(s, i + 1)
  }

  /** A new choice: zone first, then free, then merely unused, then slot zero. */
  function Choose(s: Seating, zone: seq<int>): nat {
    match FirstInZone(s, zone)
    case Some(i) => i
    case None =>
      match FirstFree(s, 0)
      case Some(i) => i
      case None => match FirstUnused(s, 0) case Some(i) => i case None => 0
  }

  predicate Returns(s: Seating, ident: Ident) { ident in s.byIdent && s.byIdent[ident] !in s.used }

  function PickSlot(s: Seating, ident: Ident, zone: seq<int>): nat {
    if Returns(s, ident) then s.byIdent[ident] else Choose(s, zone)
  }

  /** The port takes the slot, behind those placed before it. */
  function Place(s: Seating, port: nat, slot: nat): Seating {
    s.(placed := s.placed[port := slot], order := if port in s.placed then s.order else s.order + [port], used := s.used + {slot})
  }

  function Without(order: seq<nat>, port: nat): seq<nat> {
    if order == [] then []
    else if order[0] == port then Without(order[1..], port)
    else [order[0]] + Without(order[1..], port)
  }

  /** The port gives its slot back, and is still announced. */
  function Vacate(s: Seating, port: nat): Seating {
    if port !in s.placed then s
    else s.(placed := s.placed - {port}, order := Without(s.order, port), used := s.used - {s.placed[port]})
  }

  function AddPort(s: Seating, port: nat, ident: Ident, zone: seq<int>): Seating {
    if port in s.placed then s else
    var slot := PickSlot(s, ident, zone);
    Place(s.(identOf := s.identOf[port := ident], known := s.known[ident := port],
             byIdent := if Returns(s, ident) then s.byIdent else s.byIdent[ident := slot]),
          port, slot)
  }

  function RemovePort(s: Seating, port: nat): Seating { Vacate(s, port).(identOf := s.identOf - {port}) }

  /** The first port placed under that name. */
  function FirstPort(order: seq<nat>, identOf: map<nat, Ident>, ident: Ident): (p: Option<nat>)
    ensures p.Some? ==> p.value in order && p.value in identOf && identOf[p.value] == ident
    ensures p.None? ==> forall q :: q in order && q in identOf ==> identOf[q] != ident
  {
    if order == [] then None
    else if order[0] in identOf && identOf[order[0]] == ident then Some(order[0])
    else FirstPort(order[1..], identOf, ident)
  }

  /** A move is refused unless the slot is on the board and unused and the host is placed. */
  predicate Moves(s: Seating, ident: Ident, target: int) {
    0 <= target < SLOTS && target !in s.used && FirstPort(s.order, s.identOf, ident).Some?
  }

  /** The first port placed under that name goes; the last one announced comes. */
  function MoveHost(s: Seating, ident: Ident, target: int): Seating {
    if !Moves(s, ident, target) then s else
    var r := Vacate(s, FirstPort(s.order, s.identOf, ident).value);
    if ident !in s.known then r else Place(r.(byIdent := r.byIdent[ident := target]), s.known[ident], target)
  }

  /** A fresh hello: everyone is taken off the board, to be announced again. */
  function Reset(s: Seating): Seating { s.(placed := map[], order := [], used := {}, identOf := map[]) }

  // ---- everyone has a seat of their own --------------------------------------------------

  ghost predicate SeatsApart(placed: map<nat, nat>) {
    forall p, q :: p in placed && q in placed && p != q ==> placed[p] != placed[q]
  }

  ghost predicate UsedExactly(placed: map<nat, nat>, used: set<nat>) {
    && (forall p :: p in placed ==> placed[p] in used)
    && (forall i :: i in used ==> i < SLOTS && exists p :: p in placed && placed[p] == i)
  }

  ghost predicate MemoryOk(byIdent: map<Ident, nat>) { forall i :: i in byIdent ==> byIdent[i] < SLOTS }

  /** The placed ports, each once. */
  ghost predicate Lists(order: seq<nat>, placed: map<nat, nat>) {
    && (forall i, j :: 0 <= i < j < |order| ==> order[i] != order[j])
    && (forall p :: p in order <==> p in placed)
  }

  /** The ports on the board are those announced, each under a known name. */
  ghost predicate Announced(placed: map<nat, nat>, identOf: map<nat, Ident>, known: map<Ident, nat>) {
    placed.Keys == identOf.Keys && forall p :: p in identOf ==> identOf[p] in known
  }

  ghost predicate SeatingOk(s: Seating) {
    && SeatsApart(s.placed) && UsedExactly(s.placed, s.used) && MemoryOk(s.byIdent)
    && Lists(s.order, s.placed) && Announced(s.placed, s.identOf, s.known)
  }

  lemma {:induction false} ZoneFree(s: Seating, zone: seq<int>)
    ensures FirstInZone(s, zone).Some? ==> FirstInZone(s, zone).value < SLOTS && FirstInZone(s, zone).value !in s.used
    decreases |zone|
  {
    if zone != [] { ZoneFree(s, zone[1..]); }
  }

  lemma {:induction false} FreeUnused(s: Seating, i: nat)
    ensures FirstFree(s, i).Some? ==> FirstFree(s, i).value < SLOTS && FirstFree(s, i).value !in s.used
    decreases SLOTS - i
  {
    hide Free;
    if i < SLOTS {
      FreeUnused(s, i + 1);
      if Free(s, i) { assert i !in s.used by { FreeIs(s, i); } }
    }
  }

  lemma FreeIs(s: Seating, i: nat)
    requires Free(s, i)
    ensures i !in s.used
  {
  }

  /** The slot picked is on the board, and unused exactly when some slot is. */
  lemma PickedUnusedIff(s: Seating, ident: Ident, zone: seq<int>)
    requires MemoryOk(s.byIdent)
    ensures PickSlot(s, ident, zone) < SLOTS
    ensures PickSlot(s, ident, zone) !in s.used <==> exists i: nat :: i < SLOTS && i !in s.used
  {
    hide FirstInZone, FirstFree;
    ZoneFree(s, zone);
    FreeUnused(s, 0);
  }

  function UpTo(n: nat): (all: set<nat>)
    ensures |all| == n && forall i: nat :: i in all <==> i < n
  {
    if n == 0 then {} else UpTo(n - 1) + {n - 1}
  }

  /** One host fewer, one slot fewer. */
  lemma Vacated(placed: map<nat, nat>, used: set<nat>, p: nat)
    requires SeatsApart(placed) && UsedExactly(placed, used) && p in placed
    ensures SeatsApart(placed - {p}) && UsedExactly(placed - {p}, used - {placed[p]}) && placed[p] in used
  {
    forall k | k in used - {placed[p]}
      ensures exists q :: q in placed - {p} && (placed - {p})[q] == k
    {
      var q :| q in placed && placed[q] == k;
      assert q in placed - {p};
    }
  }

  lemma OneFewer(placed: map<nat, nat>, p: nat)
    requires p in placed
    ensures |placed - {p}| == |placed| - 1
  {
    assert placed.Keys == (placed - {p}).Keys + {p};
    assert |placed.Keys| == |(placed - {p}).Keys| + 1;
  }

  /** As many slots are used as hosts are seated. */
  lemma {:induction false} UsedSize(placed: map<nat, nat>, used: set<nat>)
    requires SeatsApart(placed) && UsedExactly(placed, used)
    ensures |used| == |placed|
    decreases |placed|
  {
    if placed == map[] {
      assert used == {};
    } else {
      hide SeatsApart, UsedExactly;
      var p :| p in placed;
      Vacated(placed, used, p);
      OneFewer(placed, p);
      UsedSize(placed - {p}, used - {placed[p]});
      assert used == (used - {placed[p]}) + {placed[p]};
    }
  }

  lemma RoomIff(s: Seating)
    requires SeatsApart(s.placed) && UsedExactly(s.placed, s.used)
    ensures (exists i: nat :: i < SLOTS && i !in s.used) <==> |s.placed| < SLOTS
  {
    hide UpTo;
    UsedSize(s.placed, s.used);
    RoomIn(s.used, UpTo(SLOTS), SLOTS);
  }

  lemma RoomIn(used: set<nat>, all: set<nat>, n: nat)
    requires |all| == n && (forall i: nat :: i in all <==> i < n) && forall i :: i in used ==> i < n
    ensures (exists i: nat :: i < n && i !in used) <==> |used| < n
  {
    assert used <= all;
    SubsetSize(used, all);
    if used != all {
      var i :| i in all && i !in used;
    }
  }

  lemma {:induction false} WithoutIs(order: seq<nat>, placed: map<nat, nat>, port: nat)
    requires Lists(order, placed)
    ensures Lists(Without(order, port), placed - {port})
    decreases |order|
  {
    if order != [] {
      var rest := order[1..];
      forall p
        ensures p in rest <==> p in placed - {order[0]}
      {
        assert order == [order[0]] + rest;
      }
      WithoutIs(rest, placed - {order[0]}, port);
      assert placed - {order[0]} - {port} == placed - {port} - {order[0]};
      if order[0] != port { Prepended(Without(rest, port), placed - {port}, order[0]); }
    }
  }

  lemma Prepended(rest: seq<nat>, placed: map<nat, nat>, p: nat)
    requires p in placed && Lists(rest, placed - {p})
    ensures Lists([p] + rest, placed)
  {
    var order := [p] + rest;
    forall i, j | 0 <= i < j < |order|
      ensures order[i] != order[j]
    {
      assert order[j] == rest[j - 1] && order[j] in rest;
    }
    forall q
      ensures q in order <==> q in placed
    {
      assert q in order <==> q == p || q in rest;
    }
  }

  /** Seating a new host leaves everyone with a slot of their own exactly when fewer
    * than eighteen are seated; the nineteenth shares a slot. */
  lemma AddedApartIff(s: Seating, port: nat, ident: Ident, zone: seq<int>)
    requires SeatingOk(s) && port !in s.placed
    ensures SeatingOk(AddPort(s, port, ident, zone)) <==> |s.placed| < SLOTS
    ensures |s.placed| >= SLOTS ==> !SeatsApart(AddPort(s, port, ident, zone).placed)
  {
    hide PickSlot, Returns, MemoryOk, Lists, UsedExactly, SeatsApart;
    RoomIff(s);
    PickedUnusedIff(s, ident, zone);
    var slot := PickSlot(s, ident, zone);
    MemoryKept(s.byIdent, ident, slot);
    Appended(s.order, s.placed, port, slot);
    NewSeat(s.placed, s.used, port, slot);
  }

  lemma NewSeat(placed: map<nat, nat>, used: set<nat>, port: nat, slot: nat)
    requires SeatsApart(placed) && UsedExactly(placed, used) && port !in placed && slot < SLOTS
    ensures slot !in used ==> SeatsApart(placed[port := slot]) && UsedExactly(placed[port := slot], used + {slot})
    ensures slot in used ==> !SeatsApart(placed[port := slot])
  {
    var after := placed[port := slot];
    if slot !in used {
      SeatedExactly(placed, used, port, slot);
    } else {
      var p :| p in placed && placed[p] == slot;
      assert after[p] == after[port];
    }
  }

  lemma Appended(order: seq<nat>, placed: map<nat, nat>, port: nat, slot: nat)
    requires Lists(order, placed) && port !in placed
    ensures Lists(order + [port], placed[port := slot])
  {
    forall i | 0 <= i < |order|
      ensures order[i] in order
    {
    }
  }

  lemma MemoryKept(byIdent: map<Ident, nat>, ident: Ident, slot: nat)
    requires MemoryOk(byIdent) && slot < SLOTS
    ensures MemoryOk(byIdent[ident := slot])
  {
  }

  lemma SeatedExactly(placed: map<nat, nat>, used: set<nat>, port: nat, slot: nat)
    requires UsedExactly(placed, used) && port !in placed && slot < SLOTS
    ensures UsedExactly(placed[port := slot], used + {slot})
  {
    var after := placed[port := slot];
    forall i | i in used + {slot}
      ensures exists p :: p in after && after[p] == i
    {
      if i == slot {
        assert port in after && after[port] == i;
      } else {
        var p :| p in placed && placed[p] == i;
        assert p in after && after[p] == i;
      }
    }
  }

  lemma RemoveKeeps(s: Seating, port: nat)
    requires SeatingOk(s)
    ensures SeatingOk(RemovePort(s, port))
  {
    hide SeatsApart, UsedExactly, MemoryOk, Lists;
    if port in s.placed {
      Vacated(s.placed, s.used, port);
      WithoutIs(s.order, s.placed, port);
    } else {
      assert s.identOf - {port} == s.identOf;
    }
  }

  lemma ResetKeeps(s: Seating)
    requires MemoryOk(s.byIdent)
    ensures SeatingOk(Reset(s))
  {
  }

  /** What a move that is not refused does, part by part. */
  lemma MoveIs(s: Seating, ident: Ident, target: int)
    requires SeatingOk(s) && Moves(s, ident, target)
    ensures ident in s.known && FirstPort(s.order, s.identOf, ident).Some?
    ensures var p, q, t := FirstPort(s.order, s.identOf, ident).value, s.known[ident], MoveHost(s, ident, target);
            && p in s.placed && p in s.identOf && s.identOf[p] == ident
            && t.placed == (s.placed - {p})[q := target] && t.used == s.used - {s.placed[p]} + {target}
            && t.order == (if q in s.placed && q != p then Without(s.order, p) else Without(s.order, p) + [q])
            && t.byIdent == s.byIdent[ident := target] && t.identOf == s.identOf && t.known == s.known
  {
    hide FirstPort, SeatsApart, UsedExactly, MemoryOk, Lists, Without;
    FirstPlaced(s, ident);
  }

  /** The seats after `p` went and `q` came to an unused slot. */
  lemma MovedSeats(placed: map<nat, nat>, used: set<nat>, p: nat, q: nat, target: nat)
    requires SeatsApart(placed) && UsedExactly(placed, used) && p in placed && target !in used && target < SLOTS
    ensures var after := (placed - {p})[q := target];
            && SeatsApart(after) && (UsedExactly(after, used - {placed[p]} + {target}) <==> q == p || q !in placed)
            && (q != p && q in placed ==> placed[q] in used - {placed[p]} && forall k :: k in after ==> after[k] != placed[q])
  {
    var r, after := placed - {p}, (placed - {p})[q := target];
    assert SeatsApart(r) && UsedExactly(r, used - {placed[p]}) by { hide SeatsApart, UsedExactly; Vacated(placed, used, p); }
    if q !in r {
      SeatedExactly(r, used - {placed[p]}, q, target);
    } else {
      assert placed[q] in used - {placed[p]} + {target};
      assert forall k :: k in after ==> after[k] != placed[q];
    }
  }

  /** Moving a host leaves all seats in order exactly when the port that goes is the port
    * that comes. If another one comes that has a seat already, that seat stays taken with
    * nobody in it; if one comes that has left, it is seated all the same. */
  lemma MoveKeepsIff(s: Seating, ident: Ident, target: int)
    requires SeatingOk(s) && Moves(s, ident, target)
    ensures ident in s.known && FirstPort(s.order, s.identOf, ident).Some?
    ensures var p, q, t := FirstPort(s.order, s.identOf, ident).value, s.known[ident], MoveHost(s, ident, target);
            && (SeatingOk(t) <==> q == p)
            && SeatsApart(t.placed) && MemoryOk(t.byIdent)
            && (UsedExactly(t.placed, t.used) <==> q == p || q !in s.placed)
            && (q != p && q in s.placed ==> s.placed[q] in t.used && forall k :: k in t.placed ==> t.placed[k] != s.placed[q])
            && (q !in s.placed ==> q in t.placed && q !in t.identOf)
  {
    hide MemoryOk, FirstPort, Lists, Without, UsedExactly, SeatsApart, MoveHost;
    MoveIs(s, ident, target);
    var p, q, t := FirstPort(s.order, s.identOf, ident).value, s.known[ident], MoveHost(s, ident, target);
    MovedSeats(s.placed, s.used, p, q, target);
    MemoryKept(s.byIdent, ident, target);
    if q == p {
      WithoutIs(s.order, s.placed, p);
      Appended(Without(s.order, p), s.placed - {p}, p, target);
    } else {
      assert p !in t.placed && p in t.identOf;
    }
  }

  lemma FirstPlaced(s: Seating, ident: Ident)
    requires SeatingOk(s) && FirstPort(s.order, s.identOf, ident).Some?
    ensures var p := FirstPort(s.order, s.identOf, ident).value; p in s.placed && p in s.identOf && s.identOf[p] == ident
  {
    hide FirstPort, SeatsApart, UsedExactly, MemoryOk, Announced;
  }

  /** Every used slot but `lost` has someone in it. */
  ghost predicate Leaky(placed: map<nat, nat>, used: set<nat>, lost: nat) {
    forall i :: i in used ==> i < SLOTS && (i == lost || exists p :: p in placed && placed[p] == i)
  }

  lemma MovedLeaky(s: Seating, ident: Ident, target: int)
    requires SeatingOk(s) && Moves(s, ident, target) && ident in s.known
    requires var q := s.known[ident]; q in s.placed && q != FirstPort(s.order, s.identOf, ident).value
    ensures var t := MoveHost(s, ident, target);
            |t.placed| == |s.placed| - 1 && |t.used| == |s.used| && Leaky(t.placed, t.used, s.placed[s.known[ident]])
  {
    hide MemoryOk, FirstPort, Lists, Without, SeatsApart, MoveHost, Leaky, UsedExactly;
    MoveIs(s, ident, target);
    LeakySeats(s.placed, s.used, FirstPort(s.order, s.identOf, ident).value, s.known[ident], target);
  }

  lemma LeakySeats(placed: map<nat, nat>, used: set<nat>, p: nat, q: nat, target: nat)
    requires UsedExactly(placed, used) && p in placed && q in placed && q != p && target !in used && target < SLOTS
    ensures var after, still := (placed - {p})[q := target], used - {placed[p]} + {target};
            |after| == |placed| - 1 && |still| == |used| && Leaky(after, still, placed[q])
  {
    var after, still := (placed - {p})[q := target], used - {placed[p]} + {target};
    OneFewer(placed, p);
    assert after.Keys == (placed - {p}).Keys;
    assert |after| == |after.Keys| == |(placed - {p}).Keys|;
    assert used == (used - {placed[p]}) + {placed[p]};
    forall i | i in still
      ensures i < SLOTS && (i == placed[q] || exists k :: k in after && after[k] == i)
    {
      if i == target {
        assert after[q] == i;
      } else if i != placed[q] {
        var k :| k in placed && placed[k] == i;
        assert k in after && after[k] == i;
      }
    }
  }

  lemma AddedLeaky(t: Seating, port: nat, ident: Ident, lost: nat)
    requires Leaky(t.placed, t.used, lost) && MemoryOk(t.byIdent) && port !in t.placed && |t.used| < SLOTS
    ensures var u := AddPort(t, port, ident, []);
            |u.used| == |t.used| + 1 && Leaky(u.placed, u.used, lost) && MemoryOk(u.byIdent)
  {
    hide PickSlot, Returns, MemoryOk, UpTo;
    var u, slot := AddPort(t, port, ident, []), PickSlot(t, ident, []);
    RoomIn(t.used, UpTo(SLOTS), SLOTS);
    PickedUnusedIff(t, ident, []);
    MemoryKept(t.byIdent, ident, slot);
    forall i | i in u.used
      ensures i < SLOTS && (i == lost || exists k :: k in u.placed && u.placed[k] == i)
    {
      if i == slot {
        assert u.placed[port] == i;
      } else if i != lost {
        var k :| k in t.placed && t.placed[k] == i;
        assert k in u.placed && u.placed[k] == i;
      }
    }
  }

  lemma {:induction false} NoneFree(s: Seating, i: nat)
    requires forall k: nat :: k < SLOTS ==> k in s.used
    ensures FirstFree(s, i) == None
    decreases SLOTS - i
  {
    hide Remembered;
    if i < SLOTS { NoneFree(s, i + 1); }
  }

  /** With every slot used the last resort is slot zero. */
  lemma PickedWhenFull(s: Seating, ident: Ident)
    requires (forall k: nat :: k < SLOTS ==> k in s.used) && MemoryOk(s.byIdent)
    ensures PickSlot(s, ident, []) == 0
  {
    hide FirstFree, FirstUnused;
    NoneFree(s, 0);
    assert FirstUnused(s, 0) == None;
  }

  /** A slot nobody sits in costs a seat: of two hosts who come after such a move with
    * seventeen placed, the second is the eighteenth, and shares a slot. */
  lemma LeakCostsASeat(s: Seating, ident: Ident, target: int, a: nat, b: nat, nameA: Ident, nameB: Ident)
    requires SeatingOk(s) && Moves(s, ident, target) && ident in s.known && |s.placed| == SLOTS - 1
    requires var q := s.known[ident]; q in s.placed && q != FirstPort(s.order, s.identOf, ident).value && s.placed[q] != 0
    requires a !in s.placed && b !in s.placed && a != b
    ensures var t := AddPort(AddPort(MoveHost(s, ident, target), a, nameA, []), b, nameB, []);
            |t.placed| == SLOTS && !SeatsApart(t.placed)
  {
    hide FirstPort, Lists, Without, PickSlot, Returns, Announced, MemoryOk, Moves, UpTo, MoveHost;
    var lost, t := s.placed[s.known[ident]], MoveHost(s, ident, target);
    MoveKeepsIff(s, ident, target);
    MovedFrom(s, ident, target);
    UsedSize(s.placed, s.used);
    MovedLeaky(s, ident, target);
    var u := AddPort(t, a, nameA, []);
    AddedLeaky(t, a, nameA, lost);
    AddedCount(t, a, nameA, []);
    RoomIn(u.used, UpTo(SLOTS), SLOTS);
    PickedWhenFull(u, nameB);
    AddedCount(u, b, nameB, []);
    var v := AddPort(u, b, nameB, []);
    var k :| k in u.placed && u.placed[k] == 0;
    assert v.placed[k] == v.placed[b] == 0;
  }

  lemma MovedFrom(s: Seating, ident: Ident, target: int)
    requires SeatingOk(s) && Moves(s, ident, target) && ident in s.known && s.known[ident] in s.placed
    ensures MoveHost(s, ident, target).placed.Keys <= s.placed.Keys
  {
    hide MoveHost, SeatingOk, Moves, FirstPort;
    MoveIs(s, ident, target);
  }

  lemma AddedCount(s: Seating, port: nat, ident: Ident, zone: seq<int>)
    requires port !in s.placed
    ensures |AddPort(s, port, ident, zone).placed| == |s.placed| + 1
  {
    hide PickSlot;
    OneFewer(AddPort(s, port, ident, zone).placed, port);
    assert AddPort(s, port, ident, zone).placed - {port} == s.placed;
  }

  /** A host that left and comes back gets its remembered slot, if no one sits there. */
  lemma ReturnsToItsSlot(s: Seating, port: nat, ident: Ident, zone: seq<int>)
    requires port !in s.placed && Returns(s, ident)
    ensures AddPort(s, port, ident, zone).placed[port] == s.byIdent[ident]
    ensures AddPort(s, port, ident, zone).byIdent == s.byIdent
  {
  }

  // ---- whole sittings ------------------------------------------------------------------

  datatype Event =
    | Join(port: nat, ident: Ident, zone: seq<int>)
    | Leave(port: nat)
    | Relocate(ident: Ident, target: int)
    | Hello

  function Next(s: Seating, e: Event): Seating {
    match e
    case Join(port, ident, zone) => AddPort(s, port, ident, zone)
    case Leave(port) => RemovePort(s, port)
    case Relocate(ident, target) => MoveHost(s, ident, target)
    case Hello => Reset(s)
  }

  function Seated(memory: map<Ident, nat>, events: seq<Event>): Seating {
    if events == [] then Nobody(memory) else Next(Seated(memory, events[..|events| - 1]), events[|events| - 1])
  }

  /** What a caller can see before an event: there is room for whoever comes, and whoever
    * moves is the port last announced under its name. */
  predicate Fits(s: Seating, e: Event) {
    match e
    case Join(port, _, _) => port in s.placed || |s.placed| < SLOTS
    case Relocate(ident, target) =>
      Moves(s, ident, target) ==> ident in s.known && FirstPort(s.order, s.identOf, ident) == Some(s.known[ident])
    case _ => true
  }

  /** From seats in order an event leads to seats in order exactly when it fits. */
  lemma NextOkIff(s: Seating, e: Event)
    requires SeatingOk(s)
    ensures SeatingOk(Next(s, e)) <==> Fits(s, e)
  {
    hide SeatingOk, AddPort, RemovePort, MoveHost, Moves, FirstPort, Reset;
    match e
    case Join(port, ident, zone) => if port in s.placed { AlreadyThere(s, port, ident, zone); } else { AddedApartIff(s, port, ident, zone); }
    case Leave(port) => RemoveKeeps(s, port);
    case Relocate(ident, target) => if Moves(s, ident, target) { MoveKeepsIff(s, ident, target); } else { Refused(s, ident, target); }
    case Hello => ResetOk(s);
  }

  lemma Refused(s: Seating, ident: Ident, target: int)
    requires !Moves(s, ident, target)
    ensures MoveHost(s, ident, target) == s
  {
  }

  lemma ResetOk(s: Seating)
    requires SeatingOk(s)
    ensures SeatingOk(Reset(s))
  {
    ResetKeeps(s);
  }

  /** Seats are in order all along. */
  ghost predicate AlwaysOk(memory: map<Ident, nat>, events: seq<Event>) {
    forall n :: 0 <= n <= |events| ==> SeatingOk(Seated(memory, events[..n]))
  }

  predicate AllFit(memory: map<Ident, nat>, events: seq<Event>) {
    forall n :: 0 <= n < |events| ==> Fits(Seated(memory, events[..n]), events[n])
  }

  /** Over whole sittings, from whatever hosts remember: seats are in order all along
    * exactly when every event fits. */
  lemma {:induction false} SeatsInOrderIff(memory: map<Ident, nat>, events: seq<Event>)
    requires MemoryOk(memory)
    ensures AlwaysOk(memory, events) <==> AllFit(memory, events)
    decreases |events|
  {
    hide AlwaysOk, AllFit, SeatingOk, Next, Fits;
    if events == [] {
      NobodyOk(memory);
      NoEvents(memory);
    } else {
      var k := |events| - 1;
      SeatsInOrderIff(memory, events[..k]);
      OneMoreOk(memory, events);
      OneMoreFits(memory, events);
      if SeatingOk(Seated(memory, events[..k])) { NextOkIff(Seated(memory, events[..k]), events[k]); }
      LastOk(memory, events[..k]);
    }
  }

  lemma NoEvents(memory: map<Ident, nat>)
    requires SeatingOk(Nobody(memory))
    ensures AlwaysOk(memory, []) && AllFit(memory, [])
  {
    hide SeatingOk;
  }

  lemma LastOk(memory: map<Ident, nat>, events: seq<Event>)
    ensures AlwaysOk(memory, events) ==> SeatingOk(Seated(memory, events))
  {
    assert events[..|events|] == events;
  }

  lemma OneMoreOk(memory: map<Ident, nat>, events: seq<Event>)
    requires events != []
    ensures AlwaysOk(memory, events) <==> AlwaysOk(memory, events[..|events| - 1]) && SeatingOk(Seated(memory, events))
  {
    hide SeatingOk, Seated, AlwaysOk;
    if AlwaysOk(memory, events) { OneMoreOkBefore(memory, events); }
    if AlwaysOk(memory, events[..|events| - 1]) && SeatingOk(Seated(memory, events)) { OneMoreOkAfter(memory, events); }
  }

  lemma OneMoreOkBefore(memory: map<Ident, nat>, events: seq<Event>)
    requires events != [] && AlwaysOk(memory, events)
    ensures AlwaysOk(memory, events[..|events| - 1]) && SeatingOk(Seated(memory, events))
  {
    hide SeatingOk, Seated;
    var k := |events| - 1;
    assert events[..|events|] == events;
    forall n | 0 <= n <= k
      ensures SeatingOk(Seated(memory, events[..k][..n]))
    {
      assert events[..k][..n] == events[..n];
    }
  }

  lemma OneMoreOkAfter(memory: map<Ident, nat>, events: seq<Event>)
    requires events != [] && AlwaysOk(memory, events[..|events| - 1]) && SeatingOk(Seated(memory, events))
    ensures AlwaysOk(memory, events)
  {
    hide SeatingOk, Seated;
    forall n | 0 <= n <= |events|
      ensures SeatingOk(Seated(memory, events[..n]))
    {
      if n == |events| {
        assert events[..n] == events;
      } else {
        assert events[..|events| - 1][..n] == events[..n];
      }
    }
  }

  lemma OneMoreFits(memory: map<Ident, nat>, events: seq<Event>)
    requires events != []
    ensures var k := |events| - 1;
            AllFit(memory, events) <==> AllFit(memory, events[..k]) && Fits(Seated(memory, events[..k]), events[k])
  {
    hide Fits, Seated;
    var before := events[..|events| - 1];
    assert forall n :: 0 <= n <= |before| ==> before[..n] == events[..n];
  }

  lemma NobodyOk(memory: map<Ident, nat>)
    requires MemoryOk(memory)
    ensures SeatingOk(Nobody(memory))
  {
  }

  lemma AlreadyThere(s: Seating, port: nat, ident: Ident, zone: seq<int>)
    requires port in s.placed
    ensures AddPort(s, port, ident, zone) == s
  {
  }

  // ---- one name, one port --------------------------------------------------------------

  /** No two announced ports go by one name. */
  predicate NamesApart(s: Seating) {
    forall p, q :: p in s.identOf && q in s.identOf && p != q ==> s.identOf[p] != s.identOf[q]
  }

  /** Whoever is announced is the last one announced under its name. */
  ghost predicate LastAnnounced(s: Seating) {
    forall p :: p in s.identOf ==> s.identOf[p] in s.known && s.known[s.identOf[p]] == p
  }

  /** Never more than eighteen hosts on the board at once, nor two under one name. */
  predicate NeverCrowded(memory: map<Ident, nat>, events: seq<Event>) {
    forall n :: 0 <= n <= |events| ==> |Seated(memory, events[..n]).placed| <= SLOTS && NamesApart(Seated(memory, events[..n]))
  }

  lemma LastAnnouncedFits(s: Seating, e: Event)
    requires SeatingOk(s) && LastAnnounced(s) && |Next(s, e).placed| <= SLOTS && NamesApart(Next(s, e))
    ensures Fits(s, e) && LastAnnounced(Next(s, e))
  {
    hide SeatingOk, LastAnnounced, NamesApart, FirstPort, RemovePort, Reset, Moves, MoveHost, AddPort;
    match e
    case Join(port, ident, zone) => if port !in s.placed { AddedLast(s, port, ident, zone); } else { AlreadyThere(s, port, ident, zone); }
    case Leave(port) => RemovedLast(s, port);
    case Relocate(ident, target) => if Moves(s, ident, target) { MovedLast(s, ident, target); } else { Refused(s, ident, target); }
    case Hello => ResetLast(s);
  }

  lemma RemovedLast(s: Seating, port: nat)
    requires LastAnnounced(s)
    ensures LastAnnounced(RemovePort(s, port))
  {
    hide Without;
  }

  lemma ResetLast(s: Seating)
    ensures LastAnnounced(Reset(s))
  {
  }

  lemma MovedLast(s: Seating, ident: Ident, target: int)
    requires SeatingOk(s) && LastAnnounced(s) && Moves(s, ident, target)
    ensures ident in s.known && FirstPort(s.order, s.identOf, ident) == Some(s.known[ident])
    ensures LastAnnounced(MoveHost(s, ident, target))
  {
    hide SeatingOk, FirstPort, Moves, MoveHost;
    MoveIs(s, ident, target);
  }

  lemma AddedLast(s: Seating, port: nat, ident: Ident, zone: seq<int>)
    requires LastAnnounced(s) && port !in s.placed && NamesApart(AddPort(s, port, ident, zone))
    ensures LastAnnounced(AddPort(s, port, ident, zone)) && |AddPort(s, port, ident, zone).placed| == |s.placed| + 1
  {
    hide PickSlot, Returns;
    AddedCount(s, port, ident, zone);
    var t := AddPort(s, port, ident, zone);
    forall p | p in t.identOf
      ensures t.identOf[p] in t.known && t.known[t.identOf[p]] == p
    {
      if p != port { assert t.identOf[p] != t.identOf[port]; }
    }
  }

  /** While no more than eighteen hosts are placed at once and no two of them go by one
    * name, however they come, go and move, no two share a slot and the used slots are
    * exactly theirs. */
  lemma {:induction false} SeatsStayApart(memory: map<Ident, nat>, events: seq<Event>)
    requires MemoryOk(memory) && NeverCrowded(memory, events)
    ensures SeatingOk(Seated(memory, events)) && LastAnnounced(Seated(memory, events))
    decreases |events|
  {
    hide SeatingOk, Next, NamesApart, LastAnnounced, Fits;
    if events == [] {
      NobodyOk(memory);
      assert LastAnnounced(Nobody(memory)) by { NobodyLast(memory); }
    } else {
      var before, e := events[..|events| - 1], events[|events| - 1];
      forall n | 0 <= n <= |before|
        ensures before[..n] == events[..n]
      {
      }
      SeatsStayApart(memory, before);
      assert events[..|events|] == events;
      LastAnnouncedFits(Seated(memory, before), e);
      NextOkIff(Seated(memory, before), e);
    }
  }

  lemma NobodyLast(memory: map<Ident, nat>)
    ensures LastAnnounced(Nobody(memory))
  {
  }

  // ---- what goes wrong otherwise ---------------------------------------------------------

  const EDGE_X: Ident := "edge/x"

  /** Two agents under one name, and a move to slot five. */
  const TWO_AGENTS: seq<Event> := [Join(1, EDGE_X, []), Join(2, EDGE_X, []), Relocate(EDGE_X, 5)]

  lemma FirstAgent()
    ensures Seated(map[], [Join(1, EDGE_X, [])])
            == Seating(map[1 := 0], [1], {0}, map[EDGE_X := 0], map[1 := EDGE_X], map[EDGE_X := 1])
  {
    var s := Nobody(map[]);
    assert Free(s, 0);
    assert FirstInZone(s, []) == None && FirstFree(s, 0) == Some(0);
    var events := [Join(1, EDGE_X, [])];
    assert events[..0] == [];
    assert Seated(map[], events) == AddPort(s, 1, EDGE_X, []);
  }

  lemma SecondAgent()
    ensures Seated(map[], [Join(1, EDGE_X, []), Join(2, EDGE_X, [])])
            == BOTH_AGENTS
  {
    var events := [Join(1, EDGE_X, []), Join(2, EDGE_X, [])];
    FirstAgent();
    assert events[..1] == [Join(1, EDGE_X, [])];
    var s := Seated(map[], events[..1]);
    assert !Free(s, 0) && Free(s, 1);
    assert FirstInZone(s, []) == None && FirstFree(s, 1) == Some(1) && FirstFree(s, 0) == Some(1);
    assert Seated(map[], events) == AddPort(s, 2, EDGE_X, []);
  }

  const BOTH_AGENTS := Seating(map[1 := 0, 2 := 1], [1, 2], {0, 1}, map[EDGE_X := 1], map[1 := EDGE_X, 2 := EDGE_X], map[EDGE_X := 2])

  const ONE_MOVED := Seating(map[2 := 5], [2], {1, 5}, map[EDGE_X := 5], map[1 := EDGE_X, 2 := EDGE_X], map[EDGE_X := 2])

  lemma SecondMoves()
    ensures MoveHost(BOTH_AGENTS, EDGE_X, 5) == ONE_MOVED
  {
    assert FirstPort([1, 2], BOTH_AGENTS.identOf, EDGE_X) == Some(1);
    assert Without([1, 2], 1) == [2] by { assert [1, 2][1..] == [2] && [2][1..] == []; }
  }

  lemma SecondLeaves()
    ensures var s := RemovePort(ONE_MOVED, 2); s.placed == map[] && s.used == {1}
    ensures !SeatingOk(ONE_MOVED)
  {
    hide Without;
    assert 1 in ONE_MOVED.identOf && 1 !in ONE_MOVED.placed;
  }

  lemma SeatedMore(memory: map<Ident, nat>, events: seq<Event>, e: Event)
    ensures Seated(memory, events + [e]) == Next(Seated(memory, events), e)
  {
    assert (events + [e])[..|events|] == events;
  }

  /** The first agent's port goes and the second one's moves: slot one stays taken with
    * nobody in it, even after the second agent has left. */
  lemma TwoAgentsLeakASlot()
    ensures Seated(map[], TWO_AGENTS) == ONE_MOVED && !SeatingOk(ONE_MOVED)
    ensures var s := Seated(map[], TWO_AGENTS + [Leave(2)]); s.placed == map[] && s.used == {1}
  {
    hide Seated, MoveHost, RemovePort, SeatingOk;
    SecondAgent();
    SeatedMore(map[], [Join(1, EDGE_X, []), Join(2, EDGE_X, [])], Relocate(EDGE_X, 5));
    assert TWO_AGENTS == [Join(1, EDGE_X, []), Join(2, EDGE_X, [])] + [Relocate(EDGE_X, 5)];
    SeatedMore(map[], TWO_AGENTS, Leave(2));
    SecondMoves();
    SecondLeaves();
  }

  /** Hosts 1 to `n` come, each under a name of its own. */
  function Crowd(n: nat): seq<Event> {
    if n == 0 then [] else Crowd(n - 1) + [Join(n, seq(n, _ => 'x'), [])]
  }

  lemma {:induction false} CrowdSits(memory: map<Ident, nat>, n: nat)
    requires MemoryOk(memory) && n <= SLOTS
    ensures var s := Seated(memory, Crowd(n));
            SeatingOk(s) && |s.placed| == n && forall p :: p in s.placed ==> p <= n
  {
    hide SeatingOk, AddPort, Seated;
    if n == 0 {
      assert Seated(memory, []) == Nobody(memory) by { NoneSeated(memory); }
      NobodyOk(memory);
    } else {
      CrowdSits(memory, n - 1);
      var s, name := Seated(memory, Crowd(n - 1)), seq(n, _ => 'x');
      SeatedMore(memory, Crowd(n - 1), Join(n, name, []));
      AddedApartIff(s, n, name, []);
      AddedCount(s, n, name, []);
      AddedKeys(s, n, name, []);
    }
  }

  lemma NoneSeated(memory: map<Ident, nat>)
    ensures Seated(memory, []) == Nobody(memory)
  {
  }

  lemma AddedKeys(s: Seating, port: nat, ident: Ident, zone: seq<int>)
    ensures AddPort(s, port, ident, zone).placed.Keys == s.placed.Keys + {port}
  {
    hide PickSlot;
  }

  /** Nineteen hosts come, and the last of them is put on slot zero, where another sits. */
  lemma NineteenShareASlot(memory: map<Ident, nat>)
    requires MemoryOk(memory)
    ensures var s := Seated(memory, Crowd(19));
            |s.placed| == 19 && 19 in s.placed && s.placed[19] == 0 && exists p :: p in s.placed && p != 19 && s.placed[p] == 0
  {
    hide Seated, PickSlot, Crowd, Returns, UpTo;
    assert Crowd(19) == Crowd(18) + [Join(19, seq(19, _ => 'x'), [])] by { CrowdMore(18); }
    var s, name := Seated(memory, Crowd(18)), seq(19, _ => 'x');
    CrowdSits(memory, 18);
    SeatedMore(memory, Crowd(18), Join(19, name, []));
    UsedSize(s.placed, s.used);
    RoomIn(s.used, UpTo(SLOTS), SLOTS);
    PickedWhenFull(s, name);
    AddedCount(s, 19, name, []);
    var p :| p in s.placed && s.placed[p] == 0;
    assert AddPort(s, 19, name, []).placed[p] == 0;
  }

  lemma CrowdMore(n: nat)
    ensures Crowd(n + 1) == Crowd(n) + [Join(n + 1, seq(n + 1, _ => 'x'), [])]
  {
  }
}
