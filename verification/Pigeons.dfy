/** The belt game's frame accounting: pigeons carry frames, hubs and switches
  * clone them, and the last pigeon of a frame sends its one final verb.
  *
  * Where a pigeon goes is the board's business and arbitrary here: each tick
  * every pigeon reports an outcome and the clones it asked for. */
module Pigeons {
  import opened Basics
  import opened LoftCore
  import opened Cluster

  const MAX_PIGEONS: nat := 500
  const MAX_QUEUE: nat := 10000

  /** A pigeon is known by the frame it carries. */
  datatype Game = Game(queue: seq<Token>, pigeons: seq<Fid>, frameRefs: map<Fid, nat>,
                       sent: seq<Verdict>, droppedByMe: nat)

  datatype Ret = Keep | Fall | Land(port: PortId)

  /** One pigeon's tick: the clones it asked for, and whether each could ride
    * out, then what became of the pigeon itself. */
  datatype Outcome = Outcome(clones: seq<bool>, ret: Ret)

  datatype Clone = Clone(fid: Fid, rides: bool)

  const EMPTY_GAME := Game([], [], map[], [], 0)

  function Send(g: Game, v: Verdict): Game { g.(sent := g.sent + [v]) }

  function FreeUnflown(g: Game, f: Fid): Game {
    Send(g, Verdict(Drop, 0, f)).(droppedByMe := g.droppedByMe + 1)
  }

  function Enqueue(g: Game, t: Token): Game {
    var q := g.queue + [t];
    if |q| > MAX_QUEUE then FreeUnflown(g.(queue := q[1..]), q[0].fid) else g.(queue := q)
  }

  function RefOf(g: Game, f: Fid): nat { if f in g.frameRefs then g.frameRefs[f] else 0 }

  /** A missing count reads as one, in both. */
  function Resolve(g: Game, f: Fid, port: PortId): Game {
    if RefOf(g, f) > 1 then Send(g.(frameRefs := g.frameRefs[f := g.frameRefs[f] - 1]), Verdict(CopyDeliver, port, f))
    else Send(g.(frameRefs := g.frameRefs - {f}), Verdict(Deliver, port, f))
  }

  function Unref(g: Game, f: Fid): Game {
    if RefOf(g, f) > 1 then g.(frameRefs := g.frameRefs[f := g.frameRefs[f] - 1])
    else FreeUnflown(g.(frameRefs := g.frameRefs - {f}), f)
  }

  function Spawn(g: Game, t: Token, roosts: set<PortId>): Game {
    if t.port !in roosts then FreeUnflown(g, t.fid)
    else g.(frameRefs := g.frameRefs[t.fid := 1], pigeons := g.pigeons + [t.fid])
  }

  function SpawnAll(g: Game, roosts: set<PortId>): Game
    decreases |g.queue|
  {
    if g.queue == [] || |g.pigeons| >= MAX_PIGEONS then g
    else SpawnAll(Spawn(g.(queue := g.queue[1..]), g.queue[0], roosts), roosts)
  }

  function Without<T>(s: seq<T>, i: nat): seq<T>
    requires i < |s|
  {
    s[..i] + s[i + 1..]
  }

  function RideOne(g: Game, i: nat, ret: Ret): Game
    requires i < |g.pigeons|
  {
    match ret
    case Keep => g
    case Fall => Unref(g.(pigeons := Without(g.pigeons, i)), g.pigeons[i])
    case Land(port) => Resolve(g.(pigeons := Without(g.pigeons, i)), g.pigeons[i], port)
  }

  /** Pigeons `i - 1` down to `0` take their turn. */
  function RideAll(g: Game, i: nat, outs: nat -> Outcome): Game
    requires i <= |g.pigeons|
    decreases i
  {
    if i == 0 then g else RideAll(RideOne(g, i - 1, outs(i - 1).ret), i - 1, outs)
  }

  function ClonesOf(f: Fid, rides: seq<bool>): seq<Clone> {
    seq(|rides|, k requires 0 <= k < |rides| => Clone(f, rides[k]))
  }

  function Backlog(pigeons: seq<Fid>, i: nat, outs: nat -> Outcome): seq<Clone>
    requires i <= |pigeons|
    decreases i
  {
    if i == 0 then [] else ClonesOf(pigeons[i - 1], outs(i - 1).clones) + Backlog(pigeons, i - 1, outs)
  }

  function CloneOne(g: Game, e: Clone): Game {
    if |g.pigeons| >= MAX_PIGEONS then Unref(g, e.fid)
    else if e.fid !in g.frameRefs || !e.rides then g
    else g.(frameRefs := g.frameRefs[e.fid := g.frameRefs[e.fid] + 1], pigeons := g.pigeons + [e.fid])
  }

  function CloneAll(g: Game, entries: seq<Clone>): Game
    decreases |entries|
  {
    if entries == [] then g else CloneAll(CloneOne(g, entries[0]), entries[1..])
  }

  /** One tick: the queue drains, everyone rides, then the clones take off. */
  function Update(g: Game, roosts: set<PortId>, outs: nat -> Outcome): Game {
    var g1 := SpawnAll(g, roosts);
    CloneAll(RideAll(g1, |g1.pigeons|, outs), Backlog(g1.pigeons, |g1.pigeons|, outs))
  }

  // ---- the ledger ------------------------------------------------------------------

  /** The verbs sent for frame `f`, in order. */
  function VerbsOf(sent: seq<Verdict>, f: Fid): seq<Verb> {
    if sent == [] then []
    else VerbsOf(sent[..|sent| - 1], f) + if sent[|sent| - 1].fid == f then [sent[|sent| - 1].verb] else []
  }

  predicate OnlyCopies(vs: seq<Verb>) { forall i :: 0 <= i < |vs| ==> vs[i] == CopyDeliver }

  /** Any number of copy-delivers, then one deliver or drop, and nothing after. */
  predicate Finished(vs: seq<Verb>) {
    vs != [] && vs[|vs| - 1] != CopyDeliver && OnlyCopies(vs[..|vs| - 1])
  }

  function Finals(vs: seq<Verb>): nat {
    if vs == [] then 0 else Finals(vs[..|vs| - 1]) + if vs[|vs| - 1] == CopyDeliver then 0 else 1
  }

  function Waiting(queue: seq<Token>): set<Fid> { set t | t in queue :: t.fid }

  /** A frame is waiting, flying, done, or unheard of, and its count and its
    * verbs say which. */
  ghost predicate FrameOk(waiting: bool, flying: nat, refs: nat, counted: bool, vs: seq<Verb>, seen: bool) {
    if waiting then seen && flying == 0 && !counted && vs == []
    else if flying > 0 then seen && counted && refs == flying && OnlyCopies(vs)
    else if seen then !counted && Finished(vs)
    else !counted && vs == []
  }

  ghost predicate FrameOkIn(g: Game, seen: set<Fid>, f: Fid) {
    FrameOk(f in Waiting(g.queue), multiset(g.pigeons)[f], RefOf(g, f), f in g.frameRefs, VerbsOf(g.sent, f), f in seen)
  }

  ghost predicate Distinct(queue: seq<Token>) {
    forall i, j :: 0 <= i < j < |queue| ==> queue[i].fid != queue[j].fid
  }

  /** The reference counts are exact and every frame's verbs are in order. */
  ghost predicate Ledger(g: Game, seen: set<Fid>) {
    Distinct(g.queue) && forall f :: FrameOkIn(g, seen, f)
  }

  lemma EmptyLedger()
    ensures Ledger(EMPTY_GAME, {})
  {
  }

  lemma VerbsMore(sent: seq<Verdict>, v: Verdict, f: Fid)
    ensures VerbsOf(sent + [v], f) == VerbsOf(sent, f) + if v.fid == f then [v.verb] else []
  {
    assert (sent + [v])[..|sent|] == sent;
  }

  lemma CopiesMore(vs: seq<Verb>, verb: Verb)
    requires OnlyCopies(vs)
    ensures if verb == CopyDeliver then OnlyCopies(vs + [verb]) else Finished(vs + [verb])
  {
    assert (vs + [verb])[..|vs|] == vs;
  }

  lemma {:induction false} CopiesHaveNoFinal(vs: seq<Verb>)
    requires OnlyCopies(vs)
    ensures Finals(vs) == 0
    decreases |vs|
  {
    if vs != [] { CopiesHaveNoFinal(vs[..|vs| - 1]); }
  }

  lemma FinishedHasOneFinal(vs: seq<Verb>)
    requires Finished(vs)
    ensures Finals(vs) == 1
  {
    CopiesHaveNoFinal(vs[..|vs| - 1]);
  }

  lemma FinalsMore(vs: seq<Verb>, verb: Verb)
    ensures Finals(vs + [verb]) == Finals(vs) + if verb == CopyDeliver then 0 else 1
  {
    assert (vs + [verb])[..|vs|] == vs;
  }

  lemma WithoutOne<T>(s: seq<T>, i: nat)
    requires i < |s|
    ensures multiset(Without(s, i)) == multiset(s) - multiset{s[i]} && s[i] in multiset(s)
  {
    assert s == s[..i] + [s[i]] + s[i + 1..];
  }

  /** Frames an operation does not mention keep their entry. */
  lemma OthersKeep(g: Game, h: Game, seen: set<Fid>, more: set<Fid>, f: Fid)
    requires forall k :: k != f ==>
               && (k in Waiting(h.queue) <==> k in Waiting(g.queue))
               && multiset(h.pigeons)[k] == multiset(g.pigeons)[k]
               && RefOf(h, k) == RefOf(g, k) && (k in h.frameRefs <==> k in g.frameRefs)
               && (k in more <==> k in seen)
    requires h.sent == g.sent || exists v: Verdict :: v.fid == f && h.sent == g.sent + [v]
    requires Distinct(h.queue) && Ledger(g, seen) && FrameOkIn(h, more, f)
    ensures Ledger(h, more)
  {
    hide FrameOk, Waiting, RefOf, VerbsOf, Distinct;
    forall k | k != f
      ensures FrameOkIn(h, more, k)
    {
      assert FrameOkIn(g, seen, k);
      if h.sent != g.sent {
        var v: Verdict :| v.fid == f && h.sent == g.sent + [v];
        VerbsMore(g.sent, v, k);
        assert VerbsOf(g.sent, k) + [] == VerbsOf(g.sent, k);
      }
    }
  }
}
