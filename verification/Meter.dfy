/** The token bucket: over exact reals it passes a frame precisely when no window
  * ending now would carry more than a full bucket plus the rate. */
module Meter {
  import opened Basics

  type Ms = real

  datatype Mode = Pps | Bps

  /** One frame offered to the meter. */
  datatype Offer = Offer(cost: real, now: Ms)

  datatype Bucket = Bucket(tokens: real, lastRefill: Ms)

  /** What the rate yields in `d` milliseconds. */
  function Yield(limit: real, d: Ms): real { d / 1000.0 * limit }

  function RMin(a: real, b: real): real { if a <= b then a else b }

  function RMax(a: real, b: real): real { if a >= b then a else b }

  /** A last refill at time zero means there has been none. */
  function Refill(limit: real, b: Bucket, now: Ms): real {
    var last := if b.lastRefill == 0.0 then now else b.lastRefill;
    RMin(limit, b.tokens + Yield(limit, RMax(0.0, now - last)))
  }

  function Passes(limit: real, b: Bucket, x: Offer): bool { Refill(limit, b, x.now) >= x.cost }

  function Spend(limit: real, b: Bucket, x: Offer): Bucket {
    var level := Refill(limit, b, x.now);
    Bucket(if level >= x.cost then level - x.cost else level, x.now)
  }

  function After(limit: real, trace: seq<Offer>): Bucket {
    if trace == [] then Bucket(limit, 0.0)
    else Spend(limit, After(limit, trace[..|trace| - 1]), trace[|trace| - 1])
  }

  /** The bucket's level for a frame offered at `now` after `trace`. */
  function Level(limit: real, trace: seq<Offer>, now: Ms): real { Refill(limit, After(limit, trace), now) }

  /** What the last frame of a non-empty trace actually cost the bucket. */
  function Paid(limit: real, trace: seq<Offer>): real
    requires trace != []
  {
    var x := trace[|trace| - 1];
    if Passes(limit, After(limit, trace[..|trace| - 1]), x) then x.cost else 0.0
  }

  /** Cost passed by frames `i` and later. */
  function PassedSince(limit: real, trace: seq<Offer>, i: nat): real
    decreases |trace|
  {
    if i >= |trace| then 0.0
    else PassedSince(limit, trace[..|trace| - 1], i) + Paid(limit, trace)
  }

  /** What the window opened by frame `i` still allows at `now`; the window that
    * opens now allows a full bucket. */
  function Allowance(limit: real, trace: seq<Offer>, i: nat, now: Ms): real
    requires i <= |trace|
  {
    if i == |trace| then limit else limit + PerSecond(limit, now - trace[i].now) - PassedSince(limit, trace, i)
  }

  /** What `d` milliseconds are worth at `limit` a second. */
  function PerSecond(limit: real, d: Ms): real { limit * d / 1000.0 }

  predicate ClockRuns(trace: seq<Offer>) {
    && (forall i :: 0 <= i < |trace| ==> trace[i].now > 0.0)
    && (forall i, j :: 0 <= i < j < |trace| ==> trace[i].now <= trace[j].now)
  }

  predicate Chargeable(limit: real, trace: seq<Offer>) {
    limit >= 0.0 && forall i :: 0 <= i < |trace| ==> trace[i].cost >= 0.0
  }

  lemma AfterMore(limit: real, trace: seq<Offer>, x: Offer)
    ensures After(limit, trace + [x]) == Spend(limit, After(limit, trace), x)
  {
    assert (trace + [x])[..|trace|] == trace;
  }

  /** The rate is per second and the clock reads milliseconds. */
  lemma YieldIs(limit: real, d: Ms)
    ensures Yield(limit, d) == PerSecond(limit, d)
  {
  }

  lemma YieldOver(limit: real, last: Ms, now: Ms)
    ensures Yield(limit, RMax(0.0, now - last)) == (if now > last then (now - last) / 1000.0 else 0.0) * limit
  {
  }

  lemma YieldAdds(limit: real, a: Ms, b: Ms)
    ensures Yield(limit, a + b) == Yield(limit, a) + Yield(limit, b)
    ensures Yield(limit, 0.0) == 0.0
  {
  }

  lemma YieldPositive(limit: real, d: Ms)
    requires limit >= 0.0 && d >= 0.0
    ensures Yield(limit, d) >= 0.0
  {
  }

  lemma AllowanceIs(limit: real, trace: seq<Offer>, i: nat, now: Ms)
    requires i < |trace|
    ensures Allowance(limit, trace, i, now) == limit + Yield(limit, now - trace[i].now) - PassedSince(limit, trace, i)
  {
    hide Yield, PerSecond;
    YieldIs(limit, now - trace[i].now);
  }

  lemma AllowanceLater(limit: real, trace: seq<Offer>, i: nat, now: Ms)
    requires trace != [] && i < |trace|
    ensures var before, x := trace[..|trace| - 1], trace[|trace| - 1];
            Allowance(limit, trace, i, now) == Allowance(limit, before, i, x.now) - Paid(limit, trace) + Yield(limit, now - x.now)
  {
    hide Yield, PerSecond, Paid;
    var before, x := trace[..|trace| - 1], trace[|trace| - 1];
    AllowanceIs(limit, trace, i, now);
    YieldAdds(limit, now - x.now, x.now - trace[i].now);
    if i < |before| { AllowanceIs(limit, before, i, x.now); }
    if i == |trace| - 1 { assert PassedSince(limit, before, i) == 0.0; }
  }

  lemma LevelLater(limit: real, trace: seq<Offer>, now: Ms)
    requires trace != [] && ClockRuns(trace) && trace[|trace| - 1].now <= now
    ensures var before, x := trace[..|trace| - 1], trace[|trace| - 1];
            Level(limit, trace, now) == RMin(limit, Level(limit, before, x.now) - Paid(limit, trace) + Yield(limit, now - x.now))
  {
    hide Yield;
  }

  /** The bucket's level is the least any window ending now still allows. */
  lemma {:induction false} LevelIsTheLeastAllowance(limit: real, trace: seq<Offer>, now: Ms) returns (w: nat)
    requires ClockRuns(trace) && (trace != [] ==> trace[|trace| - 1].now <= now)
    ensures w <= |trace| && Level(limit, trace, now) == Allowance(limit, trace, w, now)
    ensures forall i: nat :: i <= |trace| ==> Level(limit, trace, now) <= Allowance(limit, trace, i, now)
    decreases |trace|
  {
    hide Yield, Paid, Level, Allowance;
    if trace == [] {
      w := 0;
      FullAtFirst(limit, now);
    } else {
      var before, x := trace[..|trace| - 1], trace[|trace| - 1];
      var v := LevelIsTheLeastAllowance(limit, before, x.now);
      LevelLater(limit, trace, now);
      AllowanceLater(limit, trace, v, now);
      AllowanceNow(limit, trace, now);
      forall i: nat | i <= |trace|
        ensures Level(limit, trace, now) <= Allowance(limit, trace, i, now)
      {
        if i < |trace| { AllowanceLater(limit, trace, i, now); }
      }
      w := if Level(limit, before, x.now) - Paid(limit, trace) + Yield(limit, now - x.now) < limit then v else |trace|;
    }
  }

  lemma FullAtFirst(limit: real, now: Ms)
    ensures Level(limit, [], now) == limit == Allowance(limit, [], 0, now)
  {
    YieldAdds(limit, 0.0, 0.0);
  }

  lemma AllowanceNow(limit: real, trace: seq<Offer>, now: Ms)
    ensures Allowance(limit, trace, |trace|, now) == limit
  {
  }

  /** A frame is diverted exactly when passing it would break the bound for some
    * window ending now. */
  lemma DivertedOnlyIfItMust(limit: real, trace: seq<Offer>, x: Offer)
    requires ClockRuns(trace + [x])
    ensures !Passes(limit, After(limit, trace), x)
       <==> exists i: nat :: i <= |trace| && x.cost > Allowance(limit, trace, i, x.now)
  {
    hide Allowance, After;
    PrefixRuns(trace, x);
    var w := LevelIsTheLeastAllowance(limit, trace, x.now);
    assert Level(limit, trace, x.now) == Refill(limit, After(limit, trace), x.now);
  }

  lemma PrefixRuns(trace: seq<Offer>, x: Offer)
    requires ClockRuns(trace + [x])
    ensures ClockRuns(trace) && (trace != [] ==> trace[|trace| - 1].now <= x.now)
  {
    var t := trace + [x];
    assert forall i :: 0 <= i < |trace| ==> t[i] == trace[i];
    assert t[|trace|] == x;
    forall i, j | 0 <= i < j < |trace|
      ensures trace[i].now <= trace[j].now
    {
      assert t[i].now <= t[j].now;
    }
    forall i | 0 <= i < |trace|
      ensures trace[i].now > 0.0
    {
      assert t[i].now > 0.0;
    }
    if trace != [] { assert t[|trace| - 1].now <= t[|trace|].now; }
  }

  lemma {:induction false} NeverInDebt(limit: real, trace: seq<Offer>, now: Ms)
    requires Chargeable(limit, trace)
    ensures Level(limit, trace, now) >= 0.0 && After(limit, trace).tokens >= 0.0
    decreases |trace|
  {
    hide Yield;
    if trace != [] { NeverInDebt(limit, trace[..|trace| - 1], trace[|trace| - 1].now); }
    var b := After(limit, trace);
    var last := if b.lastRefill == 0.0 then now else b.lastRefill;
    YieldPositive(limit, RMax(0.0, now - last));
  }

  /** Over any stretch of frames, from the `i`-th to the last, the passed cost is at
    * most one full bucket plus the rate over the time it took. */
  lemma NeverMoreThanTheBound(limit: real, trace: seq<Offer>, i: nat)
    requires ClockRuns(trace) && Chargeable(limit, trace) && i < |trace|
    ensures PassedSince(limit, trace, i) <= limit + limit * (trace[|trace| - 1].now - trace[i].now) / 1000.0
  {
    PassedWithin(limit, trace, i);
  }

  lemma PassedWithin(limit: real, trace: seq<Offer>, i: nat)
    requires ClockRuns(trace) && Chargeable(limit, trace) && i < |trace|
    ensures PassedSince(limit, trace, i) <= limit + PerSecond(limit, trace[|trace| - 1].now - trace[i].now)
  {
    hide Yield, PerSecond, Level, After, Allowance;
    var before, x := trace[..|trace| - 1], trace[|trace| - 1];
    YieldIs(limit, x.now - trace[i].now);
    if i < |before| { AllowanceIs(limit, before, i, x.now); } else { AllowanceNow(limit, before, x.now); }
    var w := LevelIsTheLeastAllowance(limit, before, x.now);
    NeverInDebt(limit, before, x.now);
    PaidAtMostTheLevel(limit, trace);
    assert Level(limit, before, x.now) <= Allowance(limit, before, i, x.now);
    YieldAdds(limit, 0.0, 0.0);
    assert i == |trace| - 1 ==> PassedSince(limit, before, i) == 0.0;
  }

  lemma PaidAtMostTheLevel(limit: real, trace: seq<Offer>)
    requires trace != [] && Chargeable(limit, trace)
    ensures Paid(limit, trace) <= Level(limit, trace[..|trace| - 1], trace[|trace| - 1].now)
  {
    NeverInDebt(limit, trace[..|trace| - 1], trace[|trace| - 1].now);
  }

  // ---- a clock that starts at zero -----------------------------------------------------------

  predicate ClockFromZero(trace: seq<Offer>) {
    && (forall i :: 0 <= i < |trace| ==> trace[i].now >= 0.0)
    && (forall i, j :: 0 <= i < j < |trace| ==> trace[i].now <= trace[j].now)
  }

  predicate FirstAboveZero(trace: seq<Offer>, i: nat)
    requires i < |trace|
  {
    trace[i].now > 0.0 && (i == 0 || trace[i - 1].now == 0.0)
  }

  /** The first reading above zero, if there is one, is `t`. */
  predicate LeavesZeroAt(trace: seq<Offer>, t: Ms) {
    t > 0.0 && forall i :: 0 <= i < |trace| && FirstAboveZero(trace, i) ==> trace[i].now == t
  }

  function Retime(x: Offer, t: Ms): Offer { if x.now == 0.0 then Offer(x.cost, t) else x }

  /** What was offered at clock zero is put off to `t`. */
  function Retimed(trace: seq<Offer>, t: Ms): seq<Offer> { seq(|trace|, i requires 0 <= i < |trace| => Retime(trace[i], t)) }

  lemma {:induction false} ZeroOrLater(trace: seq<Offer>, t: Ms, i: nat)
    requires ClockFromZero(trace) && LeavesZeroAt(trace, t) && i < |trace|
    ensures trace[i].now == 0.0 || t <= trace[i].now
    decreases i
  {
    if i > 0 {
      ZeroOrLater(trace, t, i - 1);
      assert trace[i - 1].now <= trace[i].now;
    }
    assert FirstAboveZero(trace, i) ==> trace[i].now == t;
  }

  lemma RetimedRuns(trace: seq<Offer>, t: Ms)
    requires ClockFromZero(trace) && LeavesZeroAt(trace, t)
    ensures ClockRuns(Retimed(trace, t))
  {
    forall i | 0 <= i < |trace|
      ensures trace[i].now == 0.0 || t <= trace[i].now
    {
      ZeroOrLater(trace, t, i);
    }
  }

  lemma ShorterFromZero(trace: seq<Offer>, t: Ms)
    requires trace != [] && ClockFromZero(trace) && LeavesZeroAt(trace, t)
    ensures ClockFromZero(trace[..|trace| - 1]) && LeavesZeroAt(trace[..|trace| - 1], t)
    ensures Retimed(trace, t) == Retimed(trace[..|trace| - 1], t) + [Retime(trace[|trace| - 1], t)]
  {
    var before := trace[..|trace| - 1];
    forall i | 0 <= i < |before| && FirstAboveZero(before, i)
      ensures before[i].now == t
    {
      assert FirstAboveZero(trace, i);
    }
  }

  /** The same tokens, and marks that differ only while none has been left. */
  ghost predicate PutOff(b: Bucket, c: Bucket, limit: real, last: Ms, t: Ms) {
    && b.tokens == c.tokens <= limit && b.lastRefill == last
    && if last == 0.0 then c.lastRefill == 0.0 || c.lastRefill == t else c.lastRefill == last >= t
  }

  lemma PutOffRefill(limit: real, b: Bucket, c: Bucket, last: Ms, x: Offer, t: Ms)
    requires PutOff(b, c, limit, last, t) && t > 0.0 && (if last == 0.0 then x.now == 0.0 || x.now == t else x.now >= last)
    ensures Refill(limit, b, x.now) == Refill(limit, c, Retime(x, t).now) <= limit
    ensures x.cost >= 0.0 ==> PutOff(Spend(limit, b, x), Spend(limit, c, Retime(x, t)), limit, x.now, t)
  {
    hide Yield;
    YieldAdds(limit, 0.0, 0.0);
  }

  function LastReading(trace: seq<Offer>): Ms { if trace == [] then 0.0 else trace[|trace| - 1].now }

  /** What follows a reading is later, or the first above zero. */
  lemma NextReading(trace: seq<Offer>, x: Offer, t: Ms)
    requires ClockFromZero(trace + [x]) && LeavesZeroAt(trace + [x], t)
    ensures if LastReading(trace) == 0.0 then x.now == 0.0 || x.now == t else x.now >= LastReading(trace)
  {
    var all := trace + [x];
    assert all[|trace|] == x && x.now >= 0.0;
    if trace != [] {
      assert all[|trace| - 1] == trace[|trace| - 1] && all[|trace| - 1].now <= all[|trace|].now;
    }
    assert FirstAboveZero(all, |trace|) ==> all[|trace|].now == t;
  }

  lemma {:induction false} PutOffAfter(limit: real, trace: seq<Offer>, t: Ms)
    requires ClockFromZero(trace) && LeavesZeroAt(trace, t) && Chargeable(limit, trace)
    ensures PutOff(After(limit, trace), After(limit, Retimed(trace, t)), limit, LastReading(trace), t)
    decreases |trace|
  {
    hide PutOff, Spend, ClockFromZero, LeavesZeroAt, Retime, Retimed;
    if trace == [] {
      assert PutOff(After(limit, []), After(limit, Retimed([], t)), limit, 0.0, t) by { PutOffAtFirst(limit, t); }
    } else {
      var before, x := trace[..|trace| - 1], trace[|trace| - 1];
      ShorterFromZero(trace, t);
      assert trace == before + [x];
      PutOffAfter(limit, before, t);
      NextReading(before, x, t);
      assert t > 0.0 by { AboveZero(trace, t); }
      PutOffRefill(limit, After(limit, before), After(limit, Retimed(before, t)), LastReading(before), x, t);
      AfterMore(limit, Retimed(before, t), Retime(x, t));
    }
  }

  lemma AboveZero(trace: seq<Offer>, t: Ms)
    requires LeavesZeroAt(trace, t)
    ensures t > 0.0
  {
  }

  lemma PutOffAtFirst(limit: real, t: Ms)
    ensures PutOff(After(limit, []), After(limit, Retimed([], t)), limit, 0.0, t)
  {
    assert Retimed([], t) == [];
  }

  /** A frame at clock zero leaves no mark, so it counts as offered when the clock
    * first reads more: on a clock from zero a frame is diverted exactly when, with
    * those frames put off, passing it would break the bound for some window. */
  lemma DivertedFromZeroIff(limit: real, trace: seq<Offer>, x: Offer, t: Ms)
    requires ClockFromZero(trace + [x]) && LeavesZeroAt(trace + [x], t) && Chargeable(limit, trace)
    ensures !Passes(limit, After(limit, trace), x)
       <==> exists i: nat :: i <= |trace| && x.cost > Allowance(limit, Retimed(trace, t), i, Retime(x, t).now)
  {
    hide PutOff, Allowance, ClockFromZero, LeavesZeroAt, Retime, Retimed, ClockRuns, After;
    var all := trace + [x];
    assert all[..|all| - 1] == trace && all[|all| - 1] == x;
    ShorterFromZero(all, t);
    PutOffAfter(limit, trace, t);
    NextReading(trace, x, t);
    AboveZero(all, t);
    PutOffRefill(limit, After(limit, trace), After(limit, Retimed(trace, t)), LastReading(trace), x, t);
    RetimedRuns(all, t);
    SameCost(x, trace, t);
    DivertedOnlyIfItMust(limit, Retimed(trace, t), Retime(x, t));
  }

  lemma SameCost(x: Offer, trace: seq<Offer>, t: Ms)
    ensures Retime(x, t).cost == x.cost && |Retimed(trace, t)| == |trace|
  {
  }

  // ---- when the mark does no harm ---------------------------------------------------------------

  /** A bucket without the mark: it has been filling since time zero. */
  function SteadyRefill(limit: real, b: Bucket, now: Ms): real { RMin(limit, b.tokens + Yield(limit, RMax(0.0, now - b.lastRefill))) }

  function Steady(limit: real, trace: seq<Offer>): Bucket {
    if trace == [] then Bucket(limit, 0.0) else
    var x := trace[|trace| - 1];
    var level := SteadyRefill(limit, Steady(limit, trace[..|trace| - 1]), x.now);
    Bucket(if level >= x.cost then level - x.cost else level, x.now)
  }

  /** Every frame finds the bucket at the level it would have without the mark. */
  ghost predicate SameLevels(limit: real, trace: seq<Offer>) {
    forall k :: 0 <= k < |trace| ==> Refill(limit, After(limit, trace[..k]), trace[k].now) == SteadyRefill(limit, Steady(limit, trace[..k]), trace[k].now)
  }

  /** No rate, or no frame above clock zero, or none at clock zero that could be
    * charged for. */
  predicate NothingToLose(limit: real, trace: seq<Offer>) {
    || limit == 0.0
    || (forall i :: 0 <= i < |trace| ==> trace[i].now == 0.0)
    || (forall i :: 0 <= i < |trace| && trace[i].now == 0.0 ==> trace[i].cost == 0.0 || trace[i].cost > limit)
  }

  /** The state the two runs share while nothing is lost. */
  ghost predicate InStep(limit: real, trace: seq<Offer>, b: Bucket, last: Ms) {
    b.lastRefill == last && 0.0 <= b.tokens <= limit
    && (last == 0.0 ==> b.tokens == limit || limit == 0.0 || forall i :: 0 <= i < |trace| ==> trace[i].now == 0.0)
  }

  lemma InStepRefill(limit: real, trace: seq<Offer>, b: Bucket, last: Ms, x: Offer)
    requires InStep(limit, trace, b, last) && 0.0 <= last <= x.now && x in trace && x.cost >= 0.0 && NothingToLose(limit, trace)
    ensures Refill(limit, b, x.now) == SteadyRefill(limit, b, x.now)
    ensures InStep(limit, trace, Spend(limit, b, x), x.now)
  {
    hide Yield;
    YieldAdds(limit, 0.0, 0.0);
    YieldPositive(limit, x.now - last);
  }

  lemma {:induction false} InStepAlong(limit: real, trace: seq<Offer>, k: nat)
    requires ClockFromZero(trace) && Chargeable(limit, trace) && NothingToLose(limit, trace) && k <= |trace|
    ensures After(limit, trace[..k]) == Steady(limit, trace[..k])
    ensures InStep(limit, trace, After(limit, trace[..k]), LastReading(trace[..k]))
    decreases k
  {
    hide InStep, NothingToLose, Refill, SteadyRefill;
    if k == 0 {
      assert InStep(limit, trace, Bucket(limit, 0.0), 0.0) by { InStepAtFirst(limit, trace); }
    } else {
      InStepAlong(limit, trace, k - 1);
      assert trace[..k][..k - 1] == trace[..k - 1];
      InStepRefill(limit, trace, After(limit, trace[..k - 1]), LastReading(trace[..k - 1]), trace[k - 1]);
    }
  }

  lemma InStepAtFirst(limit: real, trace: seq<Offer>)
    requires limit >= 0.0
    ensures InStep(limit, trace, Bucket(limit, 0.0), 0.0)
  {
  }

  /** While the clock stands at zero nothing accrues, and what is spent stays spent. */
  lemma {:induction false} SpentAtZero(limit: real, trace: seq<Offer>, k: nat, i: nat)
    requires Chargeable(limit, trace) && k <= |trace| && i < |trace| && 0.0 < trace[i].cost <= limit
    requires forall j :: 0 <= j < k ==> trace[j].now == 0.0
    ensures After(limit, trace[..k]) == Steady(limit, trace[..k]) && After(limit, trace[..k]).lastRefill == 0.0
    ensures After(limit, trace[..k]).tokens <= limit && (i < k ==> After(limit, trace[..k]).tokens < limit)
    decreases k
  {
    hide Yield;
    if k > 0 {
      SpentAtZero(limit, trace, k - 1, i);
      assert trace[..k][..k - 1] == trace[..k - 1];
      YieldAdds(limit, 0.0, 0.0);
    }
  }

  lemma {:induction false} FirstAboveZeroAt(trace: seq<Offer>, i: nat) returns (j: nat)
    requires ClockFromZero(trace) && i < |trace| && trace[i].now > 0.0
    ensures j <= i && trace[j].now > 0.0 && forall k :: 0 <= k < j ==> trace[k].now == 0.0
    decreases i
  {
    if i == 0 || trace[i - 1].now == 0.0 {
      j := i;
      forall k | 0 <= k < j
        ensures trace[k].now == 0.0
      {
        assert k < i - 1 ==> trace[k].now <= trace[i - 1].now;
      }
    } else {
      j := FirstAboveZeroAt(trace, i - 1);
    }
  }

  lemma LevelLost(limit: real, trace: seq<Offer>, i: nat, later: nat)
    requires ClockFromZero(trace) && Chargeable(limit, trace) && limit > 0.0
    requires i < |trace| && trace[i].now == 0.0 && 0.0 < trace[i].cost <= limit && later < |trace| && trace[later].now > 0.0
    ensures !SameLevels(limit, trace)
  {
    hide Yield, After, Steady;
    var j := FirstAboveZeroAt(trace, later);
    assert i < j;
    SpentAtZero(limit, trace, j, i);
    YieldStrict(limit, trace[j].now);
    YieldAdds(limit, 0.0, 0.0);
    var b := After(limit, trace[..j]);
    assert Refill(limit, b, trace[j].now) < SteadyRefill(limit, b, trace[j].now);
  }

  /** The mark costs nothing on a whole trace, and every frame finds the level it
    * would have found, exactly when there was nothing to lose. */
  lemma SentinelHarmlessIff(limit: real, trace: seq<Offer>)
    requires ClockFromZero(trace) && Chargeable(limit, trace)
    ensures SameLevels(limit, trace) <==> NothingToLose(limit, trace)
  {
    hide Refill, SteadyRefill, After, Steady, InStep;
    if NothingToLose(limit, trace) {
      forall k | 0 <= k < |trace|
        ensures Refill(limit, After(limit, trace[..k]), trace[k].now) == SteadyRefill(limit, Steady(limit, trace[..k]), trace[k].now)
      {
        InStepAlong(limit, trace, k);
        InStepRefill(limit, trace, After(limit, trace[..k]), LastReading(trace[..k]), trace[k]);
      }
    } else {
      var i :| 0 <= i < |trace| && trace[i].now == 0.0 && !(trace[i].cost == 0.0 || trace[i].cost > limit);
      var j :| 0 <= j < |trace| && trace[j].now != 0.0;
      LevelLost(limit, trace, i, j);
    }
  }

  lemma YieldStrict(limit: real, d: Ms)
    requires limit > 0.0 && d > 0.0
    ensures Yield(limit, d) > 0.0
  {
  }

  /** One token a second, one frame at clock zero and one a second later: the
    * second is diverted though no window is full. */
  lemma SentinelDiverts()
    ensures var trace := [Offer(1.0, 0.0)];
            && !Passes(1.0, After(1.0, trace), Offer(1.0, 1000.0))
            && forall i: nat :: i <= 1 ==> Allowance(1.0, trace, i, 1000.0) >= 1.0
  {
    var x := Offer(1.0, 0.0);
    assert [x][..0] == [];
    assert After(1.0, []) == Bucket(1.0, 0.0);
    assert After(1.0, [x]) == Spend(1.0, After(1.0, []), x) == Bucket(0.0, 0.0);
    assert PassedSince(1.0, [x], 0) == PassedSince(1.0, [], 0) + Paid(1.0, [x]);
  }

  /** The meter object. */
  class MeterState {
    const mode: Mode
    const limit: real
    var tokens: real
    var lastRefill: Ms
    var total: nat
    var passed: nat
    var diverted: nat
    var rate: real
    var rateBucketStart: Ms
    var rateBucketUnits: real
    ghost var trace: seq<Offer>

    ghost predicate Valid()
      reads this
    {
      Bucket(tokens, lastRefill) == After(limit, trace) && total == passed + diverted == |trace|
    }

    constructor (limit: real, mode: Mode)
      ensures Valid() && trace == [] && this.limit == limit && this.mode == mode
    {
      this.limit, this.mode, tokens, lastRefill := limit, mode, limit, 0.0;
      total, passed, diverted := 0, 0, 0;
      rate, rateBucketStart, rateBucketUnits := 0.0, 0.0, 0.0;
      trace := [];
    }

    method Step(frameLen: nat, now: Ms) returns (pass: bool)
      requires Valid()
      modifies this
      ensures Valid() && trace == old(trace) + [Offer(if mode == Pps then 1.0 else frameLen as real, now)]
      ensures pass == Passes(limit, After(limit, old(trace)), trace[|trace| - 1])
      ensures ClockRuns(trace) ==> (pass <==> forall i: nat :: i <= |old(trace)| ==> trace[|trace| - 1].cost <= Allowance(limit, old(trace), i, now))
      ensures passed == old(passed) + if pass then 1 else 0
      ensures diverted == old(diverted) + if pass then 0 else 1
    {
      hide Yield, After, Allowance, ClockRuns;
      var cost := if mode == Pps then 1.0 else frameLen as real;
      if ClockRuns(trace + [Offer(cost, now)]) { DivertedOnlyIfItMust(limit, trace, Offer(cost, now)); }
      AfterMore(limit, trace, Offer(cost, now));
      trace := trace + [Offer(cost, now)];
      if lastRefill == 0.0 { lastRefill := now; }
      var elapsed := if now > lastRefill then (now - lastRefill) / 1000.0 else 0.0;
      var full := tokens + elapsed * limit;
      assert full == tokens + Yield(limit, RMax(0.0, now - lastRefill)) by { YieldOver(limit, lastRefill, now); }
      tokens := if limit < full then limit else full;
      lastRefill := now;
      total := total + 1;
      pass := false;
      if tokens >= cost {
        tokens := tokens - cost;
        passed := passed + 1;
        pass := true;
        RollRate(now, cost);
      } else {
        diverted := diverted + 1;
      }
    }

    /** The readout: units passed in the last full second. */
    method RollRate(now: Ms, units: real)
      modifies `rate, `rateBucketStart, `rateBucketUnits
      ensures var start := if old(rateBucketStart) == 0.0 then now else old(rateBucketStart);
              if now - start >= 1000.0 then rate == old(rateBucketUnits) && rateBucketStart == now && rateBucketUnits == units
              else rate == old(rate) && rateBucketStart == start && rateBucketUnits == old(rateBucketUnits) + units
    {
      if rateBucketStart == 0.0 { rateBucketStart := now; }
      if now - rateBucketStart >= 1000.0 {
        rate := rateBucketUnits;
        rateBucketStart := now;
        rateBucketUnits := 0.0;
      }
      rateBucketUnits := rateBucketUnits + units;
    }
  }
}
