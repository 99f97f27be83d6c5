/** The rule that no frame ends silently, over whole runs: exactly when it holds. */
module ClusterFates {
  import opened Basics
  import opened LoftCore
  import opened LoftConservation
  import opened Cluster
  import opened ClusterSafety
  import opened ClusterRuns
  import opened ClusterEnds

  // ---- what becomes of a payload ---------------------------------------------------------------

  /** At some point of the run the payload was out under verdict `v`. */
  ghost predicate WasTaken(run: seq<Cluster>, v: Vid) { exists i :: 0 <= i < |run| && TakenOut(run[i], v) }

  /** A trunk drop was counted for it. */
  ghost predicate Failed(run: seq<Cluster>, events: seq<Event>, v: Vid)
    requires |run| == |events| + 1
  {
    exists i :: 0 <= i < |events| && Fails(run[i], events[i], v)
  }

  /** It reached a port that is not registered, or was lost between two lofts. */
  ghost predicate Vanished(run: seq<Cluster>, events: seq<Event>, v: Vid)
    requires |run| == |events| + 1
  {
    exists i :: 0 <= i < |events| && Vanishes(run[i], events[i], v)
  }

  lemma RunLength(run: seq<Cluster>, events: seq<Event>)
    requires IsRun(run, events)
    ensures |run| == |events| + 1
  {
  }

  lemma RunStep(run: seq<Cluster>, events: seq<Event>, i: nat)
    requires IsRun(run, events) && i < |events|
    ensures Inv(run[i]) && WellFormed(run[i]) && IdsLeft(run[i]) && run[i + 1] == Step(run[i], events[i])
  {
    hide Inv, WellFormed, IdsLeft, Step;
    RunInv(run, events, i);
    assert Moves(run[i], events[i], run[i + 1]);
  }

  lemma {:induction false} GoneForGood(run: seq<Cluster>, events: seq<Event>, i: nat, j: nat, v: Vid)
    requires IsRun(run, events) && i <= j < |run| && Gone(run[i], v)
    ensures Gone(run[j], v)
    decreases j
  {
    hide IsRun, Inv, WellFormed, IdsLeft, Step, Gone;
    RunLength(run, events);
    if i < j {
      GoneForGood(run, events, i, j - 1, v);
      RunStep(run, events, j - 1);
      GoneStays(run[j - 1], events[j - 1], v);
    }
  }

  lemma GoneIsOut(s: Cluster, v: Vid)
    requires Gone(s, v)
    ensures !TakenOut(s, v)
  {
  }

  lemma EndingIsOut(s: Cluster, e: Event, v: Vid)
    requires Fails(s, e, v) || Vanishes(s, e, v)
    ensures TakenOut(s, v) && !(Fails(s, e, v) && Vanishes(s, e, v))
  {
  }

  lemma EndsOnce(run: seq<Cluster>, events: seq<Event>, i: nat, v: Vid)
    requires IsRun(run, events) && i < |events| && (Fails(run[i], events[i], v) || Vanishes(run[i], events[i], v))
    ensures forall j :: i < j < |run| ==> !TakenOut(run[j], v)
  {
    hide IsRun, Inv, WellFormed, IdsLeft, Step, Gone, Fails, Vanishes, TakenOut;
    RunLength(run, events);
    RunStep(run, events, i);
    EndingIsOut(run[i], events[i], v);
    TakenStep(run[i], events[i], v);
    forall j | i < j < |run|
      ensures !TakenOut(run[j], v)
    {
      GoneForGood(run, events, i + 1, j, v);
      GoneIsOut(run[j], v);
    }
  }

  lemma {:induction false} StillOutOrEnded(run: seq<Cluster>, events: seq<Event>, i: nat, j: nat, v: Vid)
    requires IsRun(run, events) && i <= j < |run| && TakenOut(run[i], v)
    ensures TakenOut(run[j], v) || exists k :: 0 <= k < |events| && (Fails(run[k], events[k], v) || Vanishes(run[k], events[k], v))
    decreases j
  {
    hide IsRun, Inv, WellFormed, IdsLeft, Step, Fails, Vanishes, TakenOut;
    RunLength(run, events);
    if i < j {
      StillOutOrEnded(run, events, i, j - 1, v);
      if TakenOut(run[j - 1], v) {
        RunStep(run, events, j - 1);
        TakenStep(run[j - 1], events[j - 1], v);
      }
    }
  }

  /** Every payload ever taken out is, at the end of the run, exactly one of these: written
    * to a port, still on its way, counted as a trunk drop, or vanished. */
  lemma PayloadsEndOneWay(run: seq<Cluster>, events: seq<Event>, v: Vid)
    requires IsRun(run, events) && WasTaken(run, v)
    ensures var s := run[|events|];
            && (Written(s, v) || OnItsWay(s, v) || Failed(run, events, v) || Vanished(run, events, v))
            && !(Written(s, v) && OnItsWay(s, v))
            && !(TakenOut(s, v) && (Failed(run, events, v) || Vanished(run, events, v)))
            && !(Failed(run, events, v) && Vanished(run, events, v))
  {
    hide IsRun, Inv, WellFormed, Step, Fails, Vanishes, Written, OnItsWay;
    RunLength(run, events);
    var s := run[|events|];
    var i :| 0 <= i < |run| && TakenOut(run[i], v);
    StillOutOrEnded(run, events, i, |events|, v);
    NotBothPlaces(run, events, v);
    forall k | 0 <= k < |events| && (Fails(run[k], events[k], v) || Vanishes(run[k], events[k], v))
      ensures !TakenOut(s, v) && forall j :: 0 <= j < |events| && j != k ==> !Fails(run[j], events[j], v) && !Vanishes(run[j], events[j], v)
      ensures !(Fails(run[k], events[k], v) && Vanishes(run[k], events[k], v))
    {
      EndsOnce(run, events, k, v);
      EndingIsOut(run[k], events[k], v);
      forall j | 0 <= j < |events| && j != k
        ensures !Fails(run[j], events[j], v) && !Vanishes(run[j], events[j], v)
      {
        if Fails(run[j], events[j], v) || Vanishes(run[j], events[j], v) {
          EndsOnce(run, events, j, v);
          EndingIsOut(run[j], events[j], v);
        }
      }
    }
  }

  lemma NotBothPlaces(run: seq<Cluster>, events: seq<Event>, v: Vid)
    requires IsRun(run, events)
    ensures var s := run[|events|]; !(Written(s, v) && OnItsWay(s, v))
  {
    hide Moves, Inv;
    RunInv(run, events, |events|);
    LinearHolds(run[|events|]);
    if Written(run[|events|], v) { WrittenNotSent(run[|events|], v); }
  }

  // ---- what becomes of a frame ---------------------------------------------------------------------

  lemma AboutStays(run: seq<Cluster>, events: seq<Event>, i: nat, j: nat, v: Vid, o: Origin)
    requires IsRun(run, events) && i <= j < |run| && About(run[i], v, o)
    ensures About(run[j], v, o)
  {
    hide Moves, Step, LoftsGrow;
    RunGrows(run, events, i, j);
  }

  lemma FateStays(run: seq<Cluster>, events: seq<Event>, i: nat, j: nat, o: Origin)
    requires IsRun(run, events) && i <= j < |run| && HasEnded(run[i], o)
    ensures HasEnded(run[j], o) && FateOf(run[j], o) == FateOf(run[i], o)
  {
    hide Moves, Step;
    RunGrows(run, events, i, j);
    assert Grows(run[i].lofts[o.node], run[j].lofts[o.node]);
  }

  /** The step in which the frame left its buffer. */
  ghost predicate Leaves(s: Cluster, t: Cluster, o: Origin) { Buffered(s, o) && HasEnded(t, o) }

  /** A frame that has ended left its buffer at some step, and has had that fate since. */
  lemma {:induction false} LeftOnce(run: seq<Cluster>, events: seq<Event>, j: nat, o: Origin) returns (k: nat)
    requires IsRun(run, events) && j < |run| && HasEnded(run[j], o)
    ensures k < j && Leaves(run[k], run[k + 1], o) && FateOf(run[k + 1], o) == FateOf(run[j], o)
    decreases j
  {
    hide IsRun, Inv, WellFormed, IdsLeft, Step, Buffered, HasEnded, FateOf;
    RunLength(run, events);
    if j == 0 {
      NothingYet(run, events, o);
      assert false;
    } else {
      RunStep(run, events, j - 1);
      if HasEnded(run[j - 1], o) {
        k := LeftOnce(run, events, j - 1, o);
        FateStays(run, events, j - 1, j, o);
      } else {
        k := j - 1;
        FrameStep(run[k], events[k], o);
      }
    }
  }

  lemma NothingYet(run: seq<Cluster>, events: seq<Event>, o: Origin)
    requires IsRun(run, events)
    ensures !HasEnded(run[0], o) && !Buffered(run[0], o)
  {
  }

  /** A frame marked as copied was taken out before. */
  lemma {:induction false} CopiedWasTaken(run: seq<Cluster>, events: seq<Event>, j: nat, o: Origin)
    requires IsRun(run, events) && j < |run| && Buffered(run[j], o) && HeldAs(run[j], o).copied
    ensures exists v :: About(run[j], v, o) && WasTaken(run, v)
    decreases j
  {
    hide IsRun, Inv, WellFormed, IdsLeft, Step, Buffered, HeldAs, About, TakenOut, HasEnded, EndsWell;
    RunLength(run, events);
    if j == 0 {
      NothingYet(run, events, o);
      assert false;
    } else {
      RunStep(run, events, j - 1);
      if Buffered(run[j - 1], o) && HeldAs(run[j - 1], o).copied {
        CopiedWasTaken(run, events, j - 1, o);
        var v :| About(run[j - 1], v, o) && WasTaken(run, v);
        AboutStays(run, events, j - 1, j, v, o);
      } else {
        FrameStep(run[j - 1], events[j - 1], o);
        var v :| TakenOut(run[j], v) && About(run[j], v, o);
        assert WasTaken(run, v);
      }
    }
  }

  /** A named counter moved for the frame's end, or a payload of it was written, is still
    * on its way, or was counted as a trunk drop. */
  ghost predicate AnsweredFor(run: seq<Cluster>, events: seq<Event>, o: Origin)
    requires |run| == |events| + 1 && HasEnded(run[|events|], o)
  {
    var s := run[|events|];
    || FateOf(s, o) == Dropped(true) || FateOf(s, o) == Expired(true)
    || exists v :: About(s, v, o) && (Written(s, v) || OnItsWay(s, v) || Failed(run, events, v))
  }

  /** What can be seen as it happens: the frame leaves its buffer under a consuming verdict,
    * by a drop after it was copied out, or when its port is no longer registered. */
  ghost predicate LeavesUncounted(s: Cluster, t: Cluster, o: Origin) {
    && Leaves(s, t, o)
    && match FateOf(t, o)
       case Delivered(_) => true
       case Dropped(_) => HeldAs(s, o).copied || !PortIsHere(s, o)
       case Expired(_) => !PortIsHere(s, o)
  }

  /** The frame left its buffer uncounted, and every payload of it that was taken out
    * reached a port that is not registered or was lost on the way. */
  ghost predicate Silent(run: seq<Cluster>, events: seq<Event>, o: Origin)
    requires |run| == |events| + 1
  {
    && (exists k :: 0 <= k < |events| && LeavesUncounted(run[k], run[k + 1], o))
    && forall v :: About(run[|events|], v, o) && WasTaken(run, v) ==> Vanished(run, events, v)
  }

  lemma UncountedLeaves(s: Cluster, t: Cluster, o: Origin)
    ensures LeavesUncounted(s, t, o) ==> Leaves(s, t, o)
  {
  }

  lemma LeavesHow(run: seq<Cluster>, events: seq<Event>, k: nat, o: Origin)
    requires IsRun(run, events) && k < |events| && Leaves(run[k], run[k + 1], o)
    ensures EndsWell(run[k], run[k + 1], o)
    ensures HasEnded(run[|events|], o) && FateOf(run[|events|], o) == FateOf(run[k + 1], o)
    ensures LeavesUncounted(run[k], run[k + 1], o) <==> FateOf(run[k + 1], o) != Dropped(true) && FateOf(run[k + 1], o) != Expired(true)
  {
    hide IsRun, Inv, WellFormed, IdsLeft, Step, Buffered, HasEnded, TakenOut, About, PortIsHere;
    RunLength(run, events);
    RunStep(run, events, k);
    FrameStep(run[k], events[k], o);
    FateStays(run, events, k + 1, |events|, o);
  }

  /** Over every run, a frame that has ended is answered for if and only if it is not the
    * case that it left uncounted and every payload of it vanished. */
  lemma NoSilentEndIff(run: seq<Cluster>, events: seq<Event>, o: Origin)
    requires IsRun(run, events) && |run| == |events| + 1 && HasEnded(run[|events|], o)
    ensures AnsweredFor(run, events, o) <==> !Silent(run, events, o)
  {
    hide IsRun, Buffered, HasEnded, FateOf, About, Written, OnItsWay, LeavesUncounted, Leaves, EndsWell, Failed, Vanished, WasTaken;
    var s := run[|events|];
    var k := LeftOnce(run, events, |events|, o);
    LeavesHow(run, events, k, o);
    forall j | 0 <= j < |events| && LeavesUncounted(run[j], run[j + 1], o)
      ensures FateOf(s, o) != Dropped(true) && FateOf(s, o) != Expired(true)
    {
      UncountedLeaves(run[j], run[j + 1], o);
      LeavesHow(run, events, j, o);
    }
    forall v | About(s, v, o) && (Written(s, v) || OnItsWay(s, v) || Failed(run, events, v))
      ensures WasTaken(run, v) && !Vanished(run, events, v)
    {
      TakenSometime(run, events, v);
      PayloadsEndOneWay(run, events, v);
    }
    forall v | About(s, v, o) && WasTaken(run, v)
      ensures Written(s, v) || OnItsWay(s, v) || Failed(run, events, v) || Vanished(run, events, v)
    {
      PayloadsEndOneWay(run, events, v);
    }
  }

  lemma TakenSometime(run: seq<Cluster>, events: seq<Event>, v: Vid)
    requires |run| == |events| + 1
    requires Written(run[|events|], v) || OnItsWay(run[|events|], v) || Failed(run, events, v)
    ensures WasTaken(run, v)
  {
    hide Written;
    if Failed(run, events, v) {
      var i :| 0 <= i < |events| && Fails(run[i], events[i], v);
      assert TakenOut(run[i], v);
    } else {
      assert TakenOut(run[|events|], v);
    }
  }

  /** So silence takes one of three things: the ingress port gone when the frame left, a
    * payload of it turned away at an unregistered port, or one lost on the way. */
  lemma SilenceTakes(run: seq<Cluster>, events: seq<Event>, o: Origin)
    requires IsRun(run, events) && |run| == |events| + 1 && HasEnded(run[|events|], o) && !AnsweredFor(run, events, o)
    ensures (exists k :: 0 <= k < |events| && LeavesUncounted(run[k], run[k + 1], o) && !PortIsHere(run[k], o))
            || exists v :: About(run[|events|], v, o) && Vanished(run, events, v)
  {
    hide IsRun, HasEnded, FateOf, About, AnsweredFor, Leaves, LeavesUncounted, Vanished, PortIsHere, Buffered, WasTaken, Silent;
    NoSilentEndIff(run, events, o);
    SilentParts(run, events, o);
    var k :| 0 <= k < |events| && LeavesUncounted(run[k], run[k + 1], o);
    UncountedLeaves(run[k], run[k + 1], o);
    if PortIsHere(run[k], o) {
      var v := TakenIfUncounted(run, events, k, o);
      assert Vanished(run, events, v);
    }
  }

  lemma TakenIfUncounted(run: seq<Cluster>, events: seq<Event>, k: nat, o: Origin) returns (v: Vid)
    requires IsRun(run, events) && |run| == |events| + 1 && k < |events| && LeavesUncounted(run[k], run[k + 1], o) && PortIsHere(run[k], o)
    ensures About(run[|events|], v, o) && WasTaken(run, v)
  {
    hide IsRun, Inv, About, WasTaken, HasEnded, TakenOut;
    LeavesHow(run, events, k, o);
    match FateOf(run[k + 1], o)
    case Delivered(w) =>
      v := w;
      AboutStays(run, events, k + 1, |events|, v, o);
      OutNow(run, k + 1, v);
    case Dropped(_) =>
      CopiedWasTaken(run, events, k, o);
      v :| About(run[k], v, o) && WasTaken(run, v);
      AboutStays(run, events, k, |events|, v, o);
  }

  lemma OutNow(run: seq<Cluster>, i: nat, v: Vid)
    requires i < |run| && TakenOut(run[i], v)
    ensures WasTaken(run, v)
  {
  }

  lemma SilentParts(run: seq<Cluster>, events: seq<Event>, o: Origin)
    requires |run| == |events| + 1 && Silent(run, events, o)
    ensures exists k :: 0 <= k < |events| && LeavesUncounted(run[k], run[k + 1], o)
    ensures forall v :: About(run[|events|], v, o) && WasTaken(run, v) ==> Vanished(run, events, v)
  {
    hide LeavesUncounted, About, WasTaken, Vanished;
  }

  /** A push that failed moves the trunk counter of the loft it came from. */
  lemma FailureIsCounted(s: Cluster, e: Event, v: Vid)
    requires WellFormed(s) && Fails(s, e, v)
    ensures var n := s.net[v].from; n in s.lofts && Step(s, e).lofts[n].dropTrunk == s.lofts[n].dropTrunk + 1
  {
  }

  /** The two drop counters of every port are the numbers of its frames with a counted end. */
  lemma CountersTell(run: seq<Cluster>, events: seq<Event>, i: nat, n: Node, p: PortId)
    requires IsRun(run, events) && i < |run| && n in run[i].lofts && p in run[i].lofts[n].stats
    ensures var l := run[i].lofts[n];
            && l.stats[p].consumer == |Ended(l.hist.born, l.hist.fate, Dropped(true), p)|
            && l.stats[p].ttl == |Ended(l.hist.born, l.hist.fate, Expired(true), p)|
  {
    hide Moves, Step;
    RunInv(run, events, i);
    assert LoftInv(run[i].lofts[n]);
  }
}
