/** The game and the loft together: what the verbs of a frame, in the order the
  * game sends them, do to the buffer that holds it. */
module PigeonsAndLoft {
  import opened Basics
  import opened LoftCore
  import opened Cluster
  import opened Pigeons
  import opened PigeonRuns

  /** The loft carries out the `cause`-th verb. */
  function Apply(l: Loft, v: Verdict, cause: Vid): Loft
    requires l.byID <= l.stats.Keys
  {
    match v.verb
    case Deliver => DeliverLocal(l, v.port, v.fid, true, cause)
    case CopyDeliver => DeliverLocal(l, v.port, v.fid, false, cause)
    case Drop => DropLocal(l, v.fid)
  }

  function ApplyAll(l: Loft, sent: seq<Verdict>): (m: Loft)
    requires l.byID <= l.stats.Keys
    ensures m.byID == l.byID && m.byID <= m.stats.Keys
  {
    if sent == [] then l else Apply(ApplyAll(l, sent[..|sent| - 1]), sent[|sent| - 1], |sent| - 1)
  }

  lemma OtherFrameUntouched(l: Loft, v: Verdict, cause: Vid, f: Fid)
    requires l.byID <= l.stats.Keys && v.fid != f
    ensures var m := Apply(l, v, cause);
            && (f in m.frames <==> f in l.frames)
            && (f in l.frames ==> m.frames[f] == l.frames[f])
            && (f in m.hist.fate <==> f in l.hist.fate)
            && (f in l.hist.fate ==> m.hist.fate[f] == l.hist.fate[f])
  {
  }

  /** The last verb sent for `f`. */
  function LastFor(sent: seq<Verdict>, f: Fid): Option<Verdict> {
    if sent == [] then None
    else if sent[|sent| - 1].fid == f then Some(sent[|sent| - 1])
    else LastFor(sent[..|sent| - 1], f)
  }

  /** The verb found no such port, so the loft kept the frame. */
  predicate Missed(l: Loft, last: Option<Verdict>) {
    last.Some? && last.value.verb == Deliver && last.value.port !in l.byID
  }

  lemma FinishedBefore(vs: seq<Verb>, verb: Verb)
    ensures Finished(vs + [verb]) ==> OnlyCopies(vs) && verb != CopyDeliver
    ensures OnlyCopies(vs + [verb]) ==> OnlyCopies(vs) && verb == CopyDeliver
  {
    assert (vs + [verb])[..|vs|] == vs;
    if OnlyCopies(vs + [verb]) {
      assert (vs + [verb])[|vs|] == verb;
      forall i | 0 <= i < |vs|
        ensures vs[i] == CopyDeliver
      {
        assert (vs + [verb])[i] == vs[i];
      }
    }
  }

  lemma VerbLanded(l: Loft, v: Verdict, cause: Vid)
    requires l.byID <= l.stats.Keys && v.fid in l.frames
    ensures var m := Apply(l, v, cause);
            if v.verb == CopyDeliver || Missed(l, Some(v)) then
              v.fid in m.frames && m.frames[v.fid].(copied := false) == l.frames[v.fid].(copied := false)
            else v.fid !in m.frames
  {
  }

  /** A frame that is only ever copied stays buffered; once finished it is gone,
    * unless its last landing port was unknown, and exactly then it is not. */
  lemma {:induction false} FinishedLeavesTheLoftIff(l: Loft, sent: seq<Verdict>, f: Fid)
    requires l.byID <= l.stats.Keys && f in l.frames
    ensures var m, vs := ApplyAll(l, sent), VerbsOf(sent, f);
            && (OnlyCopies(vs) ==> f in m.frames && m.frames[f].(copied := false) == l.frames[f].(copied := false))
            && (Finished(vs) ==> (f in m.frames <==> Missed(l, LastFor(sent, f))))
    decreases |sent|
  {
    hide OnlyCopies, Finished, Apply;
    if sent == [] {
      assert !Finished([]) by { NotFinished(); }
    } else {
      var before, v := sent[..|sent| - 1], sent[|sent| - 1];
      FinishedLeavesTheLoftIff(l, before, f);
      var m := ApplyAll(l, before);
      if v.fid != f {
        OtherFrameUntouched(m, v, |sent| - 1, f);
        assert VerbsOf(before, f) + [] == VerbsOf(before, f);
      } else {
        FinishedBefore(VerbsOf(before, f), v.verb);
        NotBoth(VerbsOf(sent, f));
        if f in m.frames { VerbLanded(m, v, |sent| - 1); }
      }
    }
  }

  lemma NotFinished()
    ensures !Finished([])
  {
  }

  lemma NotBoth(vs: seq<Verb>)
    ensures !(OnlyCopies(vs) && Finished(vs))
    ensures Finished(vs) ==> vs[|vs| - 1] != CopyDeliver
  {
    CopiesAreNotFinished(vs);
  }

  /** The final verb of a frame, once it has reached the loft, is its fate: what
    * the last pigeon did, and a drop is counted only if nothing was copied out. */
  lemma {:induction false} FinishedIsItsFate(l: Loft, sent: seq<Verdict>, f: Fid)
    requires l.byID <= l.stats.Keys && f in l.frames && !l.frames[f].copied
    requires forall i :: 0 <= i < |sent| && sent[i].fid == f && sent[i].verb != Drop ==> sent[i].port in l.byID
    ensures var m, vs := ApplyAll(l, sent), VerbsOf(sent, f);
            && (OnlyCopies(vs) ==> f in m.frames && m.frames[f] == l.frames[f].(copied := vs != []))
            && (Finished(vs) ==>
                  && f in m.hist.fate
                  && (vs[|vs| - 1] == Drop ==> m.hist.fate[f] == Dropped(|vs| == 1 && l.frames[f].port in l.byID))
                  && (vs[|vs| - 1] == Deliver ==> m.hist.fate[f].Delivered? && m.hist.fate[f].cause < |sent| && sent[m.hist.fate[f].cause].fid == f))
    decreases |sent|
  {
    hide OnlyCopies, Finished, Apply;
    if sent == [] {
      NotFinished();
      assert l.frames[f].(copied := false) == l.frames[f];
    } else {
      var before, v := sent[..|sent| - 1], sent[|sent| - 1];
      FinishedIsItsFate(l, before, f);
      var m := ApplyAll(l, before);
      if v.fid != f {
        OtherFrameUntouched(m, v, |sent| - 1, f);
        assert VerbsOf(before, f) + [] == VerbsOf(before, f);
      } else {
        FinishedBefore(VerbsOf(before, f), v.verb);
        NotBoth(VerbsOf(sent, f));
        if f in m.frames { VerbFate(m, v, |sent| - 1); }
      }
    }
  }

  lemma VerbFate(l: Loft, v: Verdict, cause: Vid)
    requires l.byID <= l.stats.Keys && v.fid in l.frames && (v.verb != Drop ==> v.port in l.byID)
    ensures var m := Apply(l, v, cause);
            match v.verb
            case CopyDeliver => v.fid in m.frames && m.frames[v.fid] == l.frames[v.fid].(copied := true)
            case Deliver => v.fid in m.hist.fate && m.hist.fate[v.fid] == Delivered(cause)
            case Drop => v.fid in m.hist.fate && m.hist.fate[v.fid] == Dropped(!l.frames[v.fid].copied && l.frames[v.fid].port in l.byID)
  {
  }

  lemma {:induction false} VerbsPrefix(sent: seq<Verdict>, i: nat, f: Fid)
    requires i < |sent| && sent[i].fid == f
    ensures VerbsOf(sent[..i], f) + [sent[i].verb] <= VerbsOf(sent, f)
    decreases |sent|
  {
    if i < |sent| - 1 {
      VerbsPrefix(sent[..|sent| - 1], i, f);
      assert sent[..|sent| - 1][..i] == sent[..i];
    }
  }

  lemma CopiesBeforeTheEnd(vs: seq<Verb>, before: seq<Verb>, verb: Verb)
    requires OnlyCopies(vs) || Finished(vs)
    requires before + [verb] <= vs
    ensures OnlyCopies(before)
  {
    forall i | 0 <= i < |before|
      ensures before[i] == CopyDeliver
    {
      assert vs[i] == (before + [verb])[i] == before[i];
      if Finished(vs) { assert vs[..|vs| - 1][i] == vs[i]; }
    }
  }

  /** No verb of a whole game is wasted: each one sent for a frame the loft held
    * when the game began finds that frame still buffered. */
  lemma EveryVerbFindsItsFrame(commands: seq<Command>, l: Loft, f: Fid, i: nat)
    requires Roomy(commands) && l.byID <= l.stats.Keys && f in l.frames
    requires i < |Play(commands).sent| && Play(commands).sent[i].fid == f
    ensures f in ApplyAll(l, Play(commands).sent[..i]).frames
    ensures ApplyAll(l, Play(commands).sent[..i]).frames[f].data == l.frames[f].data
  {
    hide OnlyCopies, Finished, Apply, VerbsOf, Roomy, Play;
    var sent := Play(commands).sent;
    FramesEndOnce(commands, f);
    VerbsPrefix(sent, i, f);
    assert VerbsOf(sent, f) == [] ==> OnlyCopies(VerbsOf(sent, f)) by { NoVerbs(); }
    CopiesBeforeTheEnd(VerbsOf(sent, f), VerbsOf(sent[..i], f), sent[i].verb);
    FinishedLeavesTheLoftIff(l, sent[..i], f);
  }

  lemma NoVerbs()
    ensures OnlyCopies([])
  {
  }
}
