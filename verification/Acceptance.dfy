/** Recording and replaying put together. */
module Acceptance {
  import opened Names
  import opened Events
  import opened Recorder
  import opened Recordings
  import opened Posets
  import opened Extensions
  import opened Engine
  import R = Replays
  import opened Fidelity
  import opened Logs
  import opened Recall
  import opened Runs
  import opened Verdict
  import opened Replayer

  /** Replaying any snapshot of a run with the same program and the same stimulus is
      accepted, and reports divergences exactly if some hook or handler of the
      recording still had actions left, or some message number is too wide. */
  method ReplayRecorded(p: Program, w: World) returns (r: Result<Outcome>)
    requires OneOrigin(p, w)
    ensures r.Ok?
    ensures r.value.IsFaithful() <==> FitsWidth(w.log) && forall a | a in w.tasks :: Owed(p, a, w.tasks[a]) == []
  {
    hide OneOrigin, IsCanonical, LogEdges, R.Replay, Owed, Accepted;
    AcceptedHere(p, w);
    ghost var order, edges, pairs, final;
    r, order, edges, pairs, final := ReplayRun(p, w.log, Supplied(w));
    CanonicalExtends(w.log, order);
    RunFaithfulIff(p, w, order);
  }

  lemma AcceptedHere(p: Program, w: World)
    requires OneOrigin(p, w)
    ensures Accepted(w.log)
  {
    hide Accepted, Reachable, Complaint;
    RunAccepted(p, w);
  }

  lemma CanonicalExtends(log: seq<CausalEvent>, order: seq<nat>)
    requires IsCanonical(log, LogEdges(log), order)
    ensures IsExtension(LogEdges(log), |log|, order)
  {}

  /** And whatever order is used, a faithful replay re-executes exactly the recorded
      events, each once. */
  lemma SameEvents(p: Program, w: World, o1: seq<nat>, o2: seq<nat>)
    requires OneOrigin(p, w) && FitsWidth(w.log) && Positions(w.log, o1) && Positions(w.log, o2)
    requires IsExtension(LogEdges(w.log), |w.log|, o1) && IsExtension(LogEdges(w.log), |w.log|, o2)
    requires forall a | a in w.tasks :: Owed(p, a, w.tasks[a]) == []
    ensures var m1 := R.Replay(p, w.log, Timeline(w.log, o1), Supplied(w)).made;
      var m2 := R.Replay(p, w.log, Timeline(w.log, o2), Supplied(w)).made;
      multiset(m1) == multiset(m2) && forall e :: e in m1 <==> e in w.log && !IsStimulus(e)
  {
    hide OneOrigin, LogEdges, IsExtension, R.Replay, Owed, IsStimulus, DistinctIds;
    RunFaithfulIff(p, w, o1);
    RunFaithfulIff(p, w, o2);
    assert DistinctIds(w.log) && WORLD !in p.names by { RunIdsDistinct(p, w); }
    EmptyMeansSame(p, w.log, Timeline(w.log, o1), Supplied(w));
    EmptyMeansSame(p, w.log, Timeline(w.log, o2), Supplied(w));
    SameMembers(R.Replay(p, w.log, Timeline(w.log, o1), Supplied(w)).made,
        R.Replay(p, w.log, Timeline(w.log, o2), Supplied(w)).made);
  }

  lemma RunIdsDistinct(p: Program, w: World)
    requires OneOrigin(p, w)
    ensures DistinctIds(w.log) && WORLD !in p.names
  {
    hide Reachable, WellStamped, Inv, DistinctIds;
    RunStamped(p, w);
    StampedIdsDistinct(w.log);
  }

  lemma {:induction false} OccursOnce(es: seq<CausalEvent>, e: CausalEvent)
    requires DistinctIds(es)
    ensures multiset(es)[e] == if e in es then 1 else 0
  {
    if es != [] {
      var front, last := es[..|es| - 1], es[|es| - 1];
      assert es == front + [last];
      OccursOnce(front, e);
    }
  }

  lemma SameMembers(es: seq<CausalEvent>, fs: seq<CausalEvent>)
    requires DistinctIds(es) && DistinctIds(fs) && forall e :: e in es <==> e in fs
    ensures multiset(es) == multiset(fs)
  {
    forall e ensures multiset(es)[e] == multiset(fs)[e] {
      OccursOnce(es, e);
      OccursOnce(fs, e);
    }
  }
}
