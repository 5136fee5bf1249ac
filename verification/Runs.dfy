/** What the recorder promises of every run, under every interleaving. */
module Runs {
  import opened Names
  import opened Clocks
  import opened Events
  import opened Logs
  import opened Recorder
  import opened Traces
  import opened Recordings
  import opened Quiescence
  import opened Graphs
  import opened Posets
  import opened Embedding
  import opened Extensions
  import opened Engine
  import opened Determinism
  import opened Replays
  import opened Recall
  import opened Simulation
  import opened Verdict
  import opened Fidelity

  /** A run of the recorder with at most one external origin. */
  ghost predicate OneOrigin(p: Program, w: World) {
    p.WellFormed() && Reachable(p, w) && |w.origins| <= 1
  }

  lemma RunStamped(p: Program, w: World)
    requires OneOrigin(p, w)
    ensures Inv(p, w) && WellStamped(w.log)
  {
    hide TasksOk, MessagesOk, LogOk, WellStamped, Reachable;
    ReachableInv(p, w);
  }

  // ------------------------------------------------- acceptance of run logs

  /** Where an event stands in its actor's share of the log. */
  lemma {:induction false} ProjectAt(log: seq<CausalEvent>, i: nat)
    requires i < |log|
    ensures var a := log[i].actor;
      |Project(log[..i], a)| < |Project(log, a)| && Project(log, a)[|Project(log[..i], a)|] == log[i]
  {
    var front := log[..|log| - 1];
    if i < |log| - 1 {
      ProjectAt(front, i);
      assert front[..i] == log[..i];
    } else {
      assert front == log[..i];
    }
  }

  /** Each actor's events are numbered 1, 2, 3, ... in log order, however many
      origins there were. */
  lemma SeqsRunFromOne(p: Program, w: World, i: nat)
    requires p.WellFormed() && Inv(p, w) && i < |w.log| && w.log[i].actor in p.names
    ensures w.log[i].seqNo == |Project(w.log[..i], w.log[i].actor)| + 1
  {
    hide TasksOk, MessagesOk, WellStamped, Project, EventsOf, EventId;
    var a := w.log[i].actor;
    ProjectAt(w.log, i);
    EventsAt(a, w.tasks[a].trace, |Project(w.log[..i], a)|);
  }

  lemma {:induction false} TwoOnLine(log: seq<CausalEvent>, a: Name)
    requires |Project(log, a)| >= 2
    ensures exists i, j | 0 <= i < j < |log| :: log[i].actor == a == log[j].actor
  {
    var front, last := log[..|log| - 1], log[|log| - 1];
    if last.actor == a {
      var e := Project(front, a)[0];
      assert e in Project(front, a);
      var i :| 0 <= i < |front| && front[i] == e;
      assert log[i].actor == a == log[|log| - 1].actor;
    } else {
      TwoOnLine(front, a);
      var i, j :| 0 <= i < j < |front| && front[i].actor == a == front[j].actor;
      assert log[i].actor == a == log[j].actor;
    }
  }

  /** Every external origin is numbered 1: two of them collide, and nothing else does. */
  lemma DuplicatesAreOrigins(p: Program, w: World, a: Name, n: nat)
    requires p.WellFormed() && Inv(p, w)
    ensures DupSeq(w.log, a, n) <==> a == WORLD && n == 1 && |w.origins| >= 2
  {
    hide Inv, DupSeq;
    if DupSeq(w.log, a, n) { OnlyOriginsCollide(p, w, a, n); }
    if |w.origins| >= 2 { OriginsCollide(p, w); }
  }

  lemma OriginsCollide(p: Program, w: World)
    requires Inv(p, w) && |w.origins| >= 2
    ensures DupSeq(w.log, WORLD, 1)
  {
    hide TasksOk, MessagesOk, WellStamped, Project, EventsOf, EmitEvent;
    TwoOnLine(w.log, WORLD);
    var i, j :| 0 <= i < j < |w.log| && w.log[i].actor == WORLD == w.log[j].actor;
    WorldSeq(p, w, i);
    WorldSeq(p, w, j);
  }

  lemma OnlyOriginsCollide(p: Program, w: World, a: Name, n: nat)
    requires p.WellFormed() && Inv(p, w) && DupSeq(w.log, a, n)
    ensures a == WORLD && n == 1 && |w.origins| >= 2
  {
    hide TasksOk, MessagesOk, WellStamped, Project, EventsOf, EmitEvent;
    var i, j :| 0 <= i < j < |w.log| && w.log[i].actor == a == w.log[j].actor && w.log[i].seqNo == n == w.log[j].seqNo;
    ProjectGrows(w.log, i, j, a);
    if a == WORLD {
      WorldSeq(p, w, i);
      ProjectAt(w.log, j);
    } else {
      SeqsRunFromOne(p, w, i);
      SeqsRunFromOne(p, w, j);
      assert false;
    }
  }

  lemma WorldSeq(p: Program, w: World, i: nat)
    requires Inv(p, w) && i < |w.log| && w.log[i].actor == WORLD
    ensures w.log[i].seqNo == 1
  {
    hide TasksOk, MessagesOk, WellStamped, EventId, Mid;
    assert w.log[i] in Project(w.log, WORLD);
  }

  /** The offline engine accepts a run's log exactly when the run had one origin at
      most; a log with more is refused, always for the same reason. */
  lemma RunAccepted(p: Program, w: World)
    requires p.WellFormed() && Reachable(p, w)
    ensures Accepted(w.log) <==> |w.origins| <= 1
    ensures |w.origins| >= 2 ==> forall err :: Complaint(w.log, err) <==> err == DuplicateSeq(WORLD, 1)
  {
    hide Inv, WellStamped, Reachable, RecvsPaired, UniqueEmits, Consistent, LogEdges, DupSeq;
    ReachableInv(p, w);
    if |w.origins| <= 1 {
      assert WellStamped(w.log) by { RunStamped(p, w); }
      StampedIsAccepted(w.log);
    } else {
      forall a, n: nat ensures DupSeq(w.log, a, n) <==> a == WORLD && n == 1 { DuplicatesAreOrigins(p, w, a, n); }
      NotUnique(w.log, WORLD, 1);
      forall err ensures Complaint(w.log, err) <==> err == DuplicateSeq(WORLD, 1) {}
    }
  }

  lemma NotUnique(log: seq<CausalEvent>, a: Name, n: nat)
    requires DupSeq(log, a, n)
    ensures !UniqueSeqs(log)
  {}

  // ------------------------------------------------------- exact embedding

  /** In the log of every run with one origin at most, vector-clock order is exactly the happens-before
      order of the poset, and the clocks find concurrent exactly what the poset
      leaves unrelated. */
  lemma RunEmbedding(p: Program, w: World, i: nat, j: nat)
    requires OneOrigin(p, w) && i < |w.log| && j < |w.log|
    ensures Lt(w.log[i].vclock, w.log[j].vclock) <==> Reach(LogEdges(w.log), i, j)
    ensures i != j ==> (Incomparable(w.log[i].vclock, w.log[j].vclock) <==> Spacelike(LogEdges(w.log), i, j))
    ensures Same(w.log[i].vclock, w.log[j].vclock) <==> i == j
  {
    hide Inv, WellStamped, Reach, LogEdges, Reachable;
    RunStamped(p, w);
    ExactEmbedding(w.log, i, j);
  }

  /** The exact embedding, over all pairs of a log. */
  ghost predicate Embeds(log: seq<CausalEvent>) {
    forall i: nat, j: nat | i < |log| && j < |log| ::
      && (Lt(log[i].vclock, log[j].vclock) <==> Reach(LogEdges(log), i, j))
      && (Same(log[i].vclock, log[j].vclock) <==> i == j)
  }

  /** A run's log is exactly embedded if and only if the run had one origin at most:
      the stimuli of two origins carry the same clock. */
  lemma EmbedsIff(p: Program, w: World)
    requires p.WellFormed() && Reachable(p, w)
    ensures Embeds(w.log) <==> |w.origins| <= 1
  {
    hide Inv, WellStamped, Reach, LogEdges, Reachable, Lt, Same;
    ReachableInv(p, w);
    if |w.origins| <= 1 {
      forall i: nat, j: nat | i < |w.log| && j < |w.log|
        ensures Lt(w.log[i].vclock, w.log[j].vclock) <==> Reach(LogEdges(w.log), i, j)
        ensures Same(w.log[i].vclock, w.log[j].vclock) <==> i == j
      {
        RunEmbedding(p, w, i, j);
      }
    } else {
      TwinStimuli(p, w);
    }
  }

  lemma TwinStimuli(p: Program, w: World)
    requires Inv(p, w) && |w.origins| >= 2
    ensures !Embeds(w.log)
  {
    hide Inv, Reach, LogEdges, Lt, Same;
    ManyOrigins(p, w);
    TwoOnLine(w.log, WORLD);
    var i, j :| 0 <= i < j < |w.log| && w.log[i].actor == WORLD == w.log[j].actor;
    WorldClock(p, w, i);
    WorldClock(p, w, j);
    NotEmbedded(w.log, i, j);
  }

  lemma ManyOrigins(p: Program, w: World)
    requires Inv(p, w) && |w.origins| >= 2
    ensures |Project(w.log, WORLD)| >= 2
  {
    hide TasksOk, MessagesOk, WellStamped, Project;
  }

  lemma WorldClock(p: Program, w: World, i: nat)
    requires Inv(p, w) && i < |w.log| && w.log[i].actor == WORLD
    ensures w.log[i].vclock == map[WORLD := 1]
  {
    hide TasksOk, WellStamped, EventId, Mid, IdsOk, ActorMsgs;
    assert w.log[i] in Project(w.log, WORLD);
    var x :| 0 <= x < |w.origins| && OriginEvents(w.origins)[x] == w.log[i];
    assert IsOrigin(p, w.origins[x]);
  }

  lemma NotEmbedded(log: seq<CausalEvent>, i: nat, j: nat)
    requires i < j < |log| && log[i].vclock == log[j].vclock
    ensures !Embeds(log)
  {
    hide Lt, Reach, LogEdges;
    assert Same(log[i].vclock, log[j].vclock);
  }

  /** So the pairs the engine lists for a run are those whose clocks are incomparable. */
  lemma RunConcurrency(p: Program, w: World, pairs: seq<(nat, nat)>, i: nat, j: nat)
    requires OneOrigin(p, w) && ListsSpacelike(LogEdges(w.log), |w.log|, pairs) && i < j < |w.log|
    ensures (i, j) in pairs <==> Incomparable(w.log[i].vclock, w.log[j].vclock)
  {
    hide Inv, Reach, LogEdges, Reachable, Incomparable, Lt, Same;
    RunEmbedding(p, w, i, j);
  }

  function Counting(n: nat): (o: seq<nat>)
    ensures |o| == n && forall k | 0 <= k < n :: o[k] == k
  {
    seq(n, k requires 0 <= k < n => k)
  }

  /** Channel order is one of the linear extensions of the poset. */
  lemma LogIsExtension(p: Program, w: World)
    requires OneOrigin(p, w)
    ensures IsExtension(LogEdges(w.log), |w.log|, Counting(|w.log|))
  {
    hide Inv, WellStamped, LogEdges, Reachable, Lt;
    RunStamped(p, w);
    var o := Counting(|w.log|);
    forall i, j | 0 <= i < |o| && 0 <= j < |o| && (o[i], o[j]) in LogEdges(w.log) ensures i < j {
      EdgesIncrease(w.log, o[i], o[j]);
    }
  }

  /** On a run's log the canonical extension is the log sorted by (lamport, actor, seq). */
  lemma RunSorted(p: Program, w: World, o: seq<nat>)
    requires OneOrigin(p, w) && IsCanonical(w.log, LogEdges(w.log), o) && Positions(w.log, o)
    ensures SortedByKey(w.log, o) && forall x, y | 0 <= x < y < |o| :: ReadsBefore(w.log[o[x]], w.log[o[y]])
  {
    hide Inv, WellStamped, LogEdges, Reachable, Lt, IsCanonical, SortedByKey, ReadsBefore;
    RunStamped(p, w);
    assert UniqueSeqs(w.log) by { StampedIsBuildable(w.log); }
    forall i: nat, j: nat | i < |w.log| && j < |w.log| && (i, j) in LogEdges(w.log)
      ensures w.log[i].lamport < w.log[j].lamport
    {
      EdgesIncrease(w.log, i, j);
    }
    KahnIsSorting(w.log, LogEdges(w.log), o);
  }

  /** On a run's log every arrow the engine names points from an event to one with a later
      clock. */
  lemma RunArrows(p: Program, w: World, r: Replayed, i: nat, j: nat)
    requires OneOrigin(p, w) && Reads(w.log, r) && i < |w.log| && j < |w.log|
    requires (w.log[i].id, w.log[j].id) in r.edges
    ensures Lt(w.log[i].vclock, w.log[j].vclock)
  {
    hide Inv, WellStamped, Reachable, Lt, Accepted, Reads;
    RunStamped(p, w);
    StampedIdsDistinct(w.log);
    RunAccepted(p, w);
    ArrowsFollowClocks(w.log, r, i, j);
  }

  // ------------------------------------------------------------- deliveries

  /** The history entry behind an actor's receive, and the message it took. */
  lemma ReceivedAt(p: Program, w: World, i: nat) returns (env: Envelope)
    requires p.WellFormed() && Inv(p, w) && i < |w.log| && w.log[i].op == Recv
    ensures w.log[i].actor in p.names && w.log[i].seqNo >= 1
    ensures w.log[i].msgId == Some(Mid(env.msgId)) && w.log[i].src == Some(env.src) && w.log[i].dst == Some(env.dst)
    ensures At(w, env, Received(w.log[i].actor, w.log[i].seqNo - 1)) && Sent(w, env) && env.dst == w.log[i].actor
  {
    hide TasksOk, WellStamped, EventId, Mid, EventsOf, Stamps, Increment, Merge, Sent, MessagesOk, Project;
    var a := w.log[i].actor;
    if a == WORLD { WorldEmits(p, w, i); }
    assert a in p.names;
    ProjectAt(w.log, i);
    var tr := w.tasks[a].trace;
    var x := |Project(w.log[..i], a)|;
    EventsAt(a, tr, x);
    MessagesOf(p, w, a);
    env := tr[x].env;
  }

  lemma WorldEmits(p: Program, w: World, i: nat)
    requires Inv(p, w) && i < |w.log| && w.log[i].actor == WORLD
    ensures w.log[i].op == Emit
  {
    hide TasksOk, MessagesOk, WellStamped, EventId, Mid;
    assert w.log[i] in Project(w.log, WORLD);
  }

  /** The history entry, or the origin, behind an emit. */
  lemma EmittedAt(p: Program, w: World, i: nat) returns (env: Envelope)
    requires p.WellFormed() && Inv(p, w) && i < |w.log| && w.log[i].op == Emit
    ensures w.log[i].msgId == Some(Mid(env.msgId)) && w.log[i].src == Some(env.src) && w.log[i].dst == Some(env.dst)
    ensures Sent(w, env) && env.src == w.log[i].actor
  {
    hide TasksOk, WellStamped, EventId, Mid, EventsOf, Stamps, Increment, Merge, MessagesOk, Project;
    var a := w.log[i].actor;
    ProjectAt(w.log, i);
    var x := |Project(w.log[..i], a)|;
    if a == WORLD {
      env := w.origins[x];
      OriginSent(p, w, x);
    } else {
      var tr := w.tasks[a].trace;
      EventsAt(a, tr, x);
      MessagesOf(p, w, a);
      env := tr[x].env;
      assert w.sentAt[env.msgId] == (a, x);
      assert a != WORLD;
    }
    SentSource(p, w, env);
  }

  lemma OriginSent(p: Program, w: World, x: nat)
    requires Inv(p, w) && x < |w.origins|
    ensures w.origins[x].msgId in w.sentAt && w.sentAt[w.origins[x].msgId] == (WORLD, x)
  {
    hide TasksOk, LogOk, WellStamped, IdsOk;
  }

  /** An envelope names its sender. */
  lemma SentSource(p: Program, w: World, env: Envelope)
    requires p.WellFormed() && Inv(p, w) && Sent(w, env)
    ensures env.src == w.sentAt[env.msgId].0
  {
    hide WellStamped, LogOk, Increment, Merge, EventsOf, EventId, Mid, PhaseOk;
    var (b, x) := w.sentAt[env.msgId];
    if b == WORLD {
      assert IsOrigin(p, w.origins[x]);
    } else {
      assert TaskOk(p, b, w.tasks[b]);
      EventStamp(p, b, w.tasks[b].trace, x);
    }
  }

  lemma SentOnce(w: World, env: Envelope, other: Envelope)
    requires Sent(w, env) && Sent(w, other) && env.msgId == other.msgId
    ensures env == other
  {}

  /** What an event of each kind says: an emit names its message, its sender and a
      receiver; a receive names the message, a sender and its receiver; a compute names no
      message and no one. No event carries a value or a payload hash, and each is called
      after its actor and number. */
  ghost predicate WellShaped(e: CausalEvent) {
    && e.id == EventId(e.actor, e.seqNo) && e.value.None? && e.payloadHash.None?
    && match e.op
       case Emit => e.msgId.Some? && e.src == Some(e.actor) && e.dst.Some?
       case Recv => e.msgId.Some? && e.src.Some? && e.dst == Some(e.actor)
       case Compute => e.msgId.None? && e.src.None? && e.dst.None?
       case _ => false
  }

  lemma RunShape(p: Program, w: World, i: nat)
    requires p.WellFormed() && Reachable(p, w) && i < |w.log|
    ensures WellShaped(w.log[i])
  {
    hide Inv, Reachable, EventId, Mid, Sent, Program.Addressed;
    ReachableInv(p, w);
    EntryShape(p, w, i);
    if w.log[i].op == Emit { var env := EmittedAt(p, w, i); }
    if w.log[i].op == Recv { var env := ReceivedAt(p, w, i); }
  }

  lemma EntryShape(p: Program, w: World, i: nat)
    requires p.WellFormed() && Inv(p, w) && i < |w.log|
    ensures var e := w.log[i];
      && e.id == EventId(e.actor, e.seqNo) && e.value.None? && e.payloadHash.None?
      && (e.op == Emit || e.op == Recv || (e.op == Compute && e.msgId.None? && e.src.None? && e.dst.None?))
  {
    hide TasksOk, MessagesOk, WellStamped, EventId, Mid, EventsOf, Stamps, Increment, Merge;
    var e := w.log[i];
    assert e in Project(w.log, e.actor);
    if e.actor != WORLD {
      var tr := w.tasks[e.actor].trace;
      var x :| 0 <= x < |tr| && EventsOf(e.actor, tr)[x] == e;
      EventsAt(e.actor, tr, x);
    }
  }

  /** Every receive in a run's log happens where its emit was addressed, and repeats
      what the emit says of the message. */
  lemma RunRouting(p: Program, w: World, i: nat, j: nat)
    requires p.WellFormed() && Reachable(p, w) && MessageEdge(w.log, i, j)
    ensures w.log[i].dst == Some(w.log[j].actor) == w.log[j].dst
    ensures w.log[i].src == w.log[j].src == Some(w.log[i].actor)
  {
    hide Inv, Reachable, Mid, Sent, Program.Addressed;
    ReachableInv(p, w);
    var env := EmittedAt(p, w, i);
    var got := ReceivedAt(p, w, j);
    MidInjective(env.msgId, got.msgId);
    SentOnce(w, env, got);
  }

  /** No message is received twice, in any run. */
  lemma RunReceivesOnce(p: Program, w: World, i: nat, j: nat)
    requires p.WellFormed() && Reachable(p, w) && i < |w.log| && j < |w.log|
    requires w.log[i].op == Recv == w.log[j].op && w.log[i].msgId == w.log[j].msgId
    ensures i == j
  {
    hide Inv, Reachable, Mid, Sent, Program.Addressed;
    ReachableInv(p, w);
    var m := ReceivedAt(p, w, i);
    var n := ReceivedAt(p, w, j);
    MidInjective(m.msgId, n.msgId);
    var a := w.log[i].actor;
    SeqsRunFromOne(p, w, i);
    SeqsRunFromOne(p, w, j);
    if i < j { ProjectGrows(w.log, i, j, a); }
    if j < i { ProjectGrows(w.log, j, i, a); }
  }

  // ------------------------------------------------------- record then replay

  /** Whatever code replays a run's log faithfully, its message numbers fit. */
  lemma RunFits(p: Program, w: World, q: Program, tl: seq<CausalEvent>, origins: seq<(Name, Payload)>)
    requires OneOrigin(p, w) && q.names == p.names && Replay(q, w.log, tl, origins).divergences == []
    ensures FitsWidth(w.log)
  {
    hide Inv, WellStamped, Reachable, Replay, DistinctIds, Program.Addressed;
    RunStamped(p, w);
    StampedIdsDistinct(w.log);
    FaithfulFits(q, w.log, tl, origins);
  }

  /** Any snapshot of a run replays faithfully, in any order that respects its
      poset, exactly when its message numbers fit the reader's width and no handler or
      hook had actions left to record. */
  lemma RunFaithfulIff(p: Program, w: World, order: seq<nat>)
    requires OneOrigin(p, w) && IsExtension(LogEdges(w.log), |w.log|, order) && Positions(w.log, order)
    ensures Replay(p, w.log, Timeline(w.log, order), Supplied(w)).divergences == [] <==>
            FitsWidth(w.log) && forall a | a in w.tasks :: Owed(p, a, w.tasks[a]) == []
  {
    hide Inv, LogEdges, IsExtension, Reachable, Replay, Owed, FitsWidth;
    RunStamped(p, w);
    assert w.tasks.Keys == p.names by { ReachablePeopled(p, w); }
    if Replay(p, w.log, Timeline(w.log, order), Supplied(w)).divergences == [] {
      RunFits(p, w, p, Timeline(w.log, order), Supplied(w));
    }
    if FitsWidth(w.log) { FaithfulIff(p, w, order); }
    ClearIff(p, w);
  }

  lemma ClearIff(p: Program, w: World)
    requires w.tasks.Keys == p.names
    ensures AllClear(p, w) <==> forall a | a in w.tasks :: Owed(p, a, w.tasks[a]) == []
  {
    hide Owed;
    if AllClear(p, w) {
      forall a | a in w.tasks ensures Owed(p, a, w.tasks[a]) == [] { assert Clear(p, w, a); }
    }
  }

  lemma QuietIsClear(p: Program, w: World)
    requires Inv(p, w) && Quiet(w)
    ensures forall a | a in w.tasks :: Owed(p, a, w.tasks[a]) == []
  {
    hide MessagesOk, LogOk, WellStamped, Behave, Stamps;
    forall a | a in w.tasks ensures Owed(p, a, w.tasks[a]) == [] { assert TaskOk(p, a, w.tasks[a]); }
  }

  /** After quiescence no step adds to the log. */
  lemma {:induction false} QuietRun(p: Program, u: World, ls: seq<Label>, w: World)
    requires p.WellFormed() && Inv(p, u) && Quiet(u) && Exec(p, u, ls) == Some(w)
    ensures Inv(p, w) && Quiet(w) && w.log == u.log
  {
    hide Inv, Quiet, Next;
    if ls != [] {
      var v := Exec(p, u, ls[..|ls| - 1]).value;
      QuietRun(p, u, ls[..|ls| - 1], v);
      assert v.tasks.Keys == v.boxes.Keys by { InvPeopled(p, v); }
      InvNext(p, v, ls[|ls| - 1], w);
      QuietIsStable(p, v, ls[|ls| - 1], w);
    }
  }

  /** Record, wait for quiescence, shut down, replay: if every `started` hook had
      finished when the waiter read zero, the log is final from that point on and
      its replay is faithful, whatever the scheduling was and in whatever order
      consistent with the poset it is re-executed. */
  lemma RecordThenReplay(p: Program, u: World, shutdown: seq<Label>, w: World, order: seq<nat>)
    requires p.WellFormed() && Reachable(p, u) && u.main.Checking? && u.inFlight == 0 && Started(u)
    requires Exec(p, u, shutdown) == Some(w) && |w.origins| <= 1 && FitsWidth(w.log)
    requires IsExtension(LogEdges(w.log), |w.log|, order) && Positions(w.log, order)
    ensures w.log == u.log
    ensures Replay(p, w.log, Timeline(w.log, order), Supplied(w)).divergences == []
  {
    hide Inv, LogEdges, IsExtension, Reachable, Replay, Owed, Quiet, Started, Exec;
    ReachableInv(p, u);
    ZeroMeansQuiet(p, u);
    QuietRun(p, u, shutdown, w);
    QuietIsClear(p, w);
    InvPeopled(p, w);
    ClearIff(p, w);
    FaithfulIff(p, w, order);
  }

  /** The counter's width bounds every id in the log. */
  lemma CounterFits(p: Program, w: World)
    requires p.WellFormed() && Reachable(p, w) && w.nextId <= U64_MAX
    ensures FitsWidth(w.log)
  {
    hide TasksOk, LogOk, WellStamped, Reachable, Mid, EventId;
    ReachableInv(p, w);
    forall i, id: nat | 0 <= i < |w.log| && w.log[i].op == Emit && w.log[i].msgId == Some(Mid(id))
      ensures id <= U64_MAX
    {
      LoggedIsSent(p, w, i);
      var other: nat :| other in w.sentAt && w.log[i].msgId == Some(Mid(other)) && w.sentAt[other].0 == w.log[i].actor;
      MidInjective(id, other);
    }
  }

  // --------------------------------------------------------- several origins

  /** The origin can be sent twice, and then the log is refused. */
  lemma OriginCanRepeat(u: UserState, m: Payload) returns (p: Program, w: World)
    ensures p.WellFormed() && Reachable(p, w) && |w.origins| == 2 && !Accepted(w.log)
  {
    hide Accepted, EmitEvent, Complaint;
    p := Program({"a"}, (_: Name) => u, (_: Name, s: UserState) => (s, []), (_: Name, s: UserState, _: Payload) => (s,
        []));
    var w0 := Init(p);
    assert Exec(p, w0, []) == Some(w0);
    var w1, ls1 := OneMore(p, [], w0, "a", m);
    var w2, ls2 := OneMore(p, ls1, w1, "a", m);
    w := w2;
    assert Reachable(p, w);
    RunAccepted(p, w);
  }

  /** Another complete injection. */
  lemma OneMore(p: Program, ls: seq<Label>, w: World, dst: Name, m: Payload) returns (v: World, more: seq<Label>)
    requires Exec(p, Init(p), ls) == Some(w) && w.main.Injecting? && dst in p.names && dst in w.boxes
    ensures Exec(p, Init(p), more) == Some(v) && v.main.Injecting? && v.boxes.Keys == w.boxes.Keys
    ensures |v.origins| == |w.origins| + 1
  {
    hide EmitEvent, Init, Exec;
    var w1 := DrawOrigin(w, dst, m);
    var w2 := LogOrigin(w1, w1.main.env);
    var w3 := w2.(main := OriginCounted(w1.main.env), inFlight := w2.inFlight + 1);
    v := DeliverOrigin(w3, w1.main.env);
    ExecMore(p, ls, w, Origin(dst, m), w1);
    ExecMore(p, ls + [Origin(dst, m)], w1, MainMove, w2);
    ExecMore(p, ls + [Origin(dst, m)] + [MainMove], w2, MainMove, w3);
    ExecMore(p, ls + [Origin(dst, m)] + [MainMove] + [MainMove], w3, MainMove, v);
    more := ls + [Origin(dst, m)] + [MainMove] + [MainMove] + [MainMove];
  }

  // ------------------------------------------------ the hook the counter misses

  /** One actor whose `started` hook computes. */
  function HookOnly(u: UserState): Program {
    Program({"a"}, (_: Name) => u, (_: Name, s: UserState) => (s, [Work]), (_: Name, s: UserState, _: Payload) => (s,
        []))
  }

  /** Without the hypothesis on `started` hooks fidelity fails: the waiter can read
      zero and the system shut down before a hook has run; the log then lacks its
      events and re-execution reports them. */
  lemma HookCanBeMissed(u: UserState) returns (p: Program, w: World)
    ensures p.WellFormed() && Reachable(p, w) && w.main.Finished? && w.origins == []
    ensures forall a | a in w.tasks :: w.tasks[a].phase.Aborted?
    ensures Accepted(w.log)
    ensures Replay(p, w.log, Timeline(w.log, []), Supplied(w)).divergences != []
  {
    hide Replay;
    p := HookOnly(u);
    var w0 := Init(p);
    var w1 := w0.(main := Checking);
    var w2 := w1.(main := Finished);
    w := AbortTask(w2, "a", w2.tasks["a"]);
    assert Exec(p, Init(p), []) == Some(w0);
    ExecMore(p, [], w0, MainMove, w1);
    ExecMore(p, [MainMove], w1, MainMove, w2);
    ExecMore(p, [MainMove] + [MainMove], w2, Abort("a"), w);
    assert Reachable(p, w);
    RunAccepted(p, w);
    RunFaithfulIff(p, w, []);
    assert Owed(p, "a", w.tasks["a"]) == [Work];
  }
}
