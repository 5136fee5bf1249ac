/** What the replayer's index over a recorded log gives back. */
module Recall {
  import opened Names
  import opened Clocks
  import opened Events
  import opened Logs
  import opened Recorder
  import opened Traces
  import opened Recordings
  import opened Posets
  import opened Embedding
  import opened Engine
  import opened Replays

  /** A run with one origin at most and message numbers that fit the reader's width. */
  ghost predicate Recording(p: Program, w: World) {
    p.WellFormed() && Inv(p, w) && |w.origins| <= 1 && FitsWidth(w.log)
  }

  lemma SentFits(p: Program, w: World, env: Envelope)
    requires Inv(p, w) && FitsWidth(w.log) && Sent(w, env)
    ensures env.msgId <= U64_MAX
  {
    hide TasksOk, MessagesOk, LogOk, WellStamped, EventId, Mid;
    var i := SentIsLogged(p, w, env);
  }

  function Trace(w: World, a: Name): seq<Done>
    requires a in w.tasks
  {
    w.tasks[a].trace
  }

  // ------------------------------------------------------- events by position

  /** The log position of the `x`-th entry of an actor's history. */
  lemma PositionOf(p: Program, w: World, a: Name, x: nat) returns (i: nat)
    requires Recording(p, w) && a in p.names && x < |Trace(w, a)|
    ensures i < |w.log| && w.log[i] == EventsOf(a, Trace(w, a))[x]
    ensures w.log[i].actor == a && w.log[i].seqNo == x + 1 && w.log[i].id == EventId(a, x + 1)
  {
    hide EventId, TasksOk, MessagesOk, WellStamped;
    EventsAt(a, Trace(w, a), x);
    var e := EventsOf(a, Trace(w, a))[x];
    assert e in Project(w.log, a);
    i :| 0 <= i < |w.log| && w.log[i] == e;
  }

  /** The history entry behind a log position. */
  lemma EntryOf(p: Program, w: World, i: nat) returns (x: nat)
    requires Recording(p, w) && i < |w.log| && w.log[i].actor != WORLD
    ensures w.log[i].actor in p.names && w.log[i].actor in w.tasks
    ensures x < |Trace(w, w.log[i].actor)| && w.log[i] == EventsOf(w.log[i].actor, Trace(w, w.log[i].actor))[x]
    ensures w.log[i].seqNo == x + 1
  {
    hide EventId, TasksOk, MessagesOk, WellStamped;
    var e := w.log[i];
    assert e.actor in p.names;
    assert e in Project(w.log, e.actor);
    x :| 0 <= x < |Trace(w, e.actor)| && EventsOf(e.actor, Trace(w, e.actor))[x] == e;
    EventsAt(e.actor, Trace(w, e.actor), x);
  }

  lemma WorldEntry(p: Program, w: World, i: nat)
    requires Recording(p, w) && i < |w.log| && w.log[i].actor == WORLD
    ensures |w.origins| == 1 && w.log[i] == EmitEvent(WORLD, 1, w.origins[0])
  {
    hide EventId, Mid, TasksOk, MessagesOk, WellStamped, OriginEvents, EmitEvent;
    assert w.log[i] in Project(w.log, WORLD);
    OriginEventsMember(w.origins, w.log[i]);
  }

  lemma OriginEventsMember(origins: seq<Envelope>, e: CausalEvent)
    requires |origins| <= 1 && e in OriginEvents(origins)
    ensures |origins| == 1 && e == EmitEvent(WORLD, 1, origins[0])
  {
    hide EmitEvent;
  }

  // -------------------------------------------------------------- by identity

  ghost predicate DistinctIds(log: seq<CausalEvent>) {
    forall i, j | 0 <= i < j < |log| :: log[i].id != log[j].id
  }

  lemma StampedIdsDistinct(log: seq<CausalEvent>)
    requires WellStamped(log)
    ensures DistinctIds(log)
  {
    hide EventId, Frontier, Merge, Increment, LogEdges;
    forall i, j | 0 <= i < j < |log| ensures log[i].id != log[j].id {
      assert StampOk(log[..i], log[i]) && StampOk(log[..j], log[j]);
      if log[i].id == log[j].id {
        EventIdInjective(log[i].actor, log[i].seqNo, log[j].actor, log[j].seqNo);
        SeqIncreases(log, i, j);
      }
    }
  }

  lemma {:induction false} ByIdFinds(log: seq<CausalEvent>, i: nat)
    requires DistinctIds(log) && i < |log|
    ensures log[i].id in ById(log) && ById(log)[log[i].id] == log[i]
  {
    if i < |log| - 1 { ByIdFinds(log[..|log| - 1], i); }
  }

  lemma {:induction false} ByIdHolds(log: seq<CausalEvent>, id: string) returns (i: nat)
    requires id in ById(log)
    ensures i < |log| && log[i] == ById(log)[id] && log[i].id == id
  {
    if log[|log| - 1].id == id { i := |log| - 1; } else { i := ByIdHolds(log[..|log| - 1], id); }
  }

  // ------------------------------------------------------------------- emits

  /** The emit events of a list, in order. */
  function EmitsIn(es: seq<CausalEvent>): seq<CausalEvent> {
    if es == [] then []
    else
      var e := es[|es| - 1];
      EmitsIn(es[..|es| - 1]) + if e.op == Emit then [e] else []
  }

  function SendCount(tr: seq<Done>): nat {
    if tr == [] then 0 else SendCount(tr[..|tr| - 1]) + if tr[|tr| - 1].DidSend? then 1 else 0
  }

  lemma {:induction false} EmitsBelowAreProjected(log: seq<CausalEvent>, n: nat, a: Name)
    requires n <= |log|
    ensures Positions(log, EmitsBelow(log, n, a))
    ensures Timeline(log, EmitsBelow(log, n, a)) == EmitsIn(Project(log[..n], a))
  {
    hide Timeline, EmitsIn, Project;
    if n == 0 {
      assert Timeline(log, []) == [] == EmitsIn(Project(log[..0], a)) by { NoEmits(log, a); }
    } else {
      EmitsBelowAreProjected(log, n - 1, a);
      assert log[..n] == log[..n - 1] + [log[n - 1]];
      ProjectAppend(log[..n - 1], log[n - 1], a);
      EmitsInAppend(Project(log[..n - 1], a), log[n - 1]);
      TimelineAppend(log, EmitsBelow(log, n - 1, a), n - 1);
    }
  }

  lemma NoEmits(log: seq<CausalEvent>, a: Name)
    ensures Timeline(log, []) == [] == EmitsIn(Project(log[..0], a))
  {}

  lemma EmitsInAppend(es: seq<CausalEvent>, e: CausalEvent)
    ensures EmitsIn(es + [e]) == EmitsIn(es) + if e.op == Emit then [e] else []
  {
    assert (es + [e])[..|es|] == es;
  }

  lemma TimelineAppend(log: seq<CausalEvent>, s: seq<nat>, x: nat)
    requires Positions(log, s) && x < |log|
    ensures Positions(log, s + [x]) && Timeline(log, s + [x]) == Timeline(log, s) + [log[x]]
  {}

  /** Sorting a list that is already strictly sorted changes nothing. */
  lemma {:induction false} SortSorted(log: seq<CausalEvent>, s: seq<nat>)
    requires Positions(log, s) && StrictlyBySeq(log, s)
    ensures SortBySeq(log, s) == s
  {
    hide SortBySeq, StrictlyBySeq;
    if s == [] {
      SortNothing(log);
    } else {
      FrontSorted(log, s);
      SortSorted(log, s[..|s| - 1]);
      SortLast(log, s);
      InsertAtEnd(log, s);
    }
  }

  lemma FrontSorted(log: seq<CausalEvent>, s: seq<nat>)
    requires Positions(log, s) && StrictlyBySeq(log, s) && s != []
    ensures var front := s[..|s| - 1];
      Positions(log, front) && StrictlyBySeq(log, front) && (front != [] ==>
        log[front[|front| - 1]].seqNo <= log[s[|s| - 1]].seqNo)
  {}

  lemma SortNothing(log: seq<CausalEvent>)
    ensures SortBySeq(log, []) == []
  {}

  lemma SortLast(log: seq<CausalEvent>, s: seq<nat>)
    requires Positions(log, s) && s != []
    ensures SortBySeq(log, s) == Insert(log, s[|s| - 1], SortBySeq(log, s[..|s| - 1]))
  {
    hide Insert;
  }

  lemma InsertAtEnd(log: seq<CausalEvent>, s: seq<nat>)
    requires Positions(log, s) && s != []
    requires |s| > 1 ==> log[s[|s| - 2]].seqNo <= log[s[|s| - 1]].seqNo
    ensures Insert(log, s[|s| - 1], s[..|s| - 1]) == s
  {
    var front, x := s[..|s| - 1], s[|s| - 1];
    assert Slot(log, x, front) == |front|;
    assert front[..|front|] + [x] + front[|front|..] == s;
  }

  lemma {:induction false} EmitsInTrace(a: Name, tr: seq<Done>, x: nat)
    requires x < |tr| && tr[x].DidSend?
    ensures SendCount(tr[..x]) < |EmitsIn(EventsOf(a, tr))|
    ensures EmitsIn(EventsOf(a, tr))[SendCount(tr[..x])] == EventsOf(a, tr)[x]
  {
    hide EventId, Mid, Merge, Increment, OnRecv, OnLocal;
    var front := tr[..|tr| - 1];
    var es := EventsOf(a, tr);
    assert es[..|tr| - 1] == EventsOf(a, front);
    if x < |tr| - 1 {
      EmitsInTrace(a, front, x);
      assert front[..x] == tr[..x];
    } else {
      EmitsCounted(a, front);
      assert front == tr[..x];
    }
  }

  lemma {:induction false} EmitsCounted(a: Name, tr: seq<Done>)
    ensures |EmitsIn(EventsOf(a, tr))| == SendCount(tr)
  {
    hide EventId, Mid, Merge, Increment, OnRecv, OnLocal;
    if tr != [] {
      var front := tr[..|tr| - 1];
      assert EventsOf(a, tr)[..|tr| - 1] == EventsOf(a, front);
      EmitsCounted(a, front);
    }
  }

  /** The index lists an actor's recorded sends in the order it made them. */
  lemma EmitsOfTrace(p: Program, w: World, a: Name)
    requires Recording(p, w) && a in p.names
    ensures EmitsOf(w.log, a) == EmitsIn(EventsOf(a, Trace(w, a)))
  {
    hide EventId, Mid, Merge, Increment, TasksOk, MessagesOk, EventsOf, EmitsIn, EmitsBelow, SortBySeq;
    EmitsUnsorted(w.log, a);
    EmitsBelowAreProjected(w.log, |w.log|, a);
    assert w.log[..|w.log|] == w.log;
  }

  lemma EmitsUnsorted(log: seq<CausalEvent>, a: Name)
    requires WellStamped(log)
    ensures EmitsOf(log, a) == Timeline(log, EmitsBelow(log, |log|, a))
  {
    hide WellStamped, SortBySeq;
    var s := EmitPositions(log, a);
    forall i, j | 0 <= i < j < |s| ensures log[s[i]].seqNo < log[s[j]].seqNo { SeqIncreases(log, s[i], s[j]); }
    SortSorted(log, s);
  }

  /** So the `j`-th send of a faithful re-execution gets the id it had. */
  lemma SendRecalled(p: Program, w: World, a: Name, x: nat)
    requires Recording(p, w) && a in p.names && x < |Trace(w, a)| && Trace(w, a)[x].DidSend?
    ensures RecordedId(w.log, a, SendCount(Trace(w, a)[..x]) + 1) == Some(Trace(w, a)[x].env.msgId)
  {
    hide EventId, Mid, Merge, Increment, EmitsOf, TasksOk, WellStamped, LogOk, ParseMid, FitsWidth;
    var tr := Trace(w, a);
    EmitsOfTrace(p, w, a);
    EmitsInTrace(a, tr, x);
    EventsAt(a, tr, x);
    MessagesOf(p, w, a);
    assert w.sentAt[tr[x].env.msgId] == (a, x);
    SentFits(p, w, tr[x].env);
    ParseMidRoundTrip(tr[x].env.msgId);
  }

  /** A send beyond the recorded ones gets none. */
  lemma ExtraSendNotRecalled(p: Program, w: World, a: Name)
    requires Recording(p, w) && a in p.names
    ensures RecordedId(w.log, a, SendCount(Trace(w, a)) + 1) == None
  {
    hide EventId, Mid, EmitsOf, TasksOk, WellStamped, LogOk, ParseMid, MessagesOk;
    EmitsOfTrace(p, w, a);
    EmitsCounted(a, Trace(w, a));
  }

  lemma WorldRecalled(p: Program, w: World)
    requires Recording(p, w)
    ensures EmitsOf(w.log, WORLD) == OriginEvents(w.origins)
  {
    hide EventId, Mid, Merge, Increment, TasksOk, MessagesOk, EmitsBelow, SortBySeq, EmitsOf;
    EmitsUnsorted(w.log, WORLD);
    EmitsBelowAreProjected(w.log, |w.log|, WORLD);
    assert w.log[..|w.log|] == w.log;
    var es := OriginEvents(w.origins);
    if es != [] {
      assert es[..0] == [] && EmitsIn([]) == [];
      assert es == [es[0]];
    }
  }
}
