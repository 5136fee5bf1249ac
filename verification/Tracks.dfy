/** Replay by other code, call by call: which recorded events that code would make too,
    what it means for an actor to be on track, and what every context call keeps. */
module Tracks {
  import opened Names
  import opened Events
  import opened Logs
  import opened Recorder
  import opened Traces
  import opened Recordings
  import opened Graphs
  import opened Posets
  import opened Embedding
  import opened Extensions
  import opened Replays
  import opened Recall
  import opened Simulation
  import opened Fidelity
  import opened Verdict
  import opened Calls

  /** The log that `p` left in `w`, replayed by the code `q` on the stimuli `origins`. */
  datatype Rerun = Rerun(p: Program, w: World, q: Program, origins: seq<(Name, Payload)>, order: seq<nat>)
  {
    ghost predicate Valid() {
      && Recording(p, w) && WORLD !in q.names
      && IsExtension(LogEdges(w.log), |w.log|, order) && Positions(w.log, order)
    }
  }

  lemma Stamped(c: Rerun)
    requires c.Valid()
    ensures WellStamped(c.w.log)
  {
    hide TasksOk, MessagesOk, LogOk, WellStamped, IsExtension, LogEdges, FitsWidth;
  }

  // ------------------------------------------------------------- safe events

  /** The replaying code, given what the actor received, makes the event as it is: its
      history up to and including the event is one that code can have. */
  ghost predicate Kept(c: Rerun, i: nat)
    requires i < |c.w.log|
  {
    var a, n := c.w.log[i].actor, c.w.log[i].seqNo;
    if a == WORLD then Supplied(c.w) <= c.origins
    else a in c.q.names && a in c.w.tasks && n <= |Trace(c.w, a)| && Behave(c.q, a, Trace(c.w, a)[..n]).Some?
  }

  /** So are the event and everything in its causal past. */
  ghost predicate Safe(c: Rerun, i: nat) {
    && i < |c.w.log| && Kept(c, i)
    && forall d: nat | d < |c.w.log| && Reach(LogEdges(c.w.log), d, i) :: Kept(c, d)
  }

  ghost predicate IsAt(c: Rerun, a: Name, n: nat, i: nat) {
    i < |c.w.log| && c.w.log[i].actor == a && c.w.log[i].seqNo == n
  }

  /** `a`'s event number `n` is safe. */
  ghost predicate SafeAt(c: Rerun, a: Name, n: nat) { exists i: nat :: IsAt(c, a, n, i) && Safe(c, i) }

  lemma SafePast(c: Rerun, d: nat, i: nat)
    requires Safe(c, i) && d < |c.w.log| && Reach(LogEdges(c.w.log), d, i)
    ensures Safe(c, d)
  {
    hide Kept, Reach, LogEdges;
    forall e: nat | e < |c.w.log| && Reach(LogEdges(c.w.log), e, d) ensures Kept(c, e) {
      ReachTransitive(LogEdges(c.w.log), e, d, i);
    }
  }

  /** One event per coordinate. */
  lemma SafeHere(c: Rerun, i: nat)
    requires c.Valid() && i < |c.w.log|
    ensures SafeAt(c, c.w.log[i].actor, c.w.log[i].seqNo) <==> Safe(c, i)
  {
    hide Safe, WellStamped, IsExtension, LogEdges, FitsWidth;
    StampedIsBuildable(c.w.log);
    var a, n := c.w.log[i].actor, c.w.log[i].seqNo;
    if j: nat :| IsAt(c, a, n, j) && Safe(c, j) { assert if i < j then true else true; }
    assert IsAt(c, a, n, i);
  }

  /** A safe event in its actor's history, and where the log has it. */
  lemma SafeEntry(c: Rerun, a: Name, n: nat) returns (i: nat)
    requires c.Valid() && SafeAt(c, a, n) && a != WORLD
    ensures IsAt(c, a, n, i) && Safe(c, i)
    ensures a in c.p.names && a in c.q.names && a in c.w.tasks && 1 <= n <= |Trace(c.w, a)|
    ensures c.w.log[i] == EventsOf(a, Trace(c.w, a))[n - 1] && Behave(c.q, a, Trace(c.w, a)[..n]).Some?
  {
    hide Recording, IsExtension, LogEdges, Reach, Behave, EventsOf;
    i :| IsAt(c, a, n, i) && Safe(c, i);
    var x := EntryOf(c.p, c.w, i);
  }

  /** An actor's events before a safe one are safe. */
  lemma SafeBefore(c: Rerun, a: Name, m: nat, n: nat)
    requires c.Valid() && SafeAt(c, a, n) && a != WORLD && 1 <= m <= n
    ensures SafeAt(c, a, m)
  {
    hide Recording, IsExtension, LogEdges, Reach, Behave, EventsOf, Safe, WellStamped;
    Stamped(c);
    if m < n {
      var i := SafeEntry(c, a, n);
      var d := PositionOf(c.p, c.w, a, m - 1);
      LineReaches(c.w.log, d, i);
      SafePast(c, d, i);
      assert IsAt(c, a, m, d);
    }
  }

  // ---------------------------------------------------- actors on and off track

  /** Every safe event of `a` has been re-executed, sends included. */
  ghost predicate Spent(c: Rerun, st: State, a: Name) {
    && (forall n: nat | SafeAt(c, a, n) :: n <= Cut(st, a))
    && (forall x: nat | SafeAt(c, a, x + 1) && a in c.w.tasks && x < |Trace(c.w, a)| && Trace(c.w, a)[x].DidSend? ::
          SendCount(Trace(c.w, a)[..x]) < SendsIn(st, a))
  }

  /** All of `a`'s events are safe, and the replaying code has nothing more to do. */
  ghost predicate Faultless(c: Rerun, a: Name) {
    && a in c.q.names && a in c.w.tasks
    && (forall n: nat | 1 <= n <= |Trace(c.w, a)| :: SafeAt(c, a, n))
    && Behave(c.q, a, Trace(c.w, a)).Some? && Behave(c.q, a, Trace(c.w, a)).value.1 == []
  }

  /** `a` may do anything from here on. */
  ghost predicate Free(c: Rerun, st: State, a: Name) { a != WORLD && Spent(c, st, a) && !Faultless(c, a) }

  ghost predicate Track(c: Rerun, st: State, a: Name, todo: seq<Action>) {
    StateAt(c.q, c.w, st, a, todo) || Free(c, st, a)
  }

  ghost predicate AllTracked(c: Rerun, st: State, started: set<Name>) {
    && st.actors.Keys == c.q.names
    && forall a | a in c.q.names :: if a in started then Track(c, st, a, []) else Unstarted(c.q, st, a)
  }

  /** Actors that only the recording or only the replaying code has are free. */
  lemma StrangerIsFree(c: Rerun, st: State, a: Name)
    requires c.Valid() && (a !in c.w.tasks || a !in c.q.names) && a != WORLD
    ensures Free(c, st, a)
  {
    hide Recording, IsExtension, LogEdges, Behave, Safe, Kept, IsAt, EventsOf;
    forall n: nat ensures !SafeAt(c, a, n) {
      if SafeAt(c, a, n) { var i := SafeEntry(c, a, n); }
    }
  }

  lemma FreeStays(c: Rerun, st: State, next: State, a: Name)
    requires Free(c, st, a) && Cut(st, a) <= Cut(next, a) && SendsIn(st, a) <= SendsIn(next, a)
    ensures Free(c, next, a)
  {
    hide SafeAt, Faultless, Cut, SendsIn, SendCount;
  }

  lemma TrackElsewhere(c: Rerun, st: State, next: State, a: Name, b: Name, todo: seq<Action>)
    requires Track(c, st, b, todo) && SameElsewhere(st, next, a) && b != a
    ensures Track(c, next, b, todo)
  {
    hide SafeAt, Faultless, SendCount, Behave, Stamps;
    if Free(c, st, b) { FreeStays(c, st, next, b); }
  }

  lemma SendCountGrows(tr: seq<Done>, x: nat, y: nat)
    requires x <= y <= |tr|
    ensures SendCount(tr[..x]) <= SendCount(tr[..y])
    ensures x < y && tr[x].DidSend? ==> SendCount(tr[..x]) < SendCount(tr[..y])
  {
    if x < y {
      SendCountGrows(tr, x, y - 1);
      assert tr[..y] == tr[..y - 1] + [tr[y - 1]];
      SendCountAppend(tr[..y - 1], tr[y - 1]);
    }
  }

  /** An actor in its recorded state has made the sends it made. */
  lemma SendsMade(c: Rerun, st: State, a: Name, todo: seq<Action>)
    requires StateAt(c.q, c.w, st, a, todo) && forall n: nat | SafeAt(c, a, n) :: n <= Cut(st, a)
    ensures Spent(c, st, a)
  {
    hide SafeAt, Behave, Stamps, SendCount;
    forall x: nat | SafeAt(c, a, x + 1) && x < |Trace(c.w, a)| && Trace(c.w, a)[x].DidSend?
      ensures SendCount(Trace(c.w, a)[..x]) < SendsIn(st, a)
    {
      SendCountGrows(Trace(c.w, a), x, Cut(st, a));
    }
  }

  /** Where the replaying code leaves the recorded history, everything safe is done. */
  lemma LeavesHistory(c: Rerun, st: State, a: Name, todo: seq<Action>)
    requires c.Valid() && a != WORLD && StateAt(c.q, c.w, st, a, todo)
    requires if Cut(st, a) < |Trace(c.w, a)| then Behave(c.q, a, Trace(c.w, a)[..Cut(st, a) + 1]).None?
             else todo != []
    ensures Free(c, st, a)
  {
    hide Recording, IsExtension, LogEdges, Behave, Safe, IsAt, EventsOf, Stamps, SendCount, SafeAt, Spent;
    var k, tr := Cut(st, a), Trace(c.w, a);
    forall n: nat | SafeAt(c, a, n) ensures n <= k {
      var i := SafeEntry(c, a, n);
      if k < n {
        SafeBefore(c, a, k + 1, n);
        var j := SafeEntry(c, a, k + 1);
        assert false;
      }
    }
    SendsMade(c, st, a, todo);
    assert tr[..|tr|] == tr;
    assert k < |tr| ==> !SafeAt(c, a, k + 1);
  }

  /** The `k`-th emit of a history, in the history. */
  lemma {:induction false} EmitsInTraceBack(a: Name, tr: seq<Done>, k: nat) returns (x: nat)
    requires k < SendCount(tr)
    ensures x < |tr| && tr[x].DidSend? && SendCount(tr[..x]) == k
  {
    var front := tr[..|tr| - 1];
    if k < SendCount(front) {
      x := EmitsInTraceBack(a, front, k);
      assert front[..x] == tr[..x];
    } else {
      x := |tr| - 1;
    }
  }

  /** The index gives a number back to the very send that had it. */
  lemma RecalledSend(p: Program, w: World, a: Name, j: nat) returns (x: nat)
    requires Recording(p, w) && a in p.names && j >= 1 && RecordedId(w.log, a, j).Some?
    ensures a in w.tasks && x < |Trace(w, a)| && Trace(w, a)[x].DidSend? && SendCount(Trace(w, a)[..x]) == j - 1
    ensures Trace(w, a)[x].env.msgId == RecordedId(w.log, a, j).value
  {
    hide TasksOk, MessagesOk, LogOk, WellStamped, EmitsOf, ParseMid, Mid, EventsOf, FitsWidth;
    EmitsOfTrace(p, w, a);
    EmitsCounted(a, Trace(w, a));
    x := EmitsInTraceBack(a, Trace(w, a), j - 1);
    SendRecalled(p, w, a, x);
  }

  /** Only the send that a recorded message was sent by is ever given its number. */
  lemma NumberIsOwn(c: Rerun, st: State, a: Name, env: Envelope)
    requires c.Valid() && a != WORLD && Sent(c.w, env) && Spare(c.w.log, SendsIn(st, a) + 1)
    requires NextMsgId(c.w.log, st, a).1 == env.msgId
    ensures a in c.w.tasks && c.w.sentAt[env.msgId].0 == a && c.w.sentAt[env.msgId].1 < |Trace(c.w, a)|
    ensures SendCount(Trace(c.w, a)[..c.w.sentAt[env.msgId].1]) == SendsIn(st, a)
  {
    hide IsExtension, LogEdges, TasksOk, MessagesOk, LogOk, WellStamped, RecordedId, Key, Mid, EmitsOf, SendLabel,
        SendCount;
    var j := SendsIn(st, a) + 1;
    if RecordedId(c.w.log, a, j).None? {
      SentNumber(c, env);
      ExtraSendApart(c.w.log, st, a, a, env.msg);
      assert false;
    }
    var i := RecordedIdSource(c.w.log, a, j);
    assert a in c.p.names by { LogNames(c, i); }
    var x := RecalledSend(c.p, c.w, a, j);
    MessagesOf(c.p, c.w, a);
    assert TraceMsgs(c.w, a, Trace(c.w, a));
  }

  lemma LogNames(c: Rerun, i: nat)
    requires c.Valid() && i < |c.w.log| && c.w.log[i].actor != WORLD
    ensures c.w.log[i].actor in c.p.names
  {
    hide TasksOk, MessagesOk, WellStamped, IsExtension, LogEdges, EventsOf, Project;
  }

  lemma SentNumber(c: Rerun, env: Envelope)
    requires c.Valid() && Sent(c.w, env)
    ensures IsEmitNumber(c.w.log, env.msgId)
  {
    hide IsExtension, LogEdges, TasksOk, MessagesOk, LogOk, WellStamped, ParseMid, Mid, EventId, FitsWidth;
    var i := SentIsLogged(c.p, c.w, env);
    SentFits(c.p, c.w, env);
    ParseMidRoundTrip(env.msgId);
    assert c.w.log[i].op == Emit && Key(c.w.log[i]) == Some(env.msgId);
  }

  // -------------------------------------------------------------- the invariant

  /** `a`'s entry `x` is a safe receive, still to come after the first `k` events. */
  ghost predicate Expected(c: Rerun, k: nat, a: Name, x: nat) {
    && a in c.w.tasks && x < |Trace(c.w, a)| && Trace(c.w, a)[x].DidRecv? && SafeAt(c, a, x + 1)
    && !Placed(c.w.log, c.order, k, a, x + 1)
  }

  ghost predicate Held(st: State, env: Envelope) { env.msgId in st.pending && st.pending[env.msgId] == env }

  /** What a safe receive to come will need is pending once it has been sent. */
  ghost predicate Awaited(c: Rerun, k: nat, st: State) {
    forall a, x: nat | Expected(c, k, a, x) && Known(c.w, st, Trace(c.w, a)[x].env) :: Held(st, Trace(c.w, a)[x].env)
  }

  /** Exactly the safe receives among the first `k` events have been re-executed. */
  ghost predicate InTime(c: Rerun, k: nat, st: State) {
    forall a, x: nat | a in c.w.tasks && x < |Trace(c.w, a)| && Trace(c.w, a)[x].DidRecv? && SafeAt(c, a, x + 1) ::
      x < Cut(st, a) <==> Placed(c.w.log, c.order, k, a, x + 1)
  }

  /** `a`'s event number `n` has been re-executed as recorded. */
  ghost predicate Made(c: Rerun, st: State, a: Name, n: nat) {
    && EventId(a, n) in st.produced
    && (a != WORLD ==> a in c.w.tasks && 1 <= n <= |Trace(c.w, a)| && EventsOf(a, Trace(c.w, a))[n - 1] in st.made)
  }

  /** Safe events are not complained about, and are made when their turn has come. */
  ghost predicate Accounted(c: Rerun, st: State) {
    forall a, n: nat | SafeAt(c, a, n) ::
      Unnamed(st.divergences, EventId(a, n)) && (a == WORLD || n <= Cut(st, a) ==> Made(c, st, a, n))
  }

  /** Nothing at all is said about a faultless actor. */
  ghost predicate Blameless(c: Rerun, st: State) {
    && (forall a, n: nat | Faultless(c, a) :: Unnamed(st.divergences, EventId(a, n)))
    && (forall a, j: nat | Faultless(c, a) :: Unnamed(st.divergences, SendLabel(a, j)))
  }

  ghost predicate Tame(c: Rerun, k: nat, st: State) {
    InTime(c, k, st) && Awaited(c, k, st) && Accounted(c, st) && Blameless(c, st)
  }

  lemma StimulusPrecedes(c: Rerun, a: Name, x: nat, j: nat)
    requires c.Valid() && a in c.w.tasks && x < |Trace(c.w, a)| && Trace(c.w, a)[x].DidRecv?
    requires j < |c.w.log| && c.w.log[j] == EventsOf(a, Trace(c.w, a))[x] && Safe(c, j)
    requires Sent(c.w, Trace(c.w, a)[x].env) && c.w.sentAt[Trace(c.w, a)[x].env.msgId].0 == WORLD
    ensures c.w.sentAt[Trace(c.w, a)[x].env.msgId].1 == 0 && SafeAt(c, WORLD, 1)
  {
    hide IsExtension, LogEdges, TasksOk, LogOk, MessagesOk, WellStamped, Mid, EventId, Kept, EventsOf, Reach, FitsWidth,
        Safe, Stamps;
    var i := SentIsLogged(c.p, c.w, Trace(c.w, a)[x].env);
    WorldEntry(c.p, c.w, i);
    EventsAt(a, Trace(c.w, a), x);
    LogEdge(c.w.log, i, j);
    EdgeReaches(LogEdges(c.w.log), i, j);
    SafePast(c, i, j);
    assert IsAt(c, WORLD, 1, i);
  }

  /** The message of a safe receive, and its sender. */
  lemma SafeMessage(c: Rerun, a: Name, x: nat)
    requires c.Valid() && a in c.w.tasks && x < |Trace(c.w, a)| && Trace(c.w, a)[x].DidRecv? && SafeAt(c, a, x + 1)
    requires a != WORLD
    ensures var env := Trace(c.w, a)[x].env; At(c.w, env, Received(a, x)) && Sent(c.w, env)
    ensures var (b, y) := c.w.sentAt[Trace(c.w, a)[x].env.msgId];
      SafeAt(c, b, y + 1) && (b != WORLD ==> b in c.w.tasks && y < |Trace(c.w, b)|)
  {
    hide IsExtension, LogEdges, TasksOk, LogOk, MessagesOk, WellStamped, Mid, EventId, Kept, EventsOf, Reach, FitsWidth;
    var j := SafeEntry(c, a, x + 1);
    MessagesOf(c.p, c.w, a);
    var env := Trace(c.w, a)[x].env;
    assert At(c.w, env, Received(a, x)) && Sent(c.w, env);
    var (b, y) := c.w.sentAt[env.msgId];
    if b == WORLD {
      StimulusPrecedes(c, a, x, j);
    } else {
      var i := PositionOf(c.p, c.w, b, y);
      EmitPrecedes(c.p, c.w, a, x, b, y, env, i, j);
      SafePast(c, i, j);
      assert IsAt(c, b, y + 1, i);
    }
  }

  // ------------------------------------------------- a call of a free actor

  lemma FreeInTime(c: Rerun, k: nat, st: State, next: State, a: Name)
    requires InTime(c, k, st) && Spent(c, st, a) && Cut(st, a) <= Cut(next, a)
    requires forall b | b != a :: Cut(next, b) == Cut(st, b)
    ensures InTime(c, k, next)
  {
    hide SafeAt, Placed, Cut, SendsIn;
  }

  /** A free actor cannot touch what a safe receive still needs. */
  lemma FreeAwaited(c: Rerun, k: nat, st: State, a: Name, act: Action)
    requires c.Valid() && Awaited(c, k, st) && Free(c, st, a) && Room(c.w.log, Act(c.w.log, st, a, act))
    ensures Awaited(c, k, Act(c.w.log, st, a, act))
  {
    hide Recording, IsExtension, LogEdges, SafeAt, Placed, Cut, SendsIn, Act, Faultless, NextMsgId, Spare, Sent,
        SendCount;
    var next := Act(c.w.log, st, a, act);
    ActMoves(c.w.log, st, a, act);
    CutElsewhere(st, next, a);
    forall b, x: nat | Expected(c, k, b, x) && Known(c.w, next, Trace(c.w, b)[x].env)
      ensures Held(next, Trace(c.w, b)[x].env)
    {
      var env := Trace(c.w, b)[x].env;
      InTasks(c, b);
      SafeMessage(c, b, x);
      assert Known(c.w, st, env);
      if act.Send? && NextMsgId(c.w.log, st, a).1 == env.msgId {
        assert Spare(c.w.log, SendsIn(next, a));
        NumberIsOwn(c, st, a, env);
        SentEntry(c, a, env);
        assert false;
      }
    }
  }

  lemma InTasks(c: Rerun, a: Name)
    requires c.Valid()
    ensures a in c.w.tasks <==> a in c.p.names
    ensures a in c.w.tasks ==> a != WORLD
  {
    hide MessagesOk, LogOk, WellStamped, IsExtension, LogEdges, FitsWidth;
  }

  lemma SentEntry(c: Rerun, a: Name, env: Envelope)
    requires c.Valid() && Sent(c.w, env) && a in c.w.tasks && c.w.sentAt[env.msgId].0 == a
    ensures c.w.sentAt[env.msgId].1 < |Trace(c.w, a)| && Trace(c.w, a)[c.w.sentAt[env.msgId].1] == DidSend(env)
  {
    hide Recording, IsExtension, LogEdges;
    InTasks(c, a);
  }

  lemma FreeAccounted(c: Rerun, st: State, next: State, a: Name)
    requires Accounted(c, st) && Blameless(c, st) && Free(c, st, a) && Moves(st, next, a)
    ensures Accounted(c, next) && Blameless(c, next)
  {
    hide SafeAt, Faultless, Cut, SendsIn, EventId, SendLabel, SendCount, Unnamed, SameElsewhere, EventsOf;
    assert forall b | b != a :: Cut(next, b) == Cut(st, b) by { CutElsewhere(st, next, a); }
    var n0, j0 := Cut(st, a) + 1, SendsIn(st, a) + 1;
    forall b, n: nat | SafeAt(c, b, n)
      ensures Unnamed(next.divergences, EventId(b, n)) && (b == WORLD || n <= Cut(next, b) ==> Made(c, next, b, n))
    {
      assert Unnamed(st.divergences, EventId(b, n));
      SendLabelApart(a, j0, b, n);
      if EventId(b, n) == EventId(a, n0) { EventIdInjective(b, n, a, n0); }
    }
    forall b, n: nat | Faultless(c, b) ensures Unnamed(next.divergences, EventId(b, n)) {
      assert Unnamed(st.divergences, EventId(b, n));
      SendLabelApart(a, j0, b, n);
      if EventId(b, n) == EventId(a, n0) { EventIdInjective(b, n, a, n0); }
    }
    forall b, j: nat | Faultless(c, b) ensures Unnamed(next.divergences, SendLabel(b, j)) {
      assert Unnamed(st.divergences, SendLabel(b, j));
      SendLabelApart(b, j, a, n0);
      SendLabelApart(b, j, a, j0);
    }
  }

  lemma CutElsewhere(st: State, next: State, a: Name)
    requires SameElsewhere(st, next, a)
    ensures forall b | b != a :: Cut(next, b) == Cut(st, b)
  {}

  lemma FreeActs(c: Rerun, k: nat, st: State, a: Name, act: Action)
    requires c.Valid() && Tame(c, k, st) && Free(c, st, a) && Room(c.w.log, Act(c.w.log, st, a, act))
    ensures var next := Act(c.w.log, st, a, act); Tame(c, k, next) && Free(c, next, a)
  {
    hide Rerun.Valid, InTime, Awaited, Accounted, Blameless, Faultless, Spent, Act, Room, Cut, SendsIn, SameElsewhere;
    var next := Act(c.w.log, st, a, act);
    ActMoves(c.w.log, st, a, act);
    CutElsewhere(st, next, a);
    FreeInTime(c, k, st, next, a);
    FreeAwaited(c, k, st, a, act);
    FreeAccounted(c, st, next, a);
    FreeStays(c, st, next, a);
  }

  // -------------------------------------------- a call of an actor on track

  /** The call is the recorded one: the history grows by its entry, nothing is said. */
  ghost predicate Advances(c: Rerun, st: State, next: State, a: Name) {
    && a in c.w.tasks && Cut(st, a) < |Trace(c.w, a)|
    && next.divergences == st.divergences && st.made <= next.made
    && next.produced == st.produced + {EventId(a, Cut(st, a) + 1)}
    && EventsOf(a, Trace(c.w, a))[Cut(st, a)] in next.made
    && Cut(next, a) == Cut(st, a) + 1 && SameElsewhere(st, next, a)
  }

  lemma AdvanceAccounted(c: Rerun, st: State, next: State, a: Name)
    requires Accounted(c, st) && Blameless(c, st) && Advances(c, st, next, a)
    ensures Accounted(c, next) && Blameless(c, next)
  {
    hide SafeAt, Faultless, Cut, EventId, SendLabel, Unnamed, SameElsewhere, EventsOf;
    CutElsewhere(st, next, a);
    forall b, n: nat | SafeAt(c, b, n)
      ensures Unnamed(next.divergences, EventId(b, n)) && (b == WORLD || n <= Cut(next, b) ==> Made(c, next, b, n))
    {
      assert Unnamed(st.divergences, EventId(b, n));
    }
  }

  lemma CallInTime(c: Rerun, k: nat, st: State, next: State, a: Name)
    requires InTime(c, k, st) && Advances(c, st, next, a) && !Trace(c.w, a)[Cut(st, a)].DidRecv?
    ensures InTime(c, k, next)
  {
    hide SafeAt, Placed, Cut, EventId, SameElsewhere, EventsOf;
    CutElsewhere(st, next, a);
  }

  lemma CallAwaited(c: Rerun, k: nat, st: State, next: State, a: Name)
    requires c.Valid() && Awaited(c, k, st) && Advances(c, st, next, a) && !Trace(c.w, a)[Cut(st, a)].DidRecv?
    requires match Trace(c.w, a)[Cut(st, a)]
             case DidSend(env) => next.pending == st.pending[env.msgId := env]
             case _ => next.pending == st.pending
    ensures Awaited(c, k, next)
  {
    hide Recording, IsExtension, LogEdges, SafeAt, Placed, Cut, EventId, SameElsewhere, EventsOf, Sent;
    CutElsewhere(st, next, a);
    var x0, d := Cut(st, a), Trace(c.w, a)[Cut(st, a)];
    forall b, x: nat | Expected(c, k, b, x) && Known(c.w, next, Trace(c.w, b)[x].env)
      ensures Held(next, Trace(c.w, b)[x].env)
    {
      var env := Trace(c.w, b)[x].env;
      InTasks(c, b);
      SafeMessage(c, b, x);
      if !Known(c.w, st, env) {
        SentEntry(c, a, env);
        assert d == DidSend(env);
      } else if d.DidSend? && d.env.msgId == env.msgId {
        JustThis(c, a, x0);
        SentEntry(c, a, env);
      }
    }
  }

  lemma JustThis(c: Rerun, a: Name, x: nat)
    requires c.Valid() && a in c.w.tasks && x < |Trace(c.w, a)| && Trace(c.w, a)[x].DidSend?
    ensures Trace(c.w, a)[x].env.msgId in c.w.sentAt && c.w.sentAt[Trace(c.w, a)[x].env.msgId] == (a, x)
  {
    hide TasksOk, LogOk, MessagesOk, WellStamped, IsExtension, LogEdges, FitsWidth;
    InTasks(c, a);
    MessagesOf(c.p, c.w, a);
  }

  lemma WorkAdvances(c: Rerun, st: State, a: Name, todo: seq<Action>)
    requires c.Valid() && a in c.p.names && StateAt(c.q, c.w, st, a, todo) && todo != [] && todo[0].Work?
    requires Cut(st, a) < |Trace(c.w, a)| && Behave(c.q, a, Trace(c.w, a)[..Cut(st, a) + 1]).Some?
    ensures var next := Act(c.w.log, st, a, todo[0]);
      && Advances(c, st, next, a) && StateAt(c.q, c.w, next, a, todo[1..])
      && Trace(c.w, a)[Cut(st, a)].DidWork? && next.pending == st.pending
  {
    hide Recording, IsExtension, LogEdges, Act, Stamps, Behave, EventsOf, EventId, SendCount;
    Resume(c.p, c.w, c.q, st, a, todo);
    ActWork(c.p, c.w, c.q, st, a, todo);
  }

  lemma SendAdvances(c: Rerun, st: State, a: Name, todo: seq<Action>)
    requires c.Valid() && a in c.p.names && StateAt(c.q, c.w, st, a, todo) && todo != [] && todo[0].Send?
    requires Cut(st, a) < |Trace(c.w, a)| && Behave(c.q, a, Trace(c.w, a)[..Cut(st, a) + 1]).Some?
    ensures var next := Act(c.w.log, st, a, todo[0]);
      && Advances(c, st, next, a) && StateAt(c.q, c.w, next, a, todo[1..])
      && Trace(c.w, a)[Cut(st, a)].DidSend?
      && next.pending == st.pending[Trace(c.w, a)[Cut(st, a)].env.msgId := Trace(c.w, a)[Cut(st, a)].env]
  {
    hide Recording, IsExtension, LogEdges, Act, Stamps, Behave, EventsOf, EventId, SendCount;
    Resume(c.p, c.w, c.q, st, a, todo);
    ActSend(c.p, c.w, c.q, st, a, todo);
  }

  lemma TrackActs(c: Rerun, k: nat, st: State, a: Name, todo: seq<Action>)
    requires c.Valid() && Tame(c, k, st) && a in c.p.names && StateAt(c.q, c.w, st, a, todo) && todo != []
    requires Cut(st, a) < |Trace(c.w, a)| && Behave(c.q, a, Trace(c.w, a)[..Cut(st, a) + 1]).Some?
    ensures var next := Act(c.w.log, st, a, todo[0]);
      Tame(c, k, next) && StateAt(c.q, c.w, next, a, todo[1..]) && SameElsewhere(st, next, a)
  {
    hide Rerun.Valid, InTime, Awaited, Accounted, Blameless, Act, StateAt, Behave, EventsOf, EventId, SameElsewhere;
    var next := Act(c.w.log, st, a, todo[0]);
    if todo[0].Work? { WorkAdvances(c, st, a, todo); } else { SendAdvances(c, st, a, todo); }
    AdvanceAccounted(c, st, next, a);
    CallInTime(c, k, st, next, a);
    CallAwaited(c, k, st, next, a);
  }

  // --------------------------------------------------------------- one handler

  lemma ActTame(c: Rerun, k: nat, st: State, a: Name, todo: seq<Action>)
    requires c.Valid() && Tame(c, k, st) && a != WORLD && Track(c, st, a, todo) && todo != []
    requires Room(c.w.log, Act(c.w.log, st, a, todo[0]))
    ensures var next := Act(c.w.log, st, a, todo[0]);
      Tame(c, k, next) && Track(c, next, a, todo[1..]) && SameElsewhere(st, next, a)
  {
    hide Tame, StateAt, Free, Act, Behave, Room, SameElsewhere;
    ActMoves(c.w.log, st, a, todo[0]);
    if !Free(c, st, a) {
      Bounded(c.q, c.w, st, a, todo);
      if Cut(st, a) < |Trace(c.w, a)| && Behave(c.q, a, Trace(c.w, a)[..Cut(st, a) + 1]).Some? {
        InTasks(c, a);
        TrackActs(c, k, st, a, todo);
      } else {
        LeavesHistory(c, st, a, todo);
      }
    }
    if Free(c, st, a) { FreeActs(c, k, st, a, todo[0]); }
  }

  lemma {:induction false} ActAllTame(c: Rerun, k: nat, st: State, a: Name, todo: seq<Action>)
    requires c.Valid() && Tame(c, k, st) && a != WORLD && Track(c, st, a, todo)
    requires Room(c.w.log, ActAll(c.w.log, st, a, todo))
    ensures var next := ActAll(c.w.log, st, a, todo);
      Tame(c, k, next) && Track(c, next, a, []) && SameElsewhere(st, next, a)
    decreases |todo|
  {
    hide Rerun.Valid, Tame, Track, Act, Room, SendsIn;
    if todo != [] {
      var mid := Act(c.w.log, st, a, todo[0]);
      forall b ensures SendsIn(mid, b) <= SendsIn(ActAll(c.w.log, mid, a, todo[1..]), b) {
        ActAllGrows(c.w.log, mid, a, todo[1..], b);
      }
      RoomBefore(c.w.log, mid, ActAll(c.w.log, mid, a, todo[1..]));
      ActTame(c, k, st, a, todo);
      ActAllTame(c, k, mid, a, todo[1..]);
      ElsewhereTwice(st, mid, ActAll(c.w.log, mid, a, todo[1..]), a);
    }
  }
}
