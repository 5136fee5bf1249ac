/** Why the drift theorem leaves out snapshots with numbers drawn and not yet logged. */
module Gaps {
  import opened Names
  import opened Clocks
  import opened Events
  import opened Logs
  import opened Recorder
  import opened Traces
  import opened Recordings
  import opened Quiescence
  import opened Posets
  import opened Extensions
  import opened Engine
  import opened Replays
  import opened Recall
  import opened Fidelity
  import opened Histories
  import opened Drift
  import opened Ownership
  import opened Runs
  import opened Runtime
  import opened Lockstep

  /** Three actors whose hooks each send one message, and the same with two of the
      hooks silenced. */
  function Senders(u: UserState, m: Payload, loud: set<Name>): Program {
    Program({"a", "b", "c"}, (_: Name) => u,
            (n: Name, s: UserState) => (s, if n in loud then [Send("a", m)] else []),
            (_: Name, s: UserState, _: Payload) => (s, []))
  }

  function Loud(): set<Name> { {"a", "b", "c"} }

  lemma SendersFit(u: UserState, m: Payload, loud: set<Name>)
    ensures Senders(u, m, loud).WellFormed() && Senders(u, m, loud).names == {"a", "b", "c"}
  {}

  /** A hook runs up to the drawing of its message's number. */
  lemma HookDraws(u: UserState, m: Payload, ls: seq<Label>, w: World, a: Name) returns (v: World)
    requires var p := Senders(u, m, Loud()); Exec(p, Init(p), ls) == Some(w)
    requires a in Loud() && a in w.tasks && w.tasks[a] == Task(u, ZERO, Fresh, [], false, [])
    ensures var p := Senders(u, m, Loud()); Exec(p, Init(p), ls + [TaskMove(a)] + [TaskMove(a)]) == Some(v)
    ensures v.nextId == w.nextId + 1 && v.log == w.log && v.origins == w.origins && v.main == w.main
    ensures var s := OnLocal(ZERO, a);
      v.tasks == w.tasks[a := Task(u, s, Identified(Outgoing(a, s, w.nextId + 1, "a", m)), [], false, [])]
  {
    hide Exec, Init, OnLocal, StepTask;
    var p := Senders(u, m, Loud());
    var x := Begin(p, w, a, w.tasks[a]);
    BeginsWith(p, w, a);
    ExecMore(p, ls, w, TaskMove(a), x);
    v := DrawId(x, a, x.tasks[a], "a", m);
    assert [Send("a", m)][1..] == [];
    StepOf(p, x, a);
    ExecMore(p, ls + [TaskMove(a)], x, TaskMove(a), v);
    assert v.tasks == w.tasks[a := v.tasks[a]];
  }

  /** Numbers drawn, and actions that may still draw one. */
  function Left(q: Program, a: Name, t: Task): nat {
    match t.phase case Fresh => |q.start(a, t.user).1| case Aborted(_) => 0 case _ => |t.todo|
  }

  ghost predicate FewNumbers(q: Program, v: World) {
    && v.tasks.Keys == {"a", "b", "c"}
    && v.nextId + Left(q, "a", v.tasks["a"]) + Left(q, "b", v.tasks["b"]) + Left(q, "c", v.tasks["c"])
       <= 1 + |v.origins| + if v.main.Drawn? then 1 else 0
  }

  lemma LeftTask(u: UserState, m: Payload, v: World, v2: World, a: Name)
    requires var q := Senders(u, m, {"b"}); a in v.tasks && StepTask(q, v, a) == Some(v2)
    ensures var q := Senders(u, m, {"b"});
      a in v2.tasks && v2.nextId + Left(q, a, v2.tasks[a]) <= v.nextId + Left(q, a, v.tasks[a])
  {
    hide StepTask, Left;
    var q := Senders(u, m, {"b"});
    match v.tasks[a].phase
    case Acting => LeftActing(q, v, v2, a);
    case Popped(_) => LeftReceived(u, m, v, v2, a);
    case Fresh => LeftBegun(q, v, v2, a);
    case Aborted(_) => AbortedIsStuck(q, v, a);
    case _ => LeftElsewhere(q, v, v2, a);
  }

  lemma LeftActing(q: Program, v: World, v2: World, a: Name)
    requires a in v.tasks && StepTask(q, v, a) == Some(v2) && v.tasks[a].phase.Acting?
    ensures a in v2.tasks && v2.nextId + Left(q, a, v2.tasks[a]) <= v.nextId + Left(q, a, v.tasks[a])
  {
    hide OnLocal, ComputeEvent, StepTask;
    StepOf(q, v, a);
    if v.tasks[a].todo == [] {
      LeftEnded(q, v, a);
    }
  }

  lemma LeftEnded(q: Program, v: World, a: Name)
    requires a in v.tasks && v.tasks[a].phase.Acting? && v.tasks[a].todo == []
    ensures Left(q, a, CountDown(v, a, v.tasks[a], false).tasks[a]) == 0
    ensures Left(q, a, EndStarted(v, a, v.tasks[a]).tasks[a]) == 0
    ensures CountDown(v, a, v.tasks[a], false).nextId == EndStarted(v, a, v.tasks[a]).nextId == v.nextId
  {}

  lemma LeftReceived(u: UserState, m: Payload, v: World, v2: World, a: Name)
    requires var q := Senders(u, m, {"b"}); a in v.tasks && StepTask(q, v, a) == Some(v2) && v.tasks[a].phase.Popped?
    ensures var q := Senders(u, m, {"b"});
      a in v2.tasks && v2.nextId + Left(q, a, v2.tasks[a]) <= v.nextId + Left(q, a, v.tasks[a])
  {
    hide RecvEvent;
  }

  lemma LeftBegun(q: Program, v: World, v2: World, a: Name)
    requires a in v.tasks && StepTask(q, v, a) == Some(v2) && v.tasks[a].phase.Fresh?
    ensures a in v2.tasks && v2.nextId + Left(q, a, v2.tasks[a]) <= v.nextId + Left(q, a, v.tasks[a])
  {}

  lemma LeftElsewhere(q: Program, v: World, v2: World, a: Name)
    requires a in v.tasks && StepTask(q, v, a) == Some(v2)
    requires var f := v.tasks[a].phase; !f.Acting? && !f.Popped? && !f.Fresh? && !f.Aborted?
    ensures a in v2.tasks && v2.nextId + Left(q, a, v2.tasks[a]) <= v.nextId + Left(q, a, v.tasks[a])
  {
    hide OnRecv, EmitEvent, Left;
    SameTodo(q, v, v2, a);
    LeftSame(q, a, v.tasks[a], v2.tasks[a]);
  }

  lemma SameTodo(q: Program, v: World, v2: World, a: Name)
    requires a in v.tasks && StepTask(q, v, a) == Some(v2)
    requires var f := v.tasks[a].phase; !f.Acting? && !f.Popped? && !f.Fresh? && !f.Aborted?
    ensures a in v2.tasks && v2.nextId == v.nextId && v2.tasks[a].todo == v.tasks[a].todo
    ensures !v2.tasks[a].phase.Fresh? && !v2.tasks[a].phase.Aborted?
  {
    match v.tasks[a].phase
    case Idle => TodoPopped(q, v, v2, a);
    case Identified(_) => TodoEmitted(q, v, v2, a);
    case Counted(_) => TodoDelivered(q, v, v2, a);
    case Recorded(_) =>
    case Undoing =>
    case Waking(_) =>
  }

  lemma TodoPopped(q: Program, v: World, v2: World, a: Name)
    requires a in v.tasks && StepTask(q, v, a) == Some(v2) && v.tasks[a].phase.Idle?
    ensures a in v2.tasks && v2.nextId == v.nextId && v2.tasks[a].todo == v.tasks[a].todo
    ensures !v2.tasks[a].phase.Fresh? && !v2.tasks[a].phase.Aborted?
  {
    hide OnRecv;
  }

  lemma TodoEmitted(q: Program, v: World, v2: World, a: Name)
    requires a in v.tasks && StepTask(q, v, a) == Some(v2) && v.tasks[a].phase.Identified?
    ensures a in v2.tasks && v2.nextId == v.nextId && v2.tasks[a].todo == v.tasks[a].todo
    ensures !v2.tasks[a].phase.Fresh? && !v2.tasks[a].phase.Aborted?
  {
    hide EmitEvent;
  }

  lemma TodoDelivered(q: Program, v: World, v2: World, a: Name)
    requires a in v.tasks && StepTask(q, v, a) == Some(v2) && v.tasks[a].phase.Counted?
    ensures a in v2.tasks && v2.nextId == v.nextId && v2.tasks[a].todo == v.tasks[a].todo
    ensures !v2.tasks[a].phase.Fresh? && !v2.tasks[a].phase.Aborted?
  {}

  lemma LeftSame(q: Program, a: Name, t: Task, s: Task)
    requires s.todo == t.todo && !s.phase.Fresh? && !s.phase.Aborted? && !t.phase.Fresh? && !t.phase.Aborted?
    ensures Left(q, a, s) == Left(q, a, t)
  {}

  lemma FewAfter(u: UserState, m: Payload, v: World, l: Label, v2: World)
    requires var q := Senders(u, m, {"b"}); FewNumbers(q, v) && Next(q, v, l) == Some(v2)
    ensures FewNumbers(Senders(u, m, {"b"}), v2)
  {
    hide StepTask, StepMain, OnLocal, Left;
    var q := Senders(u, m, {"b"});
    match l
    case TaskMove(a) =>
      LeftTask(u, m, v, v2, a);
      StepExtends(q, v, v2, a);
      StepKeepsMain(q, v, v2, a);
    case MainMove => FewMain(q, v, v2);
    case Origin(_, _) =>
    case Abort(a) => LeftAborted(q, a, v.tasks[a], v2.tasks[a]);
  }

  lemma LeftAborted(q: Program, a: Name, t: Task, s: Task)
    requires s.phase.Aborted?
    ensures Left(q, a, s) <= Left(q, a, t)
  {}

  lemma MainNumber(x: World, y: World)
    requires StepMain(x) == Some(y)
    ensures y.nextId == x.nextId && !y.main.Drawn?
  {
    hide EmitEvent;
  }

  lemma FewMain(q: Program, v: World, v2: World)
    requires FewNumbers(q, v) && StepMain(v) == Some(v2)
    ensures FewNumbers(q, v2)
  {
    hide StepMain, Left;
    MainHistory(v, v2);
    MainNumber(v, v2);
  }

  lemma {:induction false} FewAlways(u: UserState, m: Payload, ls: seq<Label>, v: World)
    requires var q := Senders(u, m, {"b"}); Exec(q, Init(q), ls) == Some(v)
    ensures FewNumbers(Senders(u, m, {"b"}), v)
  {
    hide Next, FewNumbers;
    var q := Senders(u, m, {"b"});
    if ls == [] {
      FewAtFirst(u, m);
    } else {
      var x := Exec(q, Init(q), ls[..|ls| - 1]).value;
      FewAlways(u, m, ls[..|ls| - 1], x);
      FewAfter(u, m, x, ls[|ls| - 1], v);
    }
  }

  lemma FewAtFirst(u: UserState, m: Payload)
    ensures var q := Senders(u, m, {"b"}); FewNumbers(q, Init(q))
  {}

  /** Two hooks draw the numbers 1 and 2, the third draws 3 and logs its send. */
  lemma GapRun(u: UserState, m: Payload) returns (w: World, env: Envelope)
    ensures Reachable(Senders(u, m, Loud()), w) && w.origins == []
    ensures "a" in w.tasks && w.tasks["a"].phase.Identified?
    ensures w.log == [EmitEvent("b", 1, env)] && env == Outgoing("b", OnLocal(ZERO, "b"), 3, "a", m)
  {
    hide OnLocal, Exec, Init, EmitEvent, StepTask;
    var p := Senders(u, m, Loud());
    var w0 := Init(p);
    assert Exec(p, Init(p), []) == Some(w0) by { ExecNothing(p); }
    InitTasks(u, m);
    var w1 := HookDraws(u, m, [], w0, "a");
    var ls1 := [] + [TaskMove("a")] + [TaskMove("a")];
    var w2 := HookDraws(u, m, ls1, w1, "c");
    var ls2 := ls1 + [TaskMove("c")] + [TaskMove("c")];
    var w3 := HookDraws(u, m, ls2, w2, "b");
    var ls3 := ls2 + [TaskMove("b")] + [TaskMove("b")];
    env := w3.tasks["b"].phase.env;
    StepOf(p, w3, "b");
    w := LogEmit(w3, "b", w3.tasks["b"], env);
    ExecMore(p, ls3, w3, TaskMove("b"), w);
    assert Reachable(p, w);
    OneStamp();
  }

  /** A snapshot in which two numbers are drawn but not logged can be explained by code
      that has no run leaving its log: there the third number would be out of reach. */
  lemma GapInNumbers(u: UserState, m: Payload) returns (p: Program, w: World, q: Program)
    ensures OneOrigin(p, w) && FitsWidth(w.log) && w.origins == [] && !NoDraws(w) && q.WellFormed()
        && q.names == p.names
    ensures forall order: seq<nat> | IsExtension(LogEdges(w.log), |w.log|, order) && Positions(w.log, order) ::
              Replay(q, w.log, Timeline(w.log, order), SuppliedAs(w, [])).divergences == []
    ensures !exists v :: CompleteRun(q, v, w.log, [])
  {
    hide Replay, OnLocal, Reachable, EmitEvent, LogEdges, IsExtension, SuppliedAs, CompleteRun, FitsWidth, Explains,
        Senders,
        Recording, Program.Addressed;
    p, q := Senders(u, m, Loud()), Senders(u, m, {"b"});
    SendersFit(u, m, Loud());
    SendersFit(u, m, {"b"});
    var env;
    w, env := GapRun(u, m);
    var e := EmitEvent("b", 1, env);
    OneFits(e, env);
    var past := GapExplained(u, m, e, env);
    ReachedRecording(p, w);
    forall order: seq<nat> | IsExtension(LogEdges(w.log), |w.log|, order) && Positions(w.log, order)
      ensures Replay(q, w.log, Timeline(w.log, order), SuppliedAs(w, [])).divergences == []
    {
      ExplainedIsFaithful(p, w, q, [], past, order);
    }
    forall v ensures !CompleteRun(q, v, w.log, []) { OutOfReach(u, m, v, e, env); }
  }

  lemma ExecNothing(p: Program)
    ensures Exec(p, Init(p), []) == Some(Init(p))
  {}

  lemma InitTasks(u: UserState, m: Payload)
    ensures var w := Init(Senders(u, m, Loud()));
      && w.tasks.Keys == Loud() && w.nextId == 0 && w.log == [] && w.origins == [] && !w.main.Drawn?
      && forall a | a in Loud() :: w.tasks[a] == Task(u, ZERO, Fresh, [], false, [])
  {}

  lemma OneStamp()
    ensures OnLocal(ZERO, "b").seqNo == 1
  {}

  lemma OneFits(e: CausalEvent, env: Envelope)
    requires e == EmitEvent("b", 1, env) && env.msgId == 3
    ensures FitsWidth([e])
  {
    hide EventId, Mid;
    forall id: nat | e.msgId == Some(Mid(id)) ensures id <= U64_MAX { MidInjective(id, 3); }
  }

  lemma ReachedRecording(p: Program, w: World)
    requires OneOrigin(p, w) && FitsWidth(w.log)
    ensures Recording(p, w)
  {
    hide Inv, Reachable, FitsWidth;
    RunStamped(p, w);
  }

  lemma GapExplained(u: UserState, m: Payload, e: CausalEvent, env: Envelope) returns (past: Past)
    requires env == Outgoing("b", OnLocal(ZERO, "b"), 3, "a", m) && e == EmitEvent("b", 1, env)
    ensures Explains(Senders(u, m, {"b"}), [e], [], past)
  {
    hide EventId, Mid, Increment, EventsOf, Behave, Stamps, Project;
    var q := Senders(u, m, {"b"});
    past := map["a" := [], "b" := [DidSend(env)], "c" := []];
    NoHistory(q, "a");
    NoHistory(q, "b");
    NoHistory(q, "c");
    TraceAppend(q, "b", [], DidSend(env));
    assert [] + [DidSend(env)] == [DidSend(env)] && [] + [e] == [e];
    forall a ensures Project([e], a) == if a == "b" then [e] else [] { NoLog(a); ProjectAppend([], e, a); }
  }

  lemma NoHistory(q: Program, a: Name)
    ensures EventsOf(a, []) == [] && Stamps(a, []) == ZERO && Behave(q, a, []) == Some(q.start(a, q.init(a)))
  {}

  lemma NoLog(a: Name)
    ensures Project([], a) == []
  {}

  lemma OutOfReach(u: UserState, m: Payload, v: World, e: CausalEvent, env: Envelope)
    requires e == EmitEvent("b", 1, env) && env.msgId == 3
    ensures !CompleteRun(Senders(u, m, {"b"}), v, [e], [])
  {
    hide Inv, AllClear, Mid, EventId, Exec, Init, Next;
    var q := Senders(u, m, {"b"});
    if CompleteRun(q, v, [e], []) {
      var ls: seq<Label> :| Exec(q, Init(q), ls) == Some(v);
      FewAlways(u, m, ls, v);
      ReachableInv(q, v);
      LoggedNumber(q, v, 0, 3);
    }
  }

  lemma LoggedNumber(q: Program, v: World, i: nat, id: nat)
    requires Inv(q, v) && i < |v.log| && v.log[i].op == Emit && v.log[i].msgId == Some(Mid(id))
    ensures id <= v.nextId
  {
    hide TasksOk, LogOk, WellStamped, Mid;
    LoggedIsSent(q, v, i);
    var other: nat :| other in v.sentAt && v.log[i].msgId == Some(Mid(other)) && v.sentAt[other].0 == v.log[i].actor;
    MidInjective(id, other);
  }
}
