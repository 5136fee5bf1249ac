/** The in-flight counter, the permit and the check-then-wait loop. */
module Quiescence {
  import opened Names
  import opened Events
  import opened Recorder
  import opened Recordings

  // ------------------------------------------------------------------- sums

  ghost function Total(m: map<Name, nat>): nat
    decreases |m|
  {
    if m == map[] then 0
    else
      var k := LeastName(m.Keys);
      assert |m - {k}| < |m| by { assert (m - {k}).Keys == m.Keys - {k}; }
      m[k] + Total(m - {k})
  }

  lemma {:induction false} TotalSplit(m: map<Name, nat>, a: Name)
    requires a in m
    ensures Total(m) == m[a] + Total(m - {a})
    decreases |m|
  {
    var k := LeastName(m.Keys);
    if k != a {
      assert |m - {k}| < |m| && |m - {a}| < |m| by {
        assert (m - {k}).Keys == m.Keys - {k} && (m - {a}).Keys == m.Keys - {a};
      }
      TotalSplit(m - {k}, a);
      TotalSplit(m - {a}, k);
      assert m - {k} - {a} == m - {a} - {k};
    }
  }

  lemma TotalUpdate(m: map<Name, nat>, a: Name, n: nat)
    requires a in m
    ensures Total(m[a := n]) == Total(m) - m[a] + n
  {
    TotalSplit(m, a);
    TotalSplit(m[a := n], a);
    assert m[a := n] - {a} == m - {a};
  }

  lemma TotalZero(m: map<Name, nat>)
    ensures Total(m) == 0 <==> forall a | a in m :: m[a] == 0
  {
    if Total(m) == 0 {
      forall a | a in m ensures m[a] == 0 { TotalSplit(m, a); }
    }
    if forall a | a in m :: m[a] == 0 { TotalOfZeros(m); }
  }

  lemma {:induction false} TotalOfZeros(m: map<Name, nat>)
    requires forall a | a in m :: m[a] == 0
    ensures Total(m) == 0
    decreases |m|
  {
    if m != map[] {
      var k := LeastName(m.Keys);
      assert |m - {k}| < |m| by { assert (m - {k}).Keys == m.Keys - {k}; }
      TotalOfZeros(m - {k});
    }
  }

  // ----------------------------------------------------------- conservation

  /** How many in-flight messages a task answers for: the one it is handling and
      the one it has counted but not yet delivered or given back. */
  function Held(t: Task): nat {
    var own := if t.counted then 1 else 0;
    match t.phase
    case Popped(_) => 1
    case Acting => own
    case Identified(_) => own
    case Recorded(_) => own
    case Counted(_) => own + 1
    case Undoing => own + 1
    case Waking(back) => if back then own else 0
    case _ => 0
  }

  function MainHeld(m: Main): nat { if m.OriginCounted? then 1 else 0 }

  function Loads(w: World): map<Name, nat> {
    map a | a in w.tasks :: Held(w.tasks[a]) + if a in w.boxes then |w.boxes[a]| else 0
  }

  /** Until quiescence is declared, the counter is exactly the messages counted but
      undelivered, plus queued, plus being handled. */
  ghost predicate Conserved(w: World) {
    && (!w.main.Finished? ==> w.inFlight == Total(Loads(w)) + MainHeld(w.main))
    && (!w.main.Finished? ==> forall a | a in w.tasks :: !w.tasks[a].phase.Aborted?)
  }

  ghost predicate NoLostWakeup(w: World) {
    w.main.Waiting? && w.inFlight == 0 ==> w.permit || exists a :: a in w.tasks && w.tasks[a].phase.Waking?
  }

  /** A task's move shifts load between itself and one box. */
  lemma LoadsShift(w: World, v: World, a: Name, t: Task)
    requires a in w.tasks && w.tasks.Keys == w.boxes.Keys
    requires v.tasks == w.tasks[a := t] && v.boxes == w.boxes
    ensures Total(Loads(v)) == Total(Loads(w)) - Held(w.tasks[a]) + Held(t)
  {
    hide Total, Held;
    TotalUpdate(Loads(w), a, Held(t) + |w.boxes[a]|);
    assert Loads(v) == Loads(w)[a := Held(t) + |w.boxes[a]|];
  }

  lemma LoadsBox(w: World, v: World, c: Name, box: seq<Envelope>)
    requires c in w.tasks && w.tasks.Keys == w.boxes.Keys
    requires v.tasks == w.tasks && v.boxes == w.boxes[c := box]
    ensures Total(Loads(v)) == Total(Loads(w)) - |w.boxes[c]| + |box|
  {
    hide Total, Held;
    TotalUpdate(Loads(w), c, Held(w.tasks[c]) + |box|);
    assert Loads(v) == Loads(w)[c := Held(w.tasks[c]) + |box|];
  }

  /** What a task's move does to the shared counter, permit and boxes. */
  ghost predicate Effect(w: World, v: World, a: Name, t: Task, u: Task) {
    && v.tasks == w.tasks[a := u] && v.main == w.main
    && (w.permit ==> v.permit)
    && (t.phase.Waking? ==> v.permit)
    && match t.phase
       case Idle =>
         && a in w.boxes && w.boxes[a] != [] && v.boxes == w.boxes[a := w.boxes[a][1..]]
         && Held(u) == Held(t) + 1 && v.inFlight == w.inFlight
       case Counted(env) =>
         || (&& env.dst in w.boxes && v.boxes == w.boxes[env.dst := w.boxes[env.dst] + [env]]
             && Held(u) == Held(t) - 1 && v.inFlight == w.inFlight)
         || (v.boxes == w.boxes && Held(u) == Held(t) && v.inFlight == w.inFlight)
       case _ =>
         && v.boxes == w.boxes
         && v.inFlight == w.inFlight - Held(t) + Held(u)
         && (w.inFlight == 1 && v.inFlight == 0 ==> u.phase.Waking?)
         && v.inFlight >= w.inFlight - 1
  }

  lemma TaskEffect(p: Program, w: World, v: World, a: Name)
    requires a in w.tasks && StepTask(p, w, a) == Some(v)
    ensures a in v.tasks && Effect(w, v, a, w.tasks[a], v.tasks[a])
    ensures !v.tasks[a].phase.Aborted?
  {
    hide Effect, StepTask;
    match w.tasks[a].phase
    case Fresh => EffectOfBegin(p, w, v, a);
    case Acting =>
      if w.tasks[a].todo == [] { EffectOfEnd(p, w, v, a); } else { EffectOfAction(p, w, v, a); }
    case Popped(_) => EffectOfLogging(p, w, v, a);
    case Identified(_) => EffectOfLogging(p, w, v, a);
    case Idle => EffectOfBoxes(p, w, v, a);
    case Counted(_) => EffectOfBoxes(p, w, v, a);
    case _ => EffectOfCounting(p, w, v, a);
  }

  lemma EffectOfBegin(p: Program, w: World, v: World, a: Name)
    requires a in w.tasks && StepTask(p, w, a) == Some(v) && w.tasks[a].phase.Fresh?
    ensures a in v.tasks && Effect(w, v, a, w.tasks[a], v.tasks[a]) && !v.tasks[a].phase.Aborted?
  {}

  lemma EffectOfEnd(p: Program, w: World, v: World, a: Name)
    requires a in w.tasks && StepTask(p, w, a) == Some(v) && w.tasks[a].phase.Acting? && w.tasks[a].todo == []
    ensures a in v.tasks && Effect(w, v, a, w.tasks[a], v.tasks[a]) && !v.tasks[a].phase.Aborted?
  {}

  lemma EffectOfAction(p: Program, w: World, v: World, a: Name)
    requires a in w.tasks && StepTask(p, w, a) == Some(v) && w.tasks[a].phase.Acting? && w.tasks[a].todo != []
    ensures a in v.tasks && Effect(w, v, a, w.tasks[a], v.tasks[a]) && !v.tasks[a].phase.Aborted?
  {
    hide OnLocal, ComputeEvent;
  }

  lemma EffectOfLogging(p: Program, w: World, v: World, a: Name)
    requires a in w.tasks && StepTask(p, w, a) == Some(v)
    requires w.tasks[a].phase.Popped? || w.tasks[a].phase.Identified?
    ensures a in v.tasks && Effect(w, v, a, w.tasks[a], v.tasks[a]) && !v.tasks[a].phase.Aborted?
  {
    hide EmitEvent, RecvEvent;
  }

  lemma EffectOfBoxes(p: Program, w: World, v: World, a: Name)
    requires a in w.tasks && StepTask(p, w, a) == Some(v)
    requires w.tasks[a].phase.Idle? || w.tasks[a].phase.Counted?
    ensures a in v.tasks && Effect(w, v, a, w.tasks[a], v.tasks[a]) && !v.tasks[a].phase.Aborted?
  {
    hide OnRecv;
    if w.tasks[a].phase.Idle? {
      assert v == Pop(w, a, w.tasks[a]);
    }
  }

  lemma EffectOfCounting(p: Program, w: World, v: World, a: Name)
    requires a in w.tasks && StepTask(p, w, a) == Some(v)
    requires w.tasks[a].phase.Recorded? || w.tasks[a].phase.Undoing? || w.tasks[a].phase.Waking?
        || w.tasks[a].phase.Aborted?
    ensures a in v.tasks && Effect(w, v, a, w.tasks[a], v.tasks[a]) && !v.tasks[a].phase.Aborted?
  {}

  lemma ConservedTask(p: Program, w: World, v: World, a: Name)
    requires Peopled(p, w) && Conserved(w) && a in w.tasks && StepTask(p, w, a) == Some(v)
    ensures Conserved(v)
  {
    hide Total, StepTask, Held, Loads;
    TaskEffect(p, w, v, a);
    LoadEffect(p, w, v, a);
    forall b | b in v.tasks && !v.main.Finished? ensures !v.tasks[b].phase.Aborted? {
      if b != a { assert v.tasks[b] == w.tasks[b]; }
    }
  }

  /** Loads and the counter change by the same amount. */
  lemma LoadEffect(p: Program, w: World, v: World, a: Name)
    requires Peopled(p, w) && a in w.tasks && a in v.tasks && Effect(w, v, a, w.tasks[a], v.tasks[a])
    ensures Total(Loads(v)) - Total(Loads(w)) == v.inFlight - w.inFlight
  {
    hide Total, Held, Loads;
    var t, u := w.tasks[a], v.tasks[a];
    var mid := w.(tasks := v.tasks);
    LoadsShift(w, mid, a, u);
    match t.phase
    case Idle => LoadsBox(mid, v, a, v.boxes[a]);
    case Counted(env) =>
      if env.dst in w.boxes && v.boxes == w.boxes[env.dst := w.boxes[env.dst] + [env]] {
        LoadsBox(mid, v, env.dst, w.boxes[env.dst] + [env]);
        assert |w.boxes[env.dst] + [env]| == |w.boxes[env.dst]| + 1;
        assert v.boxes != w.boxes by { assert v.boxes[env.dst] != w.boxes[env.dst]; }
      } else {
        LoadsOnly(v, mid);
      }
    case _ => LoadsOnly(v, mid);
  }

  lemma LoadsOnly(v: World, w: World)
    requires v.tasks == w.tasks && v.boxes == w.boxes
    ensures Loads(v) == Loads(w)
  {}

  lemma ConservedMain(p: Program, w: World, v: World)
    requires Peopled(p, w) && Conserved(w) && StepMain(w) == Some(v)
    ensures Conserved(v)
  {
    hide Total, EmitEvent;
    if w.main.OriginCounted? {
      var env := w.main.env;
      LoadsBox(w, v, env.dst, w.boxes[env.dst] + [env]);
    } else {
      assert Loads(v) == Loads(w);
    }
  }

  lemma NoLostWakeupTask(p: Program, w: World, v: World, a: Name)
    requires Conserved(w) && NoLostWakeup(w) && a in w.tasks && StepTask(p, w, a) == Some(v)
    ensures NoLostWakeup(v)
  {
    hide Total, StepTask, Held, Loads;
    TaskEffect(p, w, v, a);
    if v.main.Waiting? && v.inFlight == 0 && !v.permit {
      if w.inFlight == 0 {
        var b :| b in w.tasks && w.tasks[b].phase.Waking?;
        assert b in v.tasks && v.tasks[b].phase.Waking?;
      } else {
        assert a in v.tasks && v.tasks[a].phase.Waking?;
      }
    }
  }

  ghost predicate Steady(p: Program, w: World) { Peopled(p, w) && Conserved(w) && NoLostWakeup(w) }

  lemma SteadyNext(p: Program, w: World, l: Label, v: World)
    requires Steady(p, w) && Next(p, w, l) == Some(v) && Peopled(p, v)
    ensures Steady(p, v)
  {
    hide Total, StepTask, OnLocal, Held, Conserved, AbortTask;
    match l
    case TaskMove(a) =>
      ConservedTask(p, w, v, a);
      NoLostWakeupTask(p, w, v, a);
    case MainMove =>
      ConservedMain(p, w, v);
    case Origin(dst, msg) =>
      LoadsOnly(v, w);
      ConservedSame(w, v);
    case Abort(a) =>
      ConservedEnd(v, w, a);
  }

  lemma ConservedSame(w: World, v: World)
    requires Conserved(w) && v.tasks == w.tasks && v.boxes == w.boxes && v.inFlight == w.inFlight
    requires w.main.Injecting? && v.main.Drawn?
    ensures Conserved(v)
  {
    LoadsOnly(v, w);
  }

  lemma ConservedEnd(v: World, w: World, a: Name)
    requires a in w.tasks && v == AbortTask(w, a, w.tasks[a]) && w.main.Finished?
    ensures Conserved(v) && NoLostWakeup(v)
  {}

  lemma {:induction false} SteadyExec(p: Program, ls: seq<Label>, w: World)
    requires p.WellFormed() && Exec(p, Init(p), ls) == Some(w)
    ensures Steady(p, w)
  {
    hide Next;
    if ls == [] {
      TotalZero(Loads(w));
    } else {
      var v := Exec(p, Init(p), ls[..|ls| - 1]).value;
      SteadyExec(p, ls[..|ls| - 1], v);
      assert Peopled(p, w) by { InvExec(p, ls, w); }
      SteadyNext(p, v, ls[|ls| - 1], w);
    }
  }

  // ------------------------------------------------------------ main results

  /** Conservation and the absence of lost wake-ups, over every run. */
  lemma CounterIsExact(p: Program, w: World)
    requires p.WellFormed() && Reachable(p, w)
    ensures !w.main.Finished? ==> w.inFlight == Total(Loads(w)) + MainHeld(w.main)
    ensures w.main.Waiting? && w.inFlight == 0 ==>
              w.permit || exists a :: a in w.tasks && w.tasks[a].phase.Waking?
  {
    hide Total, Loads;
    var ls: seq<Label> :| Exec(p, Init(p), ls) == Some(w);
    SteadyExec(p, ls, w);
  }

  /** Every actor's `started` hook has run to its end. */
  ghost predicate Started(w: World) {
    forall a | a in w.tasks :: HookDone(w.tasks[a])
  }

  ghost predicate HookDone(t: Task) {
    match t.phase
    case Fresh => false
    case Aborted(begun) => begun
    case Acting => t.counted
    case Identified(_) => t.counted
    case Recorded(_) => t.counted
    case Counted(_) => t.counted
    case Undoing => t.counted
    case Waking(back) => back ==> t.counted
    case _ => true
  }

  /** Nothing queued and nobody inside a handler. */
  ghost predicate Quiet(w: World) {
    && (forall a | a in w.boxes :: w.boxes[a] == [])
    && (forall a | a in w.tasks ::
          w.tasks[a].phase.Idle? || w.tasks[a].phase == Waking(false) || w.tasks[a].phase == Aborted(true))
    && (w.main.Checking? || w.main.Waiting? || w.main.Finished?)
  }

  /** When the waiter reads zero the system is quiet, exactly if every `started`
      hook has finished: those hooks are the only work the counter does not see. */
  lemma ZeroMeansQuiet(p: Program, w: World)
    requires p.WellFormed() && Reachable(p, w)
    requires w.main.Checking? && w.inFlight == 0
    ensures Quiet(w) <==> Started(w)
  {
    hide Total;
    CounterIsExact(p, w);
    ReachablePeopled(p, w);
    TotalZero(Loads(w));
    forall a | a in w.tasks ensures w.boxes[a] == [] && Held(w.tasks[a]) == 0 {
      assert Loads(w)[a] == 0;
    }
  }

  lemma ReachablePeopled(p: Program, w: World)
    requires p.WellFormed() && Reachable(p, w)
    ensures Peopled(p, w) && Steady(p, w)
    ensures forall a | a in w.tasks && w.tasks[a].phase.Counted? :: w.tasks[a].phase.env.dst in w.tasks
  {
    hide Total, Loads, Next;
    ReachableInv(p, w);
    var ls: seq<Label> :| Exec(p, Init(p), ls) == Some(w);
    SteadyExec(p, ls, w);
    forall a | a in w.tasks && w.tasks[a].phase.Counted? ensures w.tasks[a].phase.env.dst in w.tasks {
      MessagesOf(p, w, a);
    }
  }

  /** Quietness, once reached, is kept by every step, and so is the log. */
  lemma QuietIsStable(p: Program, w: World, l: Label, v: World)
    requires Quiet(w) && w.tasks.Keys == w.boxes.Keys && Next(p, w, l) == Some(v)
    ensures Quiet(v) && v.log == w.log && v.inFlight == w.inFlight && v.tasks.Keys == v.boxes.Keys
    ensures forall a | a in w.tasks :: v.tasks[a].trace == w.tasks[a].trace && v.tasks[a].todo == w.tasks[a].todo
    ensures w.main.Finished? ==> v.main.Finished?
  {}

  /** The loop is left only on a zero reading. */
  lemma FinishedAtZero(p: Program, w: World, l: Label, v: World)
    requires Next(p, w, l) == Some(v) && !w.main.Finished? && v.main.Finished?
    ensures w.main.Checking? && w.inFlight == 0 && v == w.(main := Finished)
  {
    hide OnLocal, EmitEvent;
    if l.TaskMove? {
      TaskEffect(p, w, v, l.a);
      assert false;
    }
  }

  /** No deadlock: if no task can move, the waiter's permit is there, and main alone
      reaches the end of its loop. */
  lemma WaiterIsServed(p: Program, w: World)
    requires p.WellFormed() && Reachable(p, w)
    requires w.main.Waiting? || w.main.Checking?
    requires forall a | a in p.names :: Next(p, w, TaskMove(a)) == None
    ensures w.inFlight == 0
    ensures w.main.Waiting? ==> w.permit
    ensures exists v :: Reachable(p, v) && v == w.(main := Finished, permit := v.permit)
  {
    AllTasksResting(p, w);
    var ls: seq<Label> :| Exec(p, Init(p), ls) == Some(w);
    if w.main.Waiting? {
      var v := w.(main := Checking, permit := false);
      ExecMore(p, ls, w, MainMove, v);
      ExecMore(p, ls + [MainMove], v, MainMove, v.(main := Finished));
      assert Reachable(p, v.(main := Finished));
    } else {
      ExecMore(p, ls, w, MainMove, w.(main := Finished));
      assert Reachable(p, w.(main := Finished));
    }
  }

  lemma AllTasksResting(p: Program, w: World)
    requires p.WellFormed() && Reachable(p, w)
    requires w.main.Waiting? || w.main.Checking?
    requires forall a | a in p.names :: Next(p, w, TaskMove(a)) == None
    ensures w.inFlight == 0
    ensures w.main.Waiting? ==> w.permit
  {
    hide Total;
    ReachablePeopled(p, w);
    forall a | a in w.tasks ensures Loads(w)[a] == 0 && !w.tasks[a].phase.Waking? {
      assert Next(p, w, TaskMove(a)) == None;
      Blocked(p, w, a);
    }
    TotalZero(Loads(w));
  }

  /** The only task that cannot move is one awaiting an empty mailbox. */
  lemma Blocked(p: Program, w: World, a: Name)
    requires a in w.tasks && StepTask(p, w, a) == None && w.tasks.Keys == w.boxes.Keys
    requires w.tasks[a].phase.Counted? ==> w.tasks[a].phase.env.dst in w.tasks
    ensures w.tasks[a].phase.Aborted? || (w.tasks[a].phase.Idle? && w.boxes[a] == [])
  {}

  lemma ExecMore(p: Program, ls: seq<Label>, w: World, l: Label, v: World)
    requires Exec(p, Init(p), ls) == Some(w) && Next(p, w, l) == Some(v)
    ensures Exec(p, Init(p), ls + [l]) == Some(v)
  {
    hide Next;
    assert (ls + [l])[..|ls|] == ls;
  }
}
