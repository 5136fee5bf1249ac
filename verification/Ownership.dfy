/** Who may count whose events: no clock anywhere runs ahead of the actor it counts. */
module Ownership {
  import opened Names
  import opened Clocks
  import opened Events
  import opened Logs
  import opened Recorder
  import opened Traces
  import opened Recordings
  import opened Embedding

  /** `c` counts no more of any actor's events than that actor has logged. */
  ghost predicate Owned(p: Program, w: World, c: Clock) {
    forall a | a in p.names && a in w.tasks :: Get(c, a) <= |w.tasks[a].trace|
  }

  /** An actor's logged clock counts its own history exactly, and overcounts nobody's. */
  ghost predicate OwnsStamp(p: Program, w: World, b: Name) {
    && b in w.tasks && Owned(p, w, Stamps(b, w.tasks[b].trace).clock)
    && Get(Stamps(b, w.tasks[b].trace).clock, b) == |w.tasks[b].trace|
  }

  ghost predicate OwnsAll(p: Program, w: World) {
    && (forall b | b in p.names :: OwnsStamp(p, w, b))
    && (forall env | Sent(w, env) :: Owned(p, w, env.vclock))
  }

  ghost predicate TracesGrow(p: Program, w: World, v: World) {
    forall a | a in p.names :: a in w.tasks && a in v.tasks && |w.tasks[a].trace| <= |v.tasks[a].trace|
  }

  lemma OwnedGrows(p: Program, w: World, v: World, c: Clock)
    requires Owned(p, w, c) && TracesGrow(p, w, v)
    ensures Owned(p, v, c)
  {}

  lemma OwnedAt(p: Program, w: World, c: Clock, a: Name)
    requires Owned(p, w, c) && a in p.names && a in w.tasks
    ensures Get(c, a) <= |w.tasks[a].trace|
  {}

  /** A step that logs nothing keeps ownership. */
  lemma OwnsFrame(p: Program, w: World, v: World)
    requires OwnsAll(p, w) && TracesGrow(p, w, v)
    requires forall a | a in p.names :: v.tasks[a].trace == w.tasks[a].trace
    requires forall env | Sent(v, env) :: Sent(w, env)
    ensures OwnsAll(p, v)
  {
    hide Owned, Sent, Stamps;
    forall b | b in p.names ensures OwnsStamp(p, v, b) {
      assert OwnsStamp(p, w, b);
      OwnedGrows(p, w, v, Stamps(b, w.tasks[b].trace).clock);
    }
    forall env | Sent(v, env) ensures Owned(p, v, env.vclock) { OwnedGrows(p, w, v, env.vclock); }
  }

  /** Logging `d` as `a`'s next event keeps ownership: a receive merges a clock that
      overcounts nobody, and then counts itself. */
  lemma OwnsLogs(p: Program, w: World, v: World, a: Name, d: Done)
    requires p.WellFormed() && Inv(p, w) && Inv(p, v) && OwnsAll(p, w) && a in p.names
    requires v.tasks[a].trace == w.tasks[a].trace + [d]
    requires forall b | b in p.names && b != a :: v.tasks[b].trace == w.tasks[b].trace
    requires d.DidRecv? ==> Sent(w, d.env)
    requires forall env | Sent(v, env) :: Sent(w, env) || d == DidSend(env)
    ensures OwnsAll(p, v)
  {
    hide Owned, Sent, TasksOk, MessagesOk, LogOk, WellStamped, Behave, EventsOf, StampAfter;
    assert TracesGrow(p, w, v);
    assert OwnsStamp(p, w, a);
    TraceAppend(p, a, w.tasks[a].trace, d);
    assert Stamps(a, v.tasks[a].trace) == StampAfter(a, Stamps(a, w.tasks[a].trace), d);
    NextClockOwned(p, w, v, a, d);
    forall b | b in p.names ensures OwnsStamp(p, v, b) {
      assert OwnsStamp(p, w, b);
      if b != a { OwnedGrows(p, w, v, Stamps(b, w.tasks[b].trace).clock); }
    }
    forall env | Sent(v, env) ensures Owned(p, v, env.vclock) {
      if Sent(w, env) {
        OwnedGrows(p, w, v, env.vclock);
      } else {
        SentStamp(p, v, a, env);
      }
    }
  }

  lemma NextClockOwned(p: Program, w: World, v: World, a: Name, d: Done)
    requires OwnsAll(p, w) && a in p.names && a in w.tasks && a in v.tasks && TracesGrow(p, w, v)
    requires |v.tasks[a].trace| == |w.tasks[a].trace| + 1
    requires d.DidRecv? ==> Sent(w, d.env)
    ensures var c := StampAfter(a, Stamps(a, w.tasks[a].trace), d).clock;
      Owned(p, v, c) && Get(c, a) == |v.tasks[a].trace|
  {
    hide Sent, Stamps, Merge, Increment, Get;
    assert OwnsStamp(p, w, a);
    var s := Stamps(a, w.tasks[a].trace);
    if d.DidRecv? {
      assert Owned(p, w, d.env.vclock);
      RecvJoins(s, a, d.env.vclock, d.env.lamport);
    } else {
      LocalAdds(s, a);
    }
  }

  /** The envelope just sent carries its sender's stamp. */
  lemma SentStamp(p: Program, v: World, a: Name, env: Envelope)
    requires Inv(p, v) && a in p.names && v.tasks[a].trace != []
    requires v.tasks[a].trace[|v.tasks[a].trace| - 1] == DidSend(env)
    ensures env.vclock == Stamps(a, v.tasks[a].trace).clock
  {
    hide MessagesOk, LogOk, WellStamped, EventId, Mid, Merge, Increment, PhaseOk;
    var tr := v.tasks[a].trace;
    assert TaskOk(p, a, v.tasks[a]);
    EventStamp(p, a, tr, |tr| - 1);
    EventsAt(a, tr, |tr| - 1);
    assert tr[..|tr|] == tr;
  }

  /** A new external stimulus counts `world` alone. */
  lemma OwnsOrigin(p: Program, w: World, v: World, env: Envelope)
    requires p.WellFormed() && OwnsAll(p, w) && v.tasks == w.tasks && w.tasks.Keys == p.names
    requires env.vclock == map[WORLD := 1]
    requires forall other | Sent(v, other) :: Sent(w, other) || other == env
    ensures OwnsAll(p, v)
  {
    hide Sent, Stamps, Owned, Program.Addressed;
    assert TracesGrow(p, w, v);
    assert Owned(p, v, env.vclock) by { WorldCountsNobody(p, v); }
    forall b | b in p.names ensures OwnsStamp(p, v, b) {
      assert OwnsStamp(p, w, b);
      OwnedGrows(p, w, v, Stamps(b, w.tasks[b].trace).clock);
    }
    forall other | Sent(v, other) ensures Owned(p, v, other.vclock) {
      if other != env { OwnedGrows(p, w, v, other.vclock); }
    }
  }

  lemma WorldCountsNobody(p: Program, w: World)
    requires WORLD !in p.names
    ensures Owned(p, w, map[WORLD := 1])
  {}

  /** Whether a task's next step logs something, and what. */
  function Entry(t: Task): Option<Done> {
    match t.phase
    case Popped(env) => Some(DidRecv(env))
    case Identified(env) => Some(DidSend(env))
    case Acting => if t.todo != [] && t.todo[0].Work? then Some(DidWork) else None
    case _ => None
  }

  /** A task's step appends its entry to its own history and records its send. */
  ghost predicate Extends(w: World, v: World, a: Name, d: Option<Done>) {
    && a in w.tasks && a in v.tasks && v.origins == w.origins && v.tasks == w.tasks[a := v.tasks[a]]
    && v.tasks[a].trace == w.tasks[a].trace + (match d case None => [] case Some(e) => [e])
    && v.sentAt == match d
                   case Some(DidSend(env)) => w.sentAt[env.msgId := (a, |w.tasks[a].trace|)]
                   case _ => w.sentAt
  }

  lemma StepExtends(p: Program, w: World, v: World, a: Name)
    requires a in w.tasks && StepTask(p, w, a) == Some(v)
    ensures Extends(w, v, a, Entry(w.tasks[a]))
  {
    hide StepTask, Extends;
    match w.tasks[a].phase
    case Acting => ActingExtends(p, w, v, a);
    case Fresh => QuietExtends(p, w, v, a);
    case Idle => QuietExtends(p, w, v, a);
    case Popped(_) => LoggingExtends(p, w, v, a);
    case Identified(_) => LoggingExtends(p, w, v, a);
    case _ => CountingExtends(p, w, v, a);
  }

  lemma ActingExtends(p: Program, w: World, v: World, a: Name)
    requires a in w.tasks && StepTask(p, w, a) == Some(v) && w.tasks[a].phase.Acting?
    ensures Extends(w, v, a, Entry(w.tasks[a]))
  {
    hide OnLocal, ComputeEvent;
  }

  lemma QuietExtends(p: Program, w: World, v: World, a: Name)
    requires a in w.tasks && StepTask(p, w, a) == Some(v) && (w.tasks[a].phase.Fresh? || w.tasks[a].phase.Idle?)
    ensures Extends(w, v, a, None)
  {
    hide OnRecv;
  }

  lemma LoggingExtends(p: Program, w: World, v: World, a: Name)
    requires a in w.tasks && StepTask(p, w, a) == Some(v) && (w.tasks[a].phase.Popped? || w.tasks[a].phase.Identified?)
    ensures Extends(w, v, a, Entry(w.tasks[a]))
  {
    hide RecvEvent, EmitEvent;
  }

  lemma CountingExtends(p: Program, w: World, v: World, a: Name)
    requires a in w.tasks && StepTask(p, w, a) == Some(v)
    requires var f := w.tasks[a].phase; !f.Acting? && !f.Fresh? && !f.Idle? && !f.Popped? && !f.Identified?
    ensures Extends(w, v, a, None)
  {
    if w.tasks[a].phase.Counted? { DeliveryExtends(p, w, v, a); }
  }

  lemma DeliveryExtends(p: Program, w: World, v: World, a: Name)
    requires a in w.tasks && StepTask(p, w, a) == Some(v) && w.tasks[a].phase.Counted?
    ensures Extends(w, v, a, None)
  {}

  lemma SentOnly(w: World, v: World, a: Name, d: Option<Done>)
    requires Extends(w, v, a, d) && a != WORLD
    ensures forall env | Sent(v, env) :: Sent(w, env) || d == Some(DidSend(env))
  {}

  lemma OwnsTask(p: Program, w: World, v: World, a: Name)
    requires p.WellFormed() && Inv(p, w) && Inv(p, v) && OwnsAll(p, w) && a in w.tasks && StepTask(p, w, a) == Some(v)
    ensures OwnsAll(p, v)
  {
    hide OwnsAll, TasksOk, MessagesOk, LogOk, WellStamped, StepTask, Entry, Sent, Program.Addressed;
    StepExtends(p, w, v, a);
    SentOnly(w, v, a, Entry(w.tasks[a]));
    match Entry(w.tasks[a])
    case None => OwnsFrame(p, w, v);
    case Some(d) =>
      assert d.DidRecv? ==> Sent(w, d.env) by { PoppedSent(p, w, a); }
      OwnsLogs(p, w, v, a, d);
  }

  lemma PoppedSent(p: Program, w: World, a: Name)
    requires Inv(p, w) && a in w.tasks
    ensures Entry(w.tasks[a]).Some? && Entry(w.tasks[a]).value.DidRecv? ==> Sent(w, Entry(w.tasks[a]).value.env)
  {
    hide TasksOk, MessagesOk, LogOk, WellStamped, Sent;
    MessagesOf(p, w, a);
  }

  lemma MainSends(w: World, v: World)
    requires StepMain(w) == Some(v)
    ensures forall env | Sent(v, env) :: Sent(w, env) || (w.main.Drawn? && env == w.main.env)
  {
    hide EmitEvent, Sent;
    if w.main.Drawn? {
      OriginSends(w, w.main.env);
    } else {
      SameSends(w, v);
    }
  }

  lemma OriginSends(w: World, env: Envelope)
    ensures forall other | Sent(LogOrigin(w, env), other) :: Sent(w, other) || other == env
  {
    hide EmitEvent;
  }

  lemma SameSends(w: World, v: World)
    requires v.sentAt == w.sentAt && v.origins == w.origins && v.tasks == w.tasks
    ensures forall env | Sent(v, env) :: Sent(w, env)
  {}

  lemma OwnsMain(p: Program, w: World, v: World)
    requires p.WellFormed() && Inv(p, w) && OwnsAll(p, w) && StepMain(w) == Some(v)
    ensures OwnsAll(p, v)
  {
    hide OwnsAll, TasksOk, MessagesOk, LogOk, WellStamped, EmitEvent, Program.Addressed, Sent;
    MainSends(w, v);
    if w.main.Drawn? {
      assert w.main.env.vclock == map[WORLD := 1] by { DrawnClock(p, w); }
      OwnsOrigin(p, w, v, w.main.env);
    } else {
      OwnsFrame(p, w, v);
    }
  }

  lemma OwnsNext(p: Program, w: World, l: Label, v: World)
    requires p.WellFormed() && Inv(p, w) && Inv(p, v) && OwnsAll(p, w) && Next(p, w, l) == Some(v)
    ensures OwnsAll(p, v)
  {
    hide OwnsAll, TasksOk, MessagesOk, LogOk, WellStamped, StepTask, StepMain, OnLocal, Program.Addressed;
    match l
    case TaskMove(a) => OwnsTask(p, w, v, a);
    case MainMove => OwnsMain(p, w, v);
    case _ => OwnsFrame(p, w, v);
  }

  lemma DrawnClock(p: Program, w: World)
    requires Inv(p, w) && w.main.Drawn?
    ensures w.main.env.vclock == map[WORLD := 1]
  {
    hide TasksOk, LogOk, WellStamped, IdsOk;
  }

  lemma {:induction false} OwnsExec(p: Program, ls: seq<Label>, w: World)
    requires p.WellFormed() && Exec(p, Init(p), ls) == Some(w)
    ensures OwnsAll(p, w)
  {
    hide Next, Inv, OwnsAll;
    if ls == [] {
      InitOwned(p);
    } else {
      var v := Exec(p, Init(p), ls[..|ls| - 1]).value;
      OwnsExec(p, ls[..|ls| - 1], v);
      InvExec(p, ls[..|ls| - 1], v);
      InvExec(p, ls, w);
      OwnsNext(p, v, ls[|ls| - 1], w);
    }
  }

  lemma InitOwned(p: Program)
    ensures OwnsAll(p, Init(p))
  {}

  /** `env` is under way: queued, or in the hands of a task or of the main thread. */
  ghost predicate UnderWay(w: World, env: Envelope) {
    || (exists b | b in w.boxes :: env in w.boxes[b])
    || (exists b | b in w.tasks :: InHand(w.tasks[b].phase, env))
    || InHand(MainPhase(w.main), env)
  }

  ghost predicate InHand(phase: Phase, env: Envelope) {
    phase == Popped(env) || phase == Identified(env) || phase == Recorded(env) || phase == Counted(env)
  }

  /** In every reachable state an actor's own component is its event count, and no
      actor's clock and no envelope under way holds more for it than that, however
      messages have looped back and however many origins there were. */
  lemma RunOwnership(p: Program, w: World, a: Name, b: Name)
    requires p.WellFormed() && Reachable(p, w) && a in p.names && b in p.names
    ensures a in w.tasks && b in w.tasks
    ensures Get(w.tasks[a].stamp.clock, a) == w.tasks[a].stamp.seqNo
    ensures Get(w.tasks[b].stamp.clock, a) <= w.tasks[a].stamp.seqNo
    ensures forall env | UnderWay(w, env) :: Get(env.vclock, a) <= w.tasks[a].stamp.seqNo
  {
    hide Inv, OwnsAll, Next, UnderWay;
    var ls: seq<Label> :| Exec(p, Init(p), ls) == Some(w);
    InvExec(p, ls, w);
    OwnsExec(p, ls, w);
    InvPeopled(p, w);
    StampOwned(p, w, a, a);
    StampOwned(p, w, b, a);
    forall env | UnderWay(w, env) ensures Get(env.vclock, a) <= w.tasks[a].stamp.seqNo { UnderWayOwned(p, w, a, env); }
  }

  lemma UnderWayOwned(p: Program, w: World, a: Name, env: Envelope)
    requires p.WellFormed() && Inv(p, w) && OwnsAll(p, w) && a in p.names && UnderWay(w, env)
    ensures Get(env.vclock, a) <= w.tasks[a].stamp.seqNo
  {
    hide TasksOk, MessagesOk, LogOk, WellStamped, Owned, Sent, Get, Program.Addressed;
    StampOwned(p, w, a, a);
    if b :| b in w.boxes && env in w.boxes[b] {
      MessagesOf(p, w, b);
      var k :| 0 <= k < |w.boxes[b]| && w.boxes[b][k] == env;
      OwnedAt(p, w, env.vclock, a);
    } else if b :| b in w.tasks && InHand(w.tasks[b].phase, env) {
      HeldOwned(p, w, a, b, env);
    } else {
      MainOwned(p, w, a, env);
    }
  }

  lemma HeldOwned(p: Program, w: World, a: Name, b: Name, env: Envelope)
    requires p.WellFormed() && Inv(p, w) && OwnsAll(p, w) && a in p.names && b in w.tasks
        && InHand(w.tasks[b].phase, env)
    ensures Get(env.vclock, a) <= w.tasks[a].stamp.seqNo
  {
    hide TasksOk, MessagesOk, LogOk, WellStamped, Owned, Sent, Get, Program.Addressed;
    StampOwned(p, w, a, a);
    StampOwned(p, w, b, a);
    MessagesOf(p, w, b);
    if w.tasks[b].phase.Identified? {
      assert env.vclock == w.tasks[b].stamp.clock by { IdentifiedStamp(p, w, b); }
    } else {
      OwnedAt(p, w, env.vclock, a);
    }
  }

  lemma IdentifiedStamp(p: Program, w: World, b: Name)
    requires Inv(p, w) && b in w.tasks && w.tasks[b].phase.Identified?
    ensures w.tasks[b].phase.env.vclock == w.tasks[b].stamp.clock
  {
    hide MessagesOk, LogOk, WellStamped, Behave, Stamps, OnLocal;
    assert TaskOk(p, b, w.tasks[b]);
  }

  lemma MainOwned(p: Program, w: World, a: Name, env: Envelope)
    requires p.WellFormed() && Inv(p, w) && OwnsAll(p, w) && a in p.names && InHand(MainPhase(w.main), env)
    ensures Get(env.vclock, a) <= w.tasks[a].stamp.seqNo
  {
    hide TasksOk, LogOk, WellStamped, Owned, Sent, Get, IdsOk, ActorMsgs, Program.Addressed, IsOrigin;
    StampOwned(p, w, a, a);
    if w.main.Drawn? {
      assert env.vclock == map[WORLD := 1] by { DrawnClock(p, w); }
      WorldCountsNobody(p, w);
    }
    OwnedAt(p, w, env.vclock, a);
  }

  /** A task's stamp is its logged stamp, or one event ahead of it. */
  lemma StampOwned(p: Program, w: World, b: Name, a: Name)
    requires p.WellFormed() && Inv(p, w) && OwnsAll(p, w) && a in p.names && b in p.names
    ensures Get(w.tasks[b].stamp.clock, a) <= |w.tasks[a].trace| + if a == b then 1 else 0
    ensures Get(w.tasks[b].stamp.clock, a) <= w.tasks[a].stamp.seqNo
    ensures Get(w.tasks[b].stamp.clock, b) == w.tasks[b].stamp.seqNo
    ensures |w.tasks[b].trace| <= w.tasks[b].stamp.seqNo
  {
    hide MessagesOk, WellStamped, LogOk, Owned, Sent, Merge, Increment, Get, Behave, Stamps;
    StampAhead(p, w, a);
    StampAhead(p, w, b);
    assert OwnsStamp(p, w, b);
    var t := w.tasks[b];
    var s := Stamps(b, t.trace);
    OwnedAt(p, w, s.clock, a);
    match t.phase
    case Popped(env) =>
      MessagesOf(p, w, b);
      OwnedAt(p, w, env.vclock, a);
      OwnedAt(p, w, env.vclock, b);
      RecvJoins(s, b, env.vclock, env.lamport);
    case Identified(env) =>
      LocalAdds(s, b);
    case _ =>
  }

  lemma StampAhead(p: Program, w: World, b: Name)
    requires Inv(p, w) && b in p.names
    ensures var t, s := w.tasks[b], Stamps(b, w.tasks[b].trace);
      match t.phase
      case Popped(env) => t.stamp == OnRecv(s, b, env.vclock, env.lamport) && t.stamp.seqNo == |t.trace| + 1
      case Identified(env) => t.stamp == OnLocal(s, b) && t.stamp.seqNo == |t.trace| + 1
      case _ => t.stamp == s && t.stamp.seqNo == |t.trace|
  {
    hide MessagesOk, WellStamped, LogOk, Behave, Merge, Increment;
    var t := w.tasks[b];
    assert TaskOk(p, b, t);
    StampsCount(b, t.trace);
  }
}
