/** The recorder's own code, in place: the shared counters and channel, delivery with
    its undo, and one iteration of an actor's loop (shared.rs, dispatch.rs, context.rs,
    and the loop body of system.rs). Run without interruption, each of them is a run of
    the atomic steps of `Recorder`. */
module Runtime {
  import opened Names
  import opened Clocks
  import opened Events
  import opened Recorder

  /** `n` moves of one task in a row. */
  function Alone(p: Program, w: World, a: Name, n: nat): Option<World> {
    if n == 0 then Some(w)
    else match Alone(p, w, a, n - 1)
         case None => None
         case Some(v) => Next(p, v, TaskMove(a))
  }

  function Repeat(l: Label, n: nat): (ls: seq<Label>)
    ensures |ls| == n && forall i | 0 <= i < n :: ls[i] == l
  {
    seq(n, i requires 0 <= i < n => l)
  }

  lemma {:induction false} AloneIsRun(p: Program, w: World, a: Name, n: nat)
    ensures Alone(p, w, a, n) == Exec(p, w, Repeat(TaskMove(a), n))
  {
    hide Next;
    if n > 0 {
      AloneIsRun(p, w, a, n - 1);
      assert Repeat(TaskMove(a), n)[..n - 1] == Repeat(TaskMove(a), n - 1);
    }
  }

  lemma {:induction false} AloneThen(p: Program, w: World, a: Name, n: nat, v: World, m: nat)
    requires Alone(p, w, a, n) == Some(v)
    ensures Alone(p, w, a, n + m) == Alone(p, v, a, m)
  {
    hide Next;
    if m > 0 { AloneThen(p, w, a, n, v, m - 1); }
  }

  lemma AloneStep(p: Program, w: World, a: Name, n: nat, x: World, y: World)
    requires Alone(p, w, a, n) == Some(x) && a in x.tasks && StepTask(p, x, a) == Some(y)
    ensures Alone(p, w, a, n + 1) == Some(y)
  {
    hide StepTask;
  }

  /** Lowering the counter, and waking the waiter if that was the last message. */
  lemma CountsDown(p: Program, w0: World, a: Name, n: nat, w: World, back: bool) returns (v: World, m: nat)
    requires Alone(p, w0, a, n) == Some(w) && a in w.tasks
    requires var t := w.tasks[a];
      if back then t.phase.Undoing? else t.phase.Acting? && t.todo == [] && t.counted
    ensures Alone(p, w0, a, m) == Some(v)
    ensures v == With(w, a, w.tasks[a].(phase := if back then Acting else Idle))
                   .(inFlight := w.inFlight - 1, permit := w.permit || w.inFlight == 1)
  {
    hide Alone, StepTask;
    v, m := CountDown(w, a, w.tasks[a], back), n + 1;
    AloneStep(p, w0, a, n, w, v) by { StepOf(p, w, a); }
    if w.inFlight == 1 {
      var x := v;
      v, m := Notify(x, a, x.tasks[a], back), n + 2;
      AloneStep(p, w0, a, n + 1, x, v) by { StepOf(p, x, a); }
    }
    assert v.tasks == w.tasks[a := v.tasks[a]];
  }

  // ---------------------------------------------- one context call, in steps

  /** The sending task as it is once its emit is logged. */
  function SentBy(a: Name, t: Task, env: Envelope): Task
    requires t.todo != []
  {
    t.(stamp := OnLocal(t.stamp, a), todo := t.todo[1..], trace := t.trace + [DidSend(env)])
  }

  function EnvFrom(w: World, a: Name, t: Task, dst: Name, msg: Payload): Envelope {
    Outgoing(a, OnLocal(t.stamp, a), w.nextId + 1, dst, msg)
  }

  lemma SendLogs(p: Program, w: World, a: Name, dst: Name, msg: Payload) returns (v: World)
    requires a in w.tasks
    requires w.tasks[a].phase.Acting? && w.tasks[a].todo != [] && w.tasks[a].todo[0] == Send(dst, msg)
    ensures Alone(p, w, a, 3) == Some(v)
    ensures var t, env := w.tasks[a], EnvFrom(w, a, w.tasks[a], dst, msg);
      && v.tasks == w.tasks[a := SentBy(a, t, env).(phase := Counted(env))]
      && v.nextId == w.nextId + 1 && v.log == w.log + [EmitEvent(a, OnLocal(t.stamp, a).seqNo, env)]
      && v.boxes == w.boxes && v.inFlight == w.inFlight + 1 && v.permit == w.permit
  {
    hide Alone, StepTask, OnLocal, EmitEvent;
    var t, env := w.tasks[a], EnvFrom(w, a, w.tasks[a], dst, msg);
    var w1 := DrawId(w, a, t, dst, msg);
    var w2 := LogEmit(w1, a, w1.tasks[a], env);
    v := CountUp(w2, a, w2.tasks[a], env);
    AloneStarts(p, w, a);
    AloneStep(p, w, a, 0, w, w1) by { StepOf(p, w, a); }
    AloneStep(p, w, a, 1, w1, w2) by { StepOf(p, w1, a); }
    AloneStep(p, w, a, 2, w2, v) by { StepOf(p, w2, a); }
    assert v.tasks == w.tasks[a := v.tasks[a]];
  }

  /** A send run without interruption: one more id, one more log line, and either the
      message queued and counted, or nothing queued and the count as it was. */
  lemma SendSteps(p: Program, w: World, a: Name, dst: Name, msg: Payload) returns (v: World, n: nat)
    requires a in w.tasks && w.tasks.Keys == w.boxes.Keys && dst in w.boxes
    requires w.tasks[a].phase.Acting? && w.tasks[a].todo != [] && w.tasks[a].todo[0] == Send(dst, msg)
    ensures Alone(p, w, a, n) == Some(v)
    ensures var t, env := w.tasks[a], EnvFrom(w, a, w.tasks[a], dst, msg);
      && v.tasks == w.tasks[a := SentBy(a, t, env)]
      && v.nextId == w.nextId + 1 && v.log == w.log + [EmitEvent(a, OnLocal(t.stamp, a).seqNo, env)]
      && if w.tasks[dst].phase.Aborted?
         then v.boxes == w.boxes && v.inFlight == w.inFlight && (v.permit <==> w.permit || w.inFlight == 0)
         else v.boxes == w.boxes[dst := w.boxes[dst] + [env]] && v.inFlight == w.inFlight + 1 && v.permit == w.permit
  {
    hide Alone, StepTask, OnLocal, EmitEvent;
    var env := EnvFrom(w, a, w.tasks[a], dst, msg);
    var w3 := SendLogs(p, w, a, dst, msg);
    if w.tasks[dst].phase.Aborted? {
      var w4 := Refuse(w3, a, w3.tasks[a]);
      AloneStep(p, w, a, 3, w3, w4) by { StepOf(p, w3, a); }
      v, n := CountsDown(p, w, a, 4, w4, true);
    } else {
      v, n := Deliver(w3, a, w3.tasks[a], env), 4;
      AloneStep(p, w, a, 3, w3, v) by { StepOf(p, w3, a); }
    }
    assert v.tasks == w.tasks[a := v.tasks[a]];
  }

  lemma AloneStarts(p: Program, w: World, a: Name)
    ensures Alone(p, w, a, 0) == Some(w)
  {}

  /** What the enabled step of a sending or finishing task is. */
  lemma StepOf(p: Program, w: World, a: Name)
    requires a in w.tasks
    ensures var t := w.tasks[a];
      match t.phase
      case Acting =>
        if t.todo == [] then StepTask(p, w, a) == Some(if t.counted then CountDown(w, a, t, false)
            else EndStarted(w, a, t))
        else (match t.todo[0]
              case Work => StepTask(p, w, a) == Some(LogWork(w, a, t))
              case Send(dst, msg) => StepTask(p, w, a) == Some(DrawId(w, a, t, dst, msg)))
      case Identified(env) => StepTask(p, w, a) == Some(LogEmit(w, a, t, env))
      case Recorded(env) => StepTask(p, w, a) == Some(CountUp(w, a, t, env))
      case Counted(env) =>
        env.dst in w.boxes && env.dst in w.tasks ==>
          StepTask(p, w, a) == Some(if w.tasks[env.dst].phase.Aborted? then Refuse(w, a, t) else Deliver(w, a, t, env))
      case Undoing => StepTask(p, w, a) == Some(CountDown(w, a, t, true))
      case Waking(back) => StepTask(p, w, a) == Some(Notify(w, a, t, back))
      case Popped(env) => StepTask(p, w, a) == Some(LogRecv(p, w, a, t, env))
      case _ => true
  {
    hide DrawId, LogEmit, LogWork, LogRecv, CountUp, CountDown;
  }
  datatype Shared = Shared(
    msgId: nat, inFlight: int, permit: bool, events: seq<CausalEvent>,
    mailboxes: map<Name, seq<Envelope>>, closed: set<Name>)

  class SharedRuntime {
    var msgId: nat
    var inFlight: int
    var permit: bool
    var events: seq<CausalEvent>
    var mailboxes: map<Name, seq<Envelope>>
    var closed: set<Name>

    constructor (names: set<Name>)
      ensures msgId == 0 && inFlight == 0 && !permit && events == [] && closed == {}
      ensures mailboxes == map a | a in names :: []
    {
      msgId, inFlight, permit, events, closed := 0, 0, false, [], {};
      mailboxes := map a | a in names :: [];
    }

    ghost function Now(): Shared
      reads this
    {
      Shared(msgId, inFlight, permit, events, mailboxes, closed)
    }

    method NextMsgId() returns (id: nat)
      modifies this`msgId
      ensures id == msgId == old(msgId) + 1
    {
      msgId := msgId + 1;
      id := msgId;
    }

    method Record(e: CausalEvent)
      modifies this`events
      ensures events == old(events) + [e]
    {
      events := events + [e];
    }

    method IncInFlight()
      modifies this`inFlight
      ensures inFlight == old(inFlight) + 1
    {
      inFlight := inFlight + 1;
    }

    /** Taking the last message off the count stores the waiter's permit. */
    method DecInFlight()
      modifies this`inFlight, this`permit
      ensures inFlight == old(inFlight) - 1
      ensures permit <==> old(permit) || inFlight == 0
    {
      inFlight := inFlight - 1;
      if inFlight == 0 { permit := true; }
    }

    method TrySend(env: Envelope) returns (ok: bool)
      requires env.dst in mailboxes
      modifies this`mailboxes
      ensures ok <==> env.dst !in closed
      ensures mailboxes == if ok then old(mailboxes)[env.dst := old(mailboxes)[env.dst] + [env]] else old(mailboxes)
    {
      ok := env.dst !in closed;
      if ok { mailboxes := mailboxes[env.dst := mailboxes[env.dst] + [env]]; }
    }

    /** Count first, deliver, and take the count back if the receiver is gone. */
    method Deliver(env: Envelope)
      requires env.dst in mailboxes
      modifies this`inFlight, this`permit, this`mailboxes
      ensures env.dst !in closed ==> inFlight == old(inFlight) + 1 && permit == old(permit)
                                     && mailboxes == old(mailboxes)[env.dst := old(mailboxes)[env.dst] + [env]]
      ensures env.dst in closed ==> inFlight == old(inFlight) && (permit <==> old(permit) || inFlight == 0)
                                    && mailboxes == old(mailboxes)
    {
      IncInFlight();
      var ok := TrySend(env);
      if !ok { DecInFlight(); }
    }
  }

  /** The shared fields hold what state `w` of the machine says. */
  ghost predicate Agrees(w: World, now: Shared) {
    && w.nextId == now.msgId && w.inFlight == now.inFlight && w.permit == now.permit
    && w.log == now.events && w.boxes == now.mailboxes && w.tasks.Keys == w.boxes.Keys
    && forall a | a in w.tasks :: w.tasks[a].phase.Aborted? <==> a in now.closed
  }

  lemma SendAgrees(p: Program, w: World, now: Shared, later: Shared, a: Name, dst: Name, msg: Payload)
          returns (v: World, n: nat)
    requires Agrees(w, now) && a in w.tasks && dst in now.mailboxes
    requires w.tasks[a].phase.Acting? && w.tasks[a].todo != [] && w.tasks[a].todo[0] == Send(dst, msg)
    requires later == var t, env := w.tasks[a], EnvFrom(w, a, w.tasks[a], dst, msg);
      var logged := now.(msgId := now.msgId + 1, events := now.events + [EmitEvent(a, OnLocal(t.stamp, a).seqNo, env)]);
      if dst in now.closed then logged.(permit := now.permit || now.inFlight == 0)
      else logged.(mailboxes := now.mailboxes[dst := now.mailboxes[dst] + [env]], inFlight := now.inFlight + 1)
    ensures Alone(p, w, a, n) == Some(v) && Agrees(v, later)
    ensures v.tasks == w.tasks[a := SentBy(a, w.tasks[a], EnvFrom(w, a, w.tasks[a], dst, msg))]
  {
    hide Alone, OnLocal, EmitEvent;
    v, n := SendSteps(p, w, a, dst, msg);
  }

  /** Taking a message and logging its receipt. */
  lemma RecvAgrees(p: Program, w: World, now: Shared, a: Name) returns (v: World)
    requires Agrees(w, now) && a in w.tasks && w.tasks[a].phase.Idle? && now.mailboxes[a] != []
    ensures Alone(p, w, a, 2) == Some(v)
    ensures var t, env := w.tasks[a], now.mailboxes[a][0];
      var s := OnRecv(t.stamp, a, env.vclock, env.lamport);
      var (u, acts) := p.handle(a, t.user, env.msg);
      && v.tasks == w.tasks[a := Task(u, s, Acting, acts, true, t.trace + [DidRecv(env)])]
      && Agrees(v, now.(mailboxes := now.mailboxes[a := now.mailboxes[a][1..]],
          events := now.events + [RecvEvent(a, s, env)]))
  {
    hide Alone, StepTask, OnRecv, RecvEvent;
    var w1 := Pop(w, a, w.tasks[a]);
    v := LogRecv(p, w1, a, w1.tasks[a], w.boxes[a][0]);
    AloneStarts(p, w, a);
    AloneStep(p, w, a, 0, w, w1) by { TakesMessage(p, w, a); }
    AloneStep(p, w, a, 1, w1, v) by { StepOf(p, w1, a); }
    assert v.tasks == w.tasks[a := v.tasks[a]];
  }

  lemma TakesMessage(p: Program, w: World, a: Name)
    requires a in w.tasks && a in w.boxes && w.tasks[a].phase.Idle? && w.boxes[a] != []
    ensures StepTask(p, w, a) == Some(Pop(w, a, w.tasks[a]))
  {
    hide Pop;
  }

  /** A handler's end: the message comes off the count. */
  lemma EndAgrees(p: Program, w0: World, w: World, now: Shared, a: Name, n: nat) returns (v: World, m: nat)
    requires Agrees(w, now) && Alone(p, w0, a, n) == Some(w) && a in w.tasks
    requires w.tasks[a].phase.Acting? && w.tasks[a].todo == [] && w.tasks[a].counted
    ensures Alone(p, w0, a, m) == Some(v) && v.tasks == w.tasks[a := w.tasks[a].(phase := Idle)]
    ensures Agrees(v, now.(inFlight := now.inFlight - 1, permit := now.permit || now.inFlight == 1))
  {
    hide Alone;
    v, m := CountsDown(p, w0, a, n, w, false);
  }

  /** Actor `a`'s task in state `w`. */
  ghost predicate IsTask(w: World, a: Name, user: UserState, stamp: Stamp, phase: Phase, todo: seq<Action>,
          counted: bool) {
    a in w.tasks && w.tasks[a] == Task(user, stamp, phase, todo, counted, w.tasks[a].trace)
  }

  class ActorTask {
    const program: Program
    const cell: ActorCell
    var user: UserState

    constructor (program: Program, id: Name)
      ensures this.program == program && cell.id == id && cell.Now() == ZERO && user == program.init(id)
      ensures fresh(cell) && fresh(cell.clock) && fresh(cell.lamport)
    {
      this.program, user := program, program.init(id);
      cell := new ActorCell(id);
    }

    /** This task in state `w`, at `phase`, with `todo` still to do. */
    ghost predicate Mine(w: World, phase: Phase, todo: seq<Action>, counted: bool)
      reads this, cell, cell.clock, cell.lamport
    {
      IsTask(w, cell.id, user, cell.Now(), phase, todo, counted)
    }

    /** `Context::compute`. */
    method Compute(shared: SharedRuntime, ghost w: World, ghost todo: seq<Action>, ghost counted: bool)
      returns (ghost v: World)
      requires Agrees(w, shared.Now()) && Mine(w, Acting, todo, counted) && todo != [] && todo[0] == Work
      modifies shared`events, cell, cell.clock, cell.lamport
      ensures Agrees(v, shared.Now()) && Mine(v, Acting, todo[1..], counted) && Alone(program, w, cell.id, 1) == Some(v)
    {
      hide Increment, ComputeEvent;
      var ev := cell.StampCompute();
      shared.Record(ev);
      v := LogWork(w, cell.id, w.tasks[cell.id]);
      assert Alone(program, w, cell.id, 0) == Some(w);
    }

    /** `Context::send`: stamp, draw an id, log the emit, then count and deliver. */
    method Send(shared: SharedRuntime, dst: Name, msg: Payload, ghost w: World, ghost todo: seq<Action>,
            ghost counted: bool)
      returns (ghost v: World, ghost n: nat)
      requires Agrees(w, shared.Now()) && Mine(w, Acting, todo, counted) && todo != []
          && todo[0] == Action.Send(dst, msg)
      requires dst in shared.mailboxes
      modifies shared, cell, cell.clock, cell.lamport
      ensures Agrees(v, shared.Now()) && Mine(v, Acting, todo[1..], counted) && Alone(program, w, cell.id, n) == Some(v)
      ensures shared.mailboxes.Keys == old(shared.mailboxes.Keys)
    {
      hide Increment, EmitEvent, Alone, Agrees;
      ghost var before := shared.Now();
      var id := shared.NextMsgId();
      var env, ev := cell.StampSend(dst, msg, id);
      shared.Record(ev);
      shared.Deliver(env);
      AgreedId(w, before);
      v, n := SendAgrees(program, w, before, shared.Now(), cell.id, dst, msg);
    }

    /** Everything a hook or handler asks its context for, in order. */
    method RunActions(shared: SharedRuntime, acts: seq<Action>, ghost w0: World, ghost w: World, ghost m: nat,
            ghost counted: bool)
      returns (ghost v: World, ghost n: nat)
      requires Agrees(w, shared.Now()) && Mine(w, Acting, acts, counted) && Alone(program, w0, cell.id, m) == Some(w)
      requires shared.mailboxes.Keys == program.names && program.Addressed(acts)
      modifies shared, cell, cell.clock, cell.lamport
      ensures Agrees(v, shared.Now()) && Mine(v, Acting, [], counted) && Alone(program, w0, cell.id, n) == Some(v)
      ensures shared.mailboxes.Keys == program.names
    {
      hide Alone, Agrees, IsTask;
      v, n := w, m;
      assert acts[0..] == acts;
      for i := 0 to |acts|
        invariant Agrees(v, shared.Now()) && Mine(v, Acting, acts[i..], counted)
            && Alone(program, w0, cell.id, n) == Some(v)
        invariant shared.mailboxes.Keys == program.names
      {
        ghost var rest := acts[i..];
        assert rest[0] == acts[i] && rest[1..] == acts[i + 1..];
        ghost var x, k := v, 1;
        match acts[i] {
          case Work => v := Compute(shared, x, rest, counted);
          case Send(dst, msg) => v, k := Send(shared, dst, msg, x, rest, counted);
        }
        AloneThen(program, w0, cell.id, n, x, k);
        n := n + k;
      }
      assert acts[|acts|..] == [];
    }

    /** The receive rule: take the message, merge its clock, count the receive, log it. */
    method Receive(shared: SharedRuntime, ghost w: World, ghost counted: bool)
            returns (acts: seq<Action>, ghost v: World)
      requires Agrees(w, shared.Now()) && Mine(w, Idle, [], counted)
      requires cell.id in shared.mailboxes && shared.mailboxes[cell.id] != []
      modifies shared, this`user, cell, cell.clock, cell.lamport
      ensures Agrees(v, shared.Now()) && Mine(v, Acting, acts, true) && Alone(program, w, cell.id, 2) == Some(v)
      ensures (user, acts) == program.handle(cell.id, old(user), old(shared.mailboxes)[cell.id][0].msg)
      ensures shared.mailboxes.Keys == old(shared.mailboxes.Keys)
    {
      hide Merge, Increment, RecvEvent, Alone, Agrees;
      ghost var before := shared.Now();
      var env := shared.mailboxes[cell.id][0];
      shared.mailboxes := shared.mailboxes[cell.id := shared.mailboxes[cell.id][1..]];
      var wire := new VectorClock();
      wire.entries := env.vclock;
      var ev := cell.StampRecv(env, wire);
      shared.Record(ev);
      v := RecvAgrees(program, w, before, cell.id);
      var (u, todo) := program.handle(cell.id, user, env.msg);
      user, acts := u, todo;
    }

    /** One message: the receive rule, then the handler, then the count. Run without
        interruption it is a run of the machine that ends with the task at its mailbox
        and its handler's actions all done. */
    method HandleNext(shared: SharedRuntime, ghost w: World, ghost counted: bool) returns (ghost v: World, ghost n: nat)
      requires program.WellFormed() && cell.id in program.names && shared.mailboxes.Keys == program.names
      requires Agrees(w, shared.Now()) && Mine(w, Idle, [], counted) && shared.mailboxes[cell.id] != []
      modifies shared, this`user, cell, cell.clock, cell.lamport
      ensures Agrees(v, shared.Now()) && Mine(v, Idle, [], true)
          && Exec(program, w, Repeat(TaskMove(cell.id), n)) == Some(v)
      ensures user == program.handle(cell.id, old(user), old(shared.mailboxes)[cell.id][0].msg).0
    {
      hide Alone, Agrees, Exec, Program.Addressed, Repeat;
      var acts;
      acts, v := Receive(shared, w, counted);
      v, n := RunActions(shared, acts, w, v, 2, true);
      ghost var atEnd := shared.Now();
      v, n := EndAgrees(program, w, v, atEnd, cell.id, n);
      shared.DecInFlight();
      AloneIsRun(program, w, cell.id, n);
    }

    /** The `started` hook, before the first message. */
    method RunStarted(shared: SharedRuntime, ghost w: World) returns (ghost v: World, ghost n: nat)
      requires program.WellFormed() && cell.id in program.names && shared.mailboxes.Keys == program.names
      requires Agrees(w, shared.Now()) && Mine(w, Fresh, [], false)
      modifies shared, this`user, cell, cell.clock, cell.lamport
      ensures Agrees(v, shared.Now()) && Mine(v, Idle, [], false)
          && Exec(program, w, Repeat(TaskMove(cell.id), n)) == Some(v)
      ensures user == program.start(cell.id, old(user)).0
    {
      hide Alone, Agrees, Exec, Program.Addressed, Repeat;
      var (u, acts) := program.start(cell.id, user);
      v := BeginAgrees(program, w, shared.Now(), cell.id);
      user := u;
      v, n := RunActions(shared, acts, w, v, 1, false);
      v := EndStartedAgrees(program, w, v, shared.Now(), cell.id, n);
      n := n + 1;
      AloneIsRun(program, w, cell.id, n);
    }
  }

  lemma BeginAgrees(p: Program, w: World, now: Shared, a: Name) returns (v: World)
    requires Agrees(w, now) && a in w.tasks && w.tasks[a].phase.Fresh?
    ensures Alone(p, w, a, 1) == Some(v) && Agrees(v, now)
    ensures var t := w.tasks[a];
      v.tasks == w.tasks[a := t.(user := p.start(a, t.user).0, phase := Acting, todo := p.start(a, t.user).1,
          counted := false)]
  {
    hide Alone, StepTask;
    v := Begin(p, w, a, w.tasks[a]);
    AloneStarts(p, w, a);
    AloneStep(p, w, a, 0, w, v) by { BeginsWith(p, w, a); }
  }

  lemma EndStartedAgrees(p: Program, w0: World, w: World, now: Shared, a: Name, n: nat) returns (v: World)
    requires Agrees(w, now) && Alone(p, w0, a, n) == Some(w) && a in w.tasks
    requires w.tasks[a].phase.Acting? && w.tasks[a].todo == [] && !w.tasks[a].counted
    ensures Alone(p, w0, a, n + 1) == Some(v) && Agrees(v, now) && v.tasks == w.tasks[a := w.tasks[a].(phase := Idle)]
  {
    hide Alone, StepTask;
    v := EndStarted(w, a, w.tasks[a]);
    AloneStep(p, w0, a, n, w, v) by { StepOf(p, w, a); }
  }

  lemma BeginsWith(p: Program, w: World, a: Name)
    requires a in w.tasks && w.tasks[a].phase.Fresh?
    ensures StepTask(p, w, a) == Some(Begin(p, w, a, w.tasks[a]))
  {}

  lemma AgreedId(w: World, now: Shared)
    requires Agrees(w, now)
    ensures now.msgId == w.nextId
  {}

  /** `System::send_external`: the `world` emit, stamped {world: 1}, then the count,
      then the delivery, whose failure would be ignored. */
  method SendExternal(shared: SharedRuntime, dst: Name, msg: Payload, ghost p: Program, ghost w: World)
          returns (ghost v: World)
    requires Agrees(w, shared.Now()) && w.main.Injecting? && dst in p.names && w.tasks.Keys == p.names
        && dst !in shared.closed
    modifies shared
    ensures Agrees(v, shared.Now()) && v.main.Injecting?
    ensures Exec(p, w, [Origin(dst, msg), MainMove, MainMove, MainMove]) == Some(v)
    ensures v.tasks == w.tasks && |v.origins| == |w.origins| + 1
    ensures exists env ::
              && v.origins == w.origins + [env]
              && shared.events == old(shared.events) + [EmitEvent(WORLD, 1, env)]
              && shared.mailboxes[dst] == old(shared.mailboxes)[dst] + [env]
              && env == Envelope(msg, map[WORLD := 1], 1, shared.msgId, WORLD, dst)
  {
    hide EmitEvent, Exec;
    var clock := new VectorClock();
    clock.Bump(WORLD);
    var id := shared.NextMsgId();
    var env := Envelope(msg, clock.entries, 1, id, WORLD, dst);
    assert env == Outgoing(WORLD, OnLocal(ZERO, WORLD), w.nextId + 1, dst, msg);
    shared.Record(EmitEvent(WORLD, 1, env));
    shared.IncInFlight();
    var delivered := shared.TrySend(env);
    v := OriginSteps(p, w, dst, msg);
  }

  lemma OriginSteps(p: Program, w: World, dst: Name, msg: Payload) returns (v: World)
    requires w.main.Injecting? && dst in p.names && w.tasks.Keys == w.boxes.Keys == p.names
    ensures Exec(p, w, [Origin(dst, msg), MainMove, MainMove, MainMove]) == Some(v)
    ensures var env := Outgoing(WORLD, OnLocal(ZERO, WORLD), w.nextId + 1, dst, msg);
      && v.main.Injecting? && v.nextId == w.nextId + 1 && v.inFlight == w.inFlight + 1 && v.permit == w.permit
      && v.log == w.log + [EmitEvent(WORLD, 1, env)] && v.tasks == w.tasks && v.origins == w.origins + [env]
      && v.boxes == w.boxes[dst := w.boxes[dst] + [env]]
  {
    hide EmitEvent, OnLocal;
    var ls := [Origin(dst, msg), MainMove, MainMove, MainMove];
    var env := Outgoing(WORLD, OnLocal(ZERO, WORLD), w.nextId + 1, dst, msg);
    var w1 := DrawOrigin(w, dst, msg);
    var w2 := LogOrigin(w1, env);
    var w3 := w2.(main := OriginCounted(env), inFlight := w2.inFlight + 1);
    v := DeliverOrigin(w3, env);
    assert ls[..0] == [] && ls[..1] == [ls[0]] && ls[..1][..0] == [] && ls[..2][..1] == ls[..1]
        && ls[..3][..2] == ls[..2];
    assert Exec(p, w, ls[..1]) == Some(w1);
    assert Exec(p, w, ls[..2]) == Some(w2);
    assert Exec(p, w, ls[..3]) == Some(w3);
    assert Next(p, w3, MainMove) == Some(v);
  }
}
