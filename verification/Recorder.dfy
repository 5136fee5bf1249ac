/** The concurrent recorder (lichtung-prod) as a state machine.

    Every access to shared state is one step: drawing a message id, handing an
    event to the log channel, raising or lowering the in-flight counter, moving an
    envelope into or out of a mailbox, waking the waiter. Local work of a task is
    folded into the shared access that follows it. Tasks and the main thread
    interleave arbitrarily. */
module Recorder {
  import opened Names
  import opened Events

  // ------------------------------------------------------------------ states

  /** Where one actor's task stands inside its loop. */
  datatype Phase =
    | Fresh                        // spawned, never polled
    | Idle                         // awaiting its mailbox
    | Popped(env: Envelope)        // message taken and stamped, receive not yet logged
    | Acting                       // inside `started` or `handle`
    | Identified(env: Envelope)    // send: clock advanced and id drawn
    | Recorded(env: Envelope)      // send: emit logged
    | Counted(env: Envelope)       // send: counted as in flight
    | Undoing                      // send: receiver gone, count to be taken back
    | Waking(back: bool)           // counter brought to zero, waiter not yet notified
    | Aborted(begun: bool)

  /** History: what an actor has put in the log so far. No step reads it. */
  datatype Done = DidRecv(env: Envelope) | DidSend(env: Envelope) | DidWork

  datatype Task = Task(
    user: UserState, stamp: Stamp, phase: Phase,
    todo: seq<Action>,   // rest of the running handler
    counted: bool,       // the running handler answers for one in-flight message
    trace: seq<Done>)

  /** The thread that injects origins and then runs to quiescence. */
  datatype Main =
    | Injecting
    | Drawn(env: Envelope)
    | OriginRecorded(env: Envelope)
    | OriginCounted(env: Envelope)
    | Checking          // about to read the counter
    | Waiting           // read a non-zero counter, awaiting a permit
    | Finished

  /** History: where a drawn message id is. */
  datatype Place =
    | InDraw(owner: Name) | InHand(owner: Name) | Queued(box: Name) | Taken(taker: Name) | Received(taker: Name,
        at: nat)

  datatype World = World(
    tasks: map<Name, Task>,
    boxes: map<Name, seq<Envelope>>,
    nextId: nat,
    inFlight: int,
    permit: bool,
    log: seq<CausalEvent>,
    main: Main,
    // history, read by no step
    place: map<nat, Place>,
    sentAt: map<nat, (Name, nat)>,   // logged emits: sender and position in its trace
    origins: seq<Envelope>)

  function Init(p: Program): World {
    World(map a | a in p.names :: Task(p.init(a), ZERO, Fresh, [], false, []),
          map a | a in p.names :: [],
          0, 0, false, [], Injecting, map[], map[], [])
  }

  // ------------------------------------------------------------- task steps

  function With(w: World, a: Name, t: Task): World { w.(tasks := w.tasks[a := t]) }

  function Begin(p: Program, w: World, a: Name, t: Task): World {
    var (u, acts) := p.start(a, t.user);
    With(w, a, t.(user := u, phase := Acting, todo := acts, counted := false))
  }

  function Pop(w: World, a: Name, t: Task): World
    requires a in w.boxes && w.boxes[a] != []
  {
    var env := w.boxes[a][0];
    With(w, a, t.(phase := Popped(env), stamp := OnRecv(t.stamp, a, env.vclock, env.lamport)))
      .(boxes := w.boxes[a := w.boxes[a][1..]], place := w.place[env.msgId := Taken(a)])
  }

  function LogRecv(p: Program, w: World, a: Name, t: Task, env: Envelope): World {
    var (u, acts) := p.handle(a, t.user, env.msg);
    With(w, a, t.(user := u, phase := Acting, todo := acts, counted := true, trace := t.trace + [DidRecv(env)]))
      .(log := w.log + [RecvEvent(a, t.stamp, env)], place := w.place[env.msgId := Received(a, |t.trace|)])
  }

  function LogWork(w: World, a: Name, t: Task): World
    requires t.todo != []
  {
    var s := OnLocal(t.stamp, a);
    With(w, a, t.(stamp := s, todo := t.todo[1..], trace := t.trace + [DidWork]))
      .(log := w.log + [ComputeEvent(a, s)])
  }

  function DrawId(w: World, a: Name, t: Task, dst: Name, msg: Payload): World
    requires t.todo != []
  {
    var s := OnLocal(t.stamp, a);
    var id := w.nextId + 1;
    With(w, a, t.(stamp := s, todo := t.todo[1..], phase := Identified(Outgoing(a, s, id, dst, msg))))
      .(nextId := id, place := w.place[id := InDraw(a)])
  }

  function LogEmit(w: World, a: Name, t: Task, env: Envelope): World {
    With(w, a, t.(phase := Recorded(env), trace := t.trace + [DidSend(env)]))
      .(log := w.log + [EmitEvent(a, t.stamp.seqNo, env)],
        place := w.place[env.msgId := InHand(a)], sentAt := w.sentAt[env.msgId := (a, |t.trace|)])
  }

  function CountUp(w: World, a: Name, t: Task, env: Envelope): World {
    With(w, a, t.(phase := Counted(env))).(inFlight := w.inFlight + 1)
  }

  function Deliver(w: World, a: Name, t: Task, env: Envelope): World
    requires env.dst in w.boxes
  {
    With(w, a, t.(phase := Acting))
      .(boxes := w.boxes[env.dst := w.boxes[env.dst] + [env]], place := w.place[env.msgId := Queued(env.dst)])
  }

  /** The receiver has shut its mailbox: nothing is queued, the count must go back. */
  function Refuse(w: World, a: Name, t: Task): World { With(w, a, t.(phase := Undoing)) }

  function CountDown(w: World, a: Name, t: Task, back: bool): World {
    With(w, a, t.(phase := if w.inFlight == 1 then Waking(back) else if back then Acting else Idle))
      .(inFlight := w.inFlight - 1)
  }

  function EndStarted(w: World, a: Name, t: Task): World { With(w, a, t.(phase := Idle)) }

  function Notify(w: World, a: Name, t: Task, back: bool): World {
    With(w, a, t.(phase := if back then Acting else Idle)).(permit := true)
  }

  function StepTask(p: Program, w: World, a: Name): Option<World>
    requires a in w.tasks
  {
    var t := w.tasks[a];
    match t.phase
    case Fresh => Some(Begin(p, w, a, t))
    case Idle => if a in w.boxes && w.boxes[a] != [] then Some(Pop(w, a, t)) else None
    case Popped(env) => Some(LogRecv(p, w, a, t, env))
    case Acting =>
      if t.todo == [] then Some(if t.counted then CountDown(w, a, t, false) else EndStarted(w, a, t))
      else (match t.todo[0]
            case Work => Some(LogWork(w, a, t))
            case Send(dst, msg) => Some(DrawId(w, a, t, dst, msg)))
    case Identified(env) => Some(LogEmit(w, a, t, env))
    case Recorded(env) => Some(CountUp(w, a, t, env))
    case Counted(env) =>
      if env.dst !in w.boxes || env.dst !in w.tasks then None
      else if w.tasks[env.dst].phase.Aborted? then Some(Refuse(w, a, t))
      else Some(Deliver(w, a, t, env))
    case Undoing => Some(CountDown(w, a, t, true))
    case Waking(back) => Some(Notify(w, a, t, back))
    case Aborted(_) => None
  }

  // -------------------------------------------------------------- main steps

  function DrawOrigin(w: World, dst: Name, msg: Payload): World {
    var id := w.nextId + 1;
    w.(main := Drawn(Outgoing(WORLD, OnLocal(ZERO, WORLD), id, dst, msg)), nextId := id,
       place := w.place[id := InDraw(WORLD)])
  }

  function LogOrigin(w: World, env: Envelope): World {
    w.(main := OriginRecorded(env), log := w.log + [EmitEvent(WORLD, 1, env)],
       place := w.place[env.msgId := InHand(WORLD)],
       sentAt := w.sentAt[env.msgId := (WORLD, |w.origins|)], origins := w.origins + [env])
  }

  function DeliverOrigin(w: World, env: Envelope): World
    requires env.dst in w.boxes
  {
    w.(main := Injecting, boxes := w.boxes[env.dst := w.boxes[env.dst] + [env]],
       place := w.place[env.msgId := Queued(env.dst)])
  }

  function StepMain(w: World): Option<World> {
    match w.main
    case Injecting => Some(w.(main := Checking))
    case Drawn(env) => Some(LogOrigin(w, env))
    case OriginRecorded(env) => Some(w.(main := OriginCounted(env), inFlight := w.inFlight + 1))
    case OriginCounted(env) => if env.dst in w.boxes then Some(DeliverOrigin(w, env)) else None
    case Checking => Some(w.(main := if w.inFlight == 0 then Finished else Waiting))
    case Waiting => if w.permit then Some(w.(main := Checking, permit := false)) else None
    case Finished => None
  }

  function AbortTask(w: World, a: Name, t: Task): World {
    With(w, a, t.(phase := Aborted(t.phase.Idle?))).(boxes := w.boxes[a := []])
  }

  // -------------------------------------------------------------------- runs

  datatype Label = TaskMove(a: Name) | Origin(dst: Name, msg: Payload) | MainMove | Abort(a: Name)

  /** One step of the whole system; `None` when the label is not enabled. A task
      can be aborted only at its mailbox await, and only once quiescence was seen. */
  function Next(p: Program, w: World, l: Label): Option<World> {
    match l
    case TaskMove(a) => if a in w.tasks then StepTask(p, w, a) else None
    case Origin(dst, msg) => if w.main.Injecting? && dst in p.names then Some(DrawOrigin(w, dst, msg)) else None
    case MainMove => StepMain(w)
    case Abort(a) =>
      if w.main.Finished? && a in w.tasks && (w.tasks[a].phase.Idle? || w.tasks[a].phase.Fresh?)
      then Some(AbortTask(w, a, w.tasks[a])) else None
  }

  function Exec(p: Program, w: World, ls: seq<Label>): Option<World> {
    if ls == [] then Some(w)
    else match Exec(p, w, ls[..|ls| - 1])
         case None => None
         case Some(v) => Next(p, v, ls[|ls| - 1])
  }

  ghost predicate Reachable(p: Program, w: World) {
    exists ls: seq<Label> :: Exec(p, Init(p), ls) == Some(w)
  }
}
