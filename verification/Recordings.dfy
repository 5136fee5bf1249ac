/** What every run of the recorder keeps. */
module Recordings {
  import opened Names
  import opened Clocks
  import opened Events
  import opened Logs
  import opened Recorder
  import opened Traces

  // ------------------------------------------------- each task on its own

  /** The logged-to-be rest of what the task's current handler asked for. */
  function Owed(p: Program, a: Name, t: Task): seq<Action> {
    match t.phase
    case Fresh => p.start(a, t.user).1
    case Aborted(begun) => if begun then t.todo else p.start(a, t.user).1
    case Identified(env) => [Send(env.dst, env.msg)] + t.todo
    case _ => t.todo
  }

  function Settled(p: Program, a: Name, t: Task): UserState {
    match t.phase
    case Fresh => p.start(a, t.user).0
    case Aborted(begun) => if begun then t.user else p.start(a, t.user).0
    case _ => t.user
  }

  ghost predicate PhaseOk(p: Program, a: Name, t: Task) {
    match t.phase
    case Fresh => t == Task(p.init(a), ZERO, Fresh, [], false, [])
    case Aborted(false) => t == Task(p.init(a), ZERO, Aborted(false), [], false, [])
    case Aborted(true) => t.todo == [] && t.stamp == Stamps(a, t.trace)
    case Idle => t.todo == [] && t.stamp == Stamps(a, t.trace)
    case Popped(env) => t.todo == [] && t.stamp == OnRecv(Stamps(a, t.trace), a, env.vclock, env.lamport)
    case Identified(env) =>
      t.stamp == OnLocal(Stamps(a, t.trace), a) && env == Outgoing(a, t.stamp, env.msgId, env.dst, env.msg)
    case Waking(back) => (!back ==> t.todo == []) && t.stamp == Stamps(a, t.trace)
    case _ => t.stamp == Stamps(a, t.trace)
  }

  /** The task's causal state and pending work are what its history says. */
  ghost predicate TaskOk(p: Program, a: Name, t: Task) {
    && PhaseOk(p, a, t)
    && Behave(p, a, t.trace) == Some((Settled(p, a, t), Owed(p, a, t)))
    && p.Addressed(Owed(p, a, t))
  }

  ghost predicate TasksOk(p: Program, w: World) {
    && w.tasks.Keys == w.boxes.Keys == p.names
    && forall a | a in p.names :: TaskOk(p, a, w.tasks[a])
  }

  /** Replacing one task by another that fits its history. */
  lemma TasksOkWith(p: Program, w: World, v: World, a: Name, t: Task)
    requires TasksOk(p, w) && a in p.names && TaskOk(p, a, t)
    requires v.tasks == w.tasks[a := t] && v.boxes.Keys == w.boxes.Keys
    ensures TasksOk(p, v)
  {
    hide TaskOk;
    forall b | b in p.names ensures TaskOk(p, b, v.tasks[b]) {
      if b != a { assert v.tasks[b] == w.tasks[b]; }
    }
  }

  lemma TaskBegins(p: Program, a: Name, t: Task)
    requires p.WellFormed() && TaskOk(p, a, t) && a in p.names && t.phase.Fresh?
    ensures var (u, acts) := p.start(a, t.user);
      TaskOk(p, a, t.(user := u, phase := Acting, todo := acts, counted := false))
  {}

  lemma TaskPops(p: Program, a: Name, t: Task, env: Envelope)
    requires TaskOk(p, a, t) && t.phase.Idle?
    ensures TaskOk(p, a, t.(phase := Popped(env), stamp := OnRecv(t.stamp, a, env.vclock, env.lamport)))
  {
    hide Merge, Increment, Behave;
  }

  lemma TaskLogsRecv(p: Program, a: Name, t: Task, env: Envelope)
    requires p.WellFormed() && TaskOk(p, a, t) && a in p.names && t.phase == Popped(env)
    ensures var (u, acts) := p.handle(a, t.user, env.msg);
      TaskOk(p, a, t.(user := u, phase := Acting, todo := acts, counted := true, trace := t.trace + [DidRecv(env)]))
  {
    hide Merge, Increment, EventId, Mid, EventsOf;
    TraceAppend(p, a, t.trace, DidRecv(env));
  }

  lemma TaskLogsWork(p: Program, a: Name, t: Task)
    requires TaskOk(p, a, t) && t.phase.Acting? && t.todo != [] && t.todo[0].Work?
    ensures TaskOk(p, a, t.(stamp := OnLocal(t.stamp, a), todo := t.todo[1..], trace := t.trace + [DidWork]))
  {
    hide Merge, Increment, EventId, Mid, EventsOf;
    TraceAppend(p, a, t.trace, DidWork);
  }

  lemma TaskDraws(p: Program, a: Name, t: Task, id: nat)
    requires TaskOk(p, a, t) && t.phase.Acting? && t.todo != [] && t.todo[0].Send?
    ensures var s := OnLocal(t.stamp, a);
      TaskOk(p, a, t.(stamp := s, todo := t.todo[1..],
                      phase := Identified(Outgoing(a, s, id, t.todo[0].dst, t.todo[0].msg))))
  {
    hide Merge, Increment, EventId, Mid, Behave, Stamps;
    assert [t.todo[0]] + t.todo[1..] == t.todo;
  }

  lemma TaskLogsEmit(p: Program, a: Name, t: Task, env: Envelope)
    requires TaskOk(p, a, t) && t.phase == Identified(env)
    ensures TaskOk(p, a, t.(phase := Recorded(env), trace := t.trace + [DidSend(env)]))
  {
    hide Merge, Increment, EventId, Mid, EventsOf;
    TraceAppend(p, a, t.trace, DidSend(env));
    assert ([Send(env.dst, env.msg)] + t.todo)[1..] == t.todo;
  }

  /** The phases between which only the program counter moves. */
  lemma TaskMovesOn(p: Program, a: Name, t: Task, phase: Phase)
    requires TaskOk(p, a, t)
    requires match t.phase
             case Acting => t.todo == [] && (phase == Idle || phase == Waking(false))
             case Recorded(_) => phase.Counted?
             case Counted(_) => phase == Acting || phase == Undoing
             case Undoing => phase == Acting || phase == Waking(true)
             case Waking(back) => phase == if back then Acting else Idle
             case Idle => phase == Aborted(true)
             case Fresh => phase == Aborted(false)
             case _ => false
    ensures TaskOk(p, a, t.(phase := phase))
  {
    hide Merge, Increment, Behave, Stamps;
  }

  // ------------------------------------------------------ where messages are

  /** `env` is the envelope of an emit already in the log. */
  ghost predicate Sent(w: World, env: Envelope) {
    && env.msgId in w.sentAt
    && var (b, x) := w.sentAt[env.msgId];
       if b == WORLD then x < |w.origins| && w.origins[x] == env
       else b in w.tasks && x < |w.tasks[b].trace| && w.tasks[b].trace[x] == DidSend(env)
  }

  ghost predicate At(w: World, env: Envelope, place: Place) {
    env.msgId in w.place && w.place[env.msgId] == place
  }

  /** The message a thread is working on. */
  ghost predicate HandMsgs(p: Program, w: World, a: Name, phase: Phase) {
    match phase
    case Identified(env) => At(w, env, InDraw(a)) && env.msgId !in w.sentAt && env.dst in p.names
    case Recorded(env) => At(w, env, InHand(a)) && Sent(w, env) && env.dst in p.names
    case Counted(env) => At(w, env, InHand(a)) && Sent(w, env) && env.dst in p.names
    case Popped(env) => At(w, env, Taken(a)) && Sent(w, env) && env.dst == a
    case _ => true
  }

  ghost predicate TraceMsgs(w: World, a: Name, tr: seq<Done>) {
    forall x | 0 <= x < |tr| ::
      match tr[x]
      case DidRecv(env) => At(w, env, Received(a, x)) && Sent(w, env) && env.dst == a
      case DidSend(env) => env.msgId in w.sentAt && w.sentAt[env.msgId] == (a, x)
      case DidWork => true
  }

  ghost predicate BoxMsgs(w: World, a: Name, box: seq<Envelope>) {
    && (forall k | 0 <= k < |box| :: At(w, box[k], Queued(a)) && Sent(w, box[k]) && box[k].dst == a)
    && (forall j, k | 0 <= j < k < |box| :: box[j].msgId != box[k].msgId)
  }

  /** The main thread's sub-steps of an injection, seen as a task's. */
  function MainPhase(m: Main): Phase {
    match m
    case Drawn(env) => Identified(env)
    case OriginRecorded(env) => Recorded(env)
    case OriginCounted(env) => Counted(env)
    case _ => Idle
  }

  ghost predicate IsOrigin(p: Program, env: Envelope) {
    && env == Outgoing(WORLD, OnLocal(ZERO, WORLD), env.msgId, env.dst, env.msg)
    && env.dst in p.names
  }

  ghost predicate OriginMsgs(p: Program, w: World) {
    && (forall x | 0 <= x < |w.origins| ::
          IsOrigin(p, w.origins[x]) && w.origins[x].msgId in w.sentAt && w.sentAt[w.origins[x].msgId] == (WORLD, x))
    && (w.main.Drawn? ==> IsOrigin(p, w.main.env))
  }

  ghost predicate IdsOk(w: World) {
    && (forall id | id in w.place :: 1 <= id <= w.nextId)
    && (forall id | id in w.sentAt :: id in w.place && !w.place[id].InDraw?)
  }

  /** Every message is in one place, and past its draw it is one whose emit is logged. */
  ghost predicate MessagesOk(p: Program, w: World) {
    && IdsOk(w)
    && OriginMsgs(p, w)
    && HandMsgs(p, w, WORLD, MainPhase(w.main))
    && (forall a | a in p.names && a in w.tasks && a in w.boxes :: ActorMsgs(p, w, a))
  }

  ghost predicate ActorMsgs(p: Program, w: World, a: Name)
    requires a in w.tasks && a in w.boxes
  {
    && HandMsgs(p, w, a, w.tasks[a].phase)
    && TraceMsgs(w, a, w.tasks[a].trace)
    && BoxMsgs(w, a, w.boxes[a])
  }

  /** From `w` to `v` only message `id` may have moved. */
  ghost predicate Moved(w: World, v: World, id: nat) {
    && (forall i | i in w.place && i != id :: i in v.place && v.place[i] == w.place[i])
    && (forall i | i in w.sentAt :: i in v.sentAt && v.sentAt[i] == w.sentAt[i])
    && (forall i | i in v.sentAt && i != id :: i in w.sentAt)
    && (forall env | Sent(w, env) :: Sent(v, env))
  }

  ghost predicate HeldBy(w: World, id: nat, a: Name) {
    id in w.place && (w.place[id] == InDraw(a) || w.place[id] == InHand(a) || w.place[id] == Taken(a))
  }

  lemma HandFrame(p: Program, w: World, v: World, id: nat, a: Name, phase: Phase)
    requires Moved(w, v, id) && HandMsgs(p, w, a, phase) && !HeldBy(w, id, a)
    ensures HandMsgs(p, v, a, phase)
  {
    hide Sent;
  }

  lemma TraceFrame(w: World, v: World, id: nat, a: Name, tr: seq<Done>)
    requires Moved(w, v, id) && TraceMsgs(w, a, tr)
    requires id in w.place ==> !w.place[id].Received?
    ensures TraceMsgs(v, a, tr)
  {
    hide Sent;
  }

  lemma BoxFrame(w: World, v: World, id: nat, a: Name, box: seq<Envelope>)
    requires Moved(w, v, id) && BoxMsgs(w, a, box)
    requires id in w.place ==> w.place[id] != Queued(a)
    ensures BoxMsgs(v, a, box)
  {
    hide Sent;
  }

  /** Histories and logged emits only grow. */
  lemma MovedWhenGrown(w: World, v: World, id: nat)
    requires forall i | i in w.place && i != id :: i in v.place && v.place[i] == w.place[i]
    requires forall i | i in w.sentAt :: i in v.sentAt && v.sentAt[i] == w.sentAt[i]
    requires forall i | i in v.sentAt && i != id :: i in w.sentAt
    requires w.tasks.Keys <= v.tasks.Keys
    requires forall b | b in w.tasks :: w.tasks[b].trace <= v.tasks[b].trace
    requires w.origins <= v.origins
    ensures Moved(w, v, id)
  {}

  ghost predicate Peopled(p: Program, w: World) {
    WORLD !in p.names && w.tasks.Keys == w.boxes.Keys == p.names
  }

  /** Only task `a`, box `c` and message `id` (if it was with `a`) are touched. */
  ghost predicate Local(p: Program, w: World, v: World, a: Name, c: Name, id: nat) {
    && Peopled(p, w) && Peopled(p, v) && a in p.names && c in p.names
    && (forall b | b in p.names && b != a :: v.tasks[b] == w.tasks[b])
    && (forall b | b in p.names && b != c :: v.boxes[b] == w.boxes[b])
    && v.main == w.main && v.origins == w.origins
    && Moved(w, v, id)
    && (id in w.place ==> w.place[id] in {InDraw(a), InHand(a), Taken(a)} || (a == c && w.place[id] == Queued(a)))
  }

  lemma LocalOf(p: Program, w: World, v: World, a: Name, c: Name, id: nat)
    requires Peopled(p, w) && a in p.names && c in p.names && a in v.tasks && c in v.boxes
    requires v.tasks == w.tasks[a := v.tasks[a]] && v.boxes == w.boxes[c := v.boxes[c]]
    requires v.main == w.main && v.origins == w.origins && Moved(w, v, id)
    requires id in w.place ==> w.place[id] in {InDraw(a), InHand(a), Taken(a)} || (a == c && w.place[id] == Queued(a))
    ensures Local(p, w, v, a, c, id)
  {
    hide Moved;
  }

  /** Putting a drawn id elsewhere. */
  lemma IdsMoved(w: World, v: World, id: nat, place: Place)
    requires IdsOk(w) && id in w.place && v.place == w.place[id := place] && v.nextId == w.nextId && !place.InDraw?
    requires v.sentAt == w.sentAt || (id in v.sentAt && v.sentAt == w.sentAt[id := v.sentAt[id]])
    ensures IdsOk(v)
  {}

  lemma MessagesOf(p: Program, w: World, a: Name)
    requires MessagesOk(p, w) && Peopled(p, w) && a in p.names
    ensures ActorMsgs(p, w, a) && IdsOk(w)
  {}

  lemma MessagesLocal(p: Program, w: World, v: World, a: Name, c: Name, id: nat)
    requires MessagesOk(p, w) && Local(p, w, v, a, c, id) && IdsOk(v)
    requires HandMsgs(p, v, a, v.tasks[a].phase)
    requires TraceMsgs(v, a, v.tasks[a].trace)
    requires BoxMsgs(v, c, v.boxes[c])
    ensures MessagesOk(p, v)
  {
    hide Sent, TraceMsgs, BoxMsgs, IdsOk;
    HandFrame(p, w, v, id, WORLD, MainPhase(w.main));
    forall b | b in p.names ensures ActorMsgs(p, v, b) {
      assert ActorMsgs(p, w, b);
      if b != a {
        HandFrame(p, w, v, id, b, w.tasks[b].phase);
        TraceFrame(w, v, id, b, w.tasks[b].trace);
      }
      if b != c {
        BoxFrame(w, v, id, b, w.boxes[b]);
      }
    }
  }

  /** A step that moves no message. */
  lemma MessagesQuiet(p: Program, w: World, v: World, a: Name)
    requires MessagesOk(p, w) && Peopled(p, w) && a in p.names && a in v.tasks
    requires v == w.(tasks := w.tasks[a := v.tasks[a]], inFlight := v.inFlight, permit := v.permit, log := v.log)
    requires v.tasks[a].trace == w.tasks[a].trace || v.tasks[a].trace == w.tasks[a].trace + [DidWork]
    requires match v.tasks[a].phase
             case Identified(_) => false
             case Recorded(_) => false
             case Popped(_) => false
             case Counted(env) => w.tasks[a].phase == Recorded(env)
             case _ => true
    ensures MessagesOk(p, v)
  {
    hide MessagesOk, OriginMsgs, Moved;
    var id := w.nextId + 1;
    MovedWhenGrown(w, v, id);
    MessagesOf(p, w, a);
    TraceFrame(w, v, id, a, w.tasks[a].trace);
    BoxFrame(w, v, id, a, w.boxes[a]);
    assert HandMsgs(p, v, a, v.tasks[a].phase) by {
      HandFrame(p, w, v, id, a, w.tasks[a].phase);
    }
    MessagesLocal(p, w, v, a, a, id);
  }

  lemma MessagesPop(p: Program, w: World, a: Name)
    requires MessagesOk(p, w) && Peopled(p, w) && a in p.names && w.tasks[a].phase.Idle? && w.boxes[a] != []
    ensures MessagesOk(p, Pop(w, a, w.tasks[a]))
  {
    hide Local, IdsOk, TraceMsgs, BoxMsgs, Sent, MessagesOk, OriginMsgs, Moved, OnRecv, OnLocal;
    var v := Pop(w, a, w.tasks[a]);
    var box := w.boxes[a];
    var id := box[0].msgId;
    MessagesOf(p, w, a);
    MovedWhenGrown(w, v, id);
    BoxPop(w, v, a, box);
    TraceFrame(w, v, id, a, w.tasks[a].trace);
    LocalOf(p, w, v, a, a, id);
    IdsMoved(w, v, id, Taken(a));
    MessagesLocal(p, w, v, a, a, id);
  }

  lemma MessagesLogRecv(p: Program, w: World, a: Name, env: Envelope)
    requires MessagesOk(p, w) && Peopled(p, w) && a in p.names && w.tasks[a].phase == Popped(env)
    ensures MessagesOk(p, LogRecv(p, w, a, w.tasks[a], env))
  {
    hide Local, IdsOk, MessagesOk, OriginMsgs, Moved, OnRecv, OnLocal, RecvEvent;
    var v := LogRecv(p, w, a, w.tasks[a], env);
    var tr := w.tasks[a].trace;
    MessagesOf(p, w, a);
    MovedWhenGrown(w, v, env.msgId);
    TraceFrame(w, v, env.msgId, a, tr);
    BoxFrame(w, v, env.msgId, a, w.boxes[a]);
    assert TraceMsgs(v, a, tr + [DidRecv(env)]) by { hide Sent; }
    IdsMoved(w, v, env.msgId, Received(a, |tr|));
    LocalOf(p, w, v, a, a, env.msgId);
    MessagesLocal(p, w, v, a, a, env.msgId);
  }

  lemma MessagesDrawId(p: Program, w: World, a: Name, dst: Name, msg: Payload)
    requires MessagesOk(p, w) && Peopled(p, w) && a in p.names && dst in p.names && w.tasks[a].todo != []
    ensures MessagesOk(p, DrawId(w, a, w.tasks[a], dst, msg))
  {
    hide Local, TraceMsgs, BoxMsgs, Sent, MessagesOk, OriginMsgs, Moved, OnRecv, OnLocal;
    var v := DrawId(w, a, w.tasks[a], dst, msg);
    var id := w.nextId + 1;
    MessagesOf(p, w, a);
    MovedWhenGrown(w, v, id);
    TraceFrame(w, v, id, a, w.tasks[a].trace);
    BoxFrame(w, v, id, a, w.boxes[a]);
    LocalOf(p, w, v, a, a, id);
    MessagesLocal(p, w, v, a, a, id);
  }

  lemma MessagesLogEmit(p: Program, w: World, a: Name, env: Envelope)
    requires MessagesOk(p, w) && Peopled(p, w) && a in p.names && w.tasks[a].phase == Identified(env)
    ensures MessagesOk(p, LogEmit(w, a, w.tasks[a], env))
  {
    hide Local, IdsOk, MessagesOk, OriginMsgs, Moved, OnRecv, OnLocal, EmitEvent;
    var v := LogEmit(w, a, w.tasks[a], env);
    var tr := w.tasks[a].trace;
    MessagesOf(p, w, a);
    MovedWhenGrown(w, v, env.msgId);
    TraceFrame(w, v, env.msgId, a, tr);
    BoxFrame(w, v, env.msgId, a, w.boxes[a]);
    assert Sent(v, env);
    assert TraceMsgs(v, a, tr + [DidSend(env)]) by { hide Sent; }
    LocalOf(p, w, v, a, a, env.msgId);
    IdsMoved(w, v, env.msgId, InHand(a));
    MessagesLocal(p, w, v, a, a, env.msgId);
  }

  lemma MessagesDeliver(p: Program, w: World, a: Name, env: Envelope)
    requires MessagesOk(p, w) && Peopled(p, w) && a in p.names && w.tasks[a].phase == Counted(env) && env.dst in w.boxes
    ensures MessagesOk(p, Deliver(w, a, w.tasks[a], env))
  {
    hide Local, IdsOk, TraceMsgs, BoxMsgs, Sent, MessagesOk, OriginMsgs, Moved, OnRecv, OnLocal;
    var v := Deliver(w, a, w.tasks[a], env);
    var c := env.dst;
    MessagesOf(p, w, a);
    MessagesOf(p, w, c);
    MovedWhenGrown(w, v, env.msgId);
    TraceFrame(w, v, env.msgId, a, w.tasks[a].trace);
    BoxPush(w, v, env, c);
    LocalOf(p, w, v, a, c, env.msgId);
    IdsMoved(w, v, env.msgId, Queued(c));
    MessagesLocal(p, w, v, a, c, env.msgId);
  }

  lemma BoxPop(w: World, v: World, c: Name, box: seq<Envelope>)
    requires box != [] && BoxMsgs(w, c, box) && Moved(w, v, box[0].msgId)
    ensures BoxMsgs(v, c, box[1..])
    ensures At(w, box[0], Queued(c)) && Sent(v, box[0]) && box[0].dst == c
  {
    hide Sent;
    assert Sent(w, box[0]);
    forall k | 0 <= k < |box| - 1 ensures At(v, box[1..][k], Queued(c)) && Sent(v, box[1..][k])
        && box[1..][k].dst == c {
      assert box[k + 1].msgId != box[0].msgId;
      assert At(w, box[k + 1], Queued(c)) && Sent(w, box[k + 1]);
    }
  }

  lemma BoxPush(w: World, v: World, env: Envelope, c: Name)
    requires c in w.boxes && BoxMsgs(w, c, w.boxes[c]) && Moved(w, v, env.msgId)
    requires env.msgId in w.place && w.place[env.msgId] != Queued(c)
    requires Sent(w, env) && At(v, env, Queued(c)) && env.dst == c
    ensures BoxMsgs(v, c, w.boxes[c] + [env])
  {
    hide Sent;
    BoxFrame(w, v, env.msgId, c, w.boxes[c]);
    forall k | 0 <= k < |w.boxes[c]| ensures w.boxes[c][k].msgId != env.msgId {
      assert At(w, w.boxes[c][k], Queued(c));
    }
  }

  lemma MessagesAbort(p: Program, w: World, a: Name)
    requires MessagesOk(p, w) && Peopled(p, w) && a in p.names
    ensures MessagesOk(p, AbortTask(w, a, w.tasks[a]))
  {
    hide Local, MessagesOk, OriginMsgs, Moved;
    var v := AbortTask(w, a, w.tasks[a]);
    var id := w.nextId + 1;
    MessagesOf(p, w, a);
    MovedWhenGrown(w, v, id);
    TraceFrame(w, v, id, a, w.tasks[a].trace);
    LocalOf(p, w, v, a, a, id);
    MessagesLocal(p, w, v, a, a, id);
  }

  // ------------------------------------------------------- the main thread

  /** The main thread's moves touch no task. */
  lemma MessagesMain(p: Program, w: World, v: World, id: nat)
    requires MessagesOk(p, w) && Peopled(p, w) && Moved(w, v, id) && IdsOk(v) && OriginMsgs(p, v)
    requires v.tasks == w.tasks && v.boxes.Keys == w.boxes.Keys
    requires forall b | b in p.names :: BoxMsgs(v, b, v.boxes[b])
    requires HandMsgs(p, v, WORLD, MainPhase(v.main))
    requires id in w.place ==> w.place[id] in {InDraw(WORLD), InHand(WORLD)}
    ensures MessagesOk(p, v)
  {
    hide Sent, TraceMsgs, BoxMsgs, IdsOk, OriginMsgs;
    forall b | b in p.names ensures ActorMsgs(p, v, b) {
      assert ActorMsgs(p, w, b);
      HandFrame(p, w, v, id, b, w.tasks[b].phase);
      TraceFrame(w, v, id, b, w.tasks[b].trace);
    }
  }

  lemma BoxesKept(p: Program, w: World, v: World, id: nat)
    requires MessagesOk(p, w) && Peopled(p, w) && Moved(w, v, id) && v.boxes == w.boxes
    requires id in w.place ==> !w.place[id].Queued?
    ensures forall b | b in p.names :: BoxMsgs(v, b, v.boxes[b])
  {
    hide Sent, TraceMsgs, BoxMsgs;
    forall b | b in p.names ensures BoxMsgs(v, b, v.boxes[b]) {
      assert ActorMsgs(p, w, b);
      BoxFrame(w, v, id, b, w.boxes[b]);
    }
  }

  lemma MessagesDrawOrigin(p: Program, w: World, dst: Name, msg: Payload)
    requires MessagesOk(p, w) && Peopled(p, w) && dst in p.names && w.main.Injecting?
    ensures MessagesOk(p, DrawOrigin(w, dst, msg))
  {
    hide OnLocal;
    var v := DrawOrigin(w, dst, msg);
    MovedWhenGrown(w, v, v.nextId);
    BoxesKept(p, w, v, v.nextId);
    MessagesMain(p, w, v, v.nextId);
  }

  lemma MessagesLogOrigin(p: Program, w: World, env: Envelope)
    requires MessagesOk(p, w) && Peopled(p, w) && w.main == Drawn(env)
    ensures MessagesOk(p, LogOrigin(w, env))
  {
    hide OnLocal, EmitEvent;
    var v := LogOrigin(w, env);
    MovedWhenGrown(w, v, env.msgId);
    BoxesKept(p, w, v, env.msgId);
    assert Sent(v, env);
    MessagesMain(p, w, v, env.msgId);
  }

  lemma MessagesDeliverOrigin(p: Program, w: World, env: Envelope)
    requires MessagesOk(p, w) && Peopled(p, w) && w.main == OriginCounted(env) && env.dst in w.boxes
    ensures MessagesOk(p, DeliverOrigin(w, env))
  {
    hide OnLocal;
    var v := DeliverOrigin(w, env);
    MovedWhenGrown(w, v, env.msgId);
    forall b | b in p.names ensures BoxMsgs(v, b, v.boxes[b]) {
      assert ActorMsgs(p, w, b);
      if b == env.dst { BoxPush(w, v, env, b); } else { BoxFrame(w, v, env.msgId, b, w.boxes[b]); }
    }
    MessagesMain(p, w, v, env.msgId);
  }

  /** Counting the origin, and the waiting loop. */
  lemma MessagesMainQuiet(p: Program, w: World, v: World)
    requires MessagesOk(p, w) && Peopled(p, w)
    requires v == w.(main := v.main, inFlight := v.inFlight, permit := v.permit)
    requires match v.main
             case Drawn(_) => false
             case OriginRecorded(_) => false
             case OriginCounted(env) => w.main == OriginRecorded(env)
             case _ => true
    ensures MessagesOk(p, v)
  {
    var id := w.nextId + 1;
    MovedWhenGrown(w, v, id);
    BoxesKept(p, w, v, id);
    assert HandMsgs(p, v, WORLD, MainPhase(v.main)) by {
      HandFrame(p, w, v, id, WORLD, MainPhase(w.main));
    }
    MessagesMain(p, w, v, id);
  }

  // ------------------------------------------------------------------ the log

  function OriginEvents(origins: seq<Envelope>): seq<CausalEvent> {
    seq(|origins|, i requires 0 <= i < |origins| => EmitEvent(WORLD, 1, origins[i]))
  }

  /** The log is an interleaving of the actors' histories and the origins. */
  ghost predicate LogOk(p: Program, w: World) {
    && (forall a | a in p.names && a in w.tasks :: Project(w.log, a) == EventsOf(a, w.tasks[a].trace))
    && Project(w.log, WORLD) == OriginEvents(w.origins)
    && (forall j | 0 <= j < |w.log| :: w.log[j].actor in p.names + {WORLD})
  }

  lemma LogAppends(p: Program, w: World, v: World, a: Name, d: Done)
    requires LogOk(p, w) && Peopled(p, w) && Peopled(p, v) && a in p.names && v.origins == w.origins
    requires v.log == w.log + [EventAfter(a, Stamps(a, w.tasks[a].trace), d)]
    requires v.tasks[a].trace == w.tasks[a].trace + [d]
    requires forall b | b in p.names && b != a :: v.tasks[b].trace == w.tasks[b].trace
    ensures LogOk(p, v)
  {
    hide EventAfter, Project, EventsOf, Stamps, OriginEvents, Behave;
    var e := EventAfter(a, Stamps(a, w.tasks[a].trace), d);
    EventOwner(a, Stamps(a, w.tasks[a].trace), d);
    TraceAppend(p, a, w.tasks[a].trace, d);
    ProjectAppend(w.log, e, WORLD);
    forall b | b in p.names ensures Project(v.log, b) == EventsOf(b, v.tasks[b].trace) {
      ProjectAppend(w.log, e, b);
      if b != a { assert v.tasks[b].trace == w.tasks[b].trace; }
    }
    forall j | 0 <= j < |v.log| ensures v.log[j].actor in p.names + {WORLD} {
      if j < |w.log| { assert v.log[j] == w.log[j]; }
    }
  }

  lemma LogKeeps(p: Program, w: World, v: World)
    requires LogOk(p, w) && Peopled(p, w) && Peopled(p, v) && v.origins == w.origins && v.log == w.log
    requires forall b | b in p.names :: v.tasks[b].trace == w.tasks[b].trace
    ensures LogOk(p, v)
  {
    hide Project, EventsOf, OriginEvents;
  }

  lemma LogAppendsOrigin(p: Program, w: World, env: Envelope)
    requires LogOk(p, w) && Peopled(p, w)
    ensures LogOk(p, LogOrigin(w, env))
  {
    hide EventId, Mid, Project, EventsOf;
    var v := LogOrigin(w, env);
    var e := EmitEvent(WORLD, 1, env);
    ProjectAppend(w.log, e, WORLD);
    assert OriginEvents(v.origins) == OriginEvents(w.origins) + [e];
    forall b | b in p.names ensures Project(v.log, b) == EventsOf(b, v.tasks[b].trace) {
      ProjectAppend(w.log, e, b);
    }
  }

  // ---------------------------------------------------------------- stamping

  lemma FrontierIsStamp(p: Program, w: World, a: Name)
    requires TasksOk(p, w) && LogOk(p, w) && a in p.names
    ensures Frontier(w.log, a) == Stamps(a, w.tasks[a].trace)
  {
    hide Merge, Increment, EventId, Mid, Project;
    var tr := w.tasks[a].trace;
    assert TaskOk(p, a, w.tasks[a]);
    if tr != [] {
      EventStamp(p, a, tr, |tr| - 1);
      assert tr[..|tr|] == tr;
    }
  }

  /** The emit of a message that was sent is in the log, with the envelope's stamps. */
  lemma SentIsLogged(p: Program, w: World, env: Envelope) returns (i: nat)
    requires TasksOk(p, w) && LogOk(p, w) && MessagesOk(p, w) && Peopled(p, w) && Sent(w, env)
    ensures i < |w.log| && w.log[i] == EmitEvent(w.log[i].actor, w.log[i].seqNo, env)
    ensures w.log[i].actor == w.sentAt[env.msgId].0
  {
    hide Merge, Increment, EventId, Mid, MessagesOk, TaskOk;
    var (b, x) := w.sentAt[env.msgId];
    if b == WORLD {
      var e := OriginEvents(w.origins)[x];
      assert e in Project(w.log, WORLD);
      i :| 0 <= i < |w.log| && w.log[i] == e;
    } else {
      var tr := w.tasks[b].trace;
      EventsAt(b, tr, x);
      var e := EventsOf(b, tr)[x];
      assert e in Project(w.log, b);
      i :| 0 <= i < |w.log| && w.log[i] == e;
      StampsCount(b, tr[..x]);
    }
  }

  /** Every emit in the log carries an id that was drawn and logged. */
  lemma LoggedIsSent(p: Program, w: World, i: nat)
    requires TasksOk(p, w) && LogOk(p, w) && MessagesOk(p, w) && Peopled(p, w)
    requires i < |w.log| && w.log[i].op == Emit
    ensures exists id: nat :: id in w.sentAt && w.log[i].msgId == Some(Mid(id)) && w.sentAt[id].0 == w.log[i].actor
  {
    hide Merge, Increment, EventId, Mid, TaskOk, Sent;
    var e := w.log[i];
    if e.actor == WORLD {
      assert e in Project(w.log, WORLD);
      var x :| 0 <= x < |w.origins| && OriginEvents(w.origins)[x] == e;
      assert w.origins[x].msgId in w.sentAt;
    } else {
      var a := e.actor;
      var tr := w.tasks[a].trace;
      assert e in Project(w.log, a);
      var x :| 0 <= x < |tr| && EventsOf(a, tr)[x] == e;
      EventsAt(a, tr, x);
      MessagesOf(p, w, a);
      assert tr[x].DidSend? && tr[x].env.msgId in w.sentAt;
    }
  }

  lemma WorkIsStamped(p: Program, w: World, a: Name)
    requires TasksOk(p, w) && LogOk(p, w) && a in p.names && w.tasks[a].phase.Acting?
    ensures StampOk(w.log, ComputeEvent(a, OnLocal(w.tasks[a].stamp, a)))
  {
    hide Merge, Increment, EventId, Mid, Frontier;
    FrontierIsStamp(p, w, a);
    assert TaskOk(p, a, w.tasks[a]);
  }

  lemma EmitIsStamped(p: Program, w: World, a: Name, s: Stamp, env: Envelope)
    requires TasksOk(p, w) && LogOk(p, w) && MessagesOk(p, w) && Peopled(p, w)
    requires s == OnLocal(Frontier(w.log, a), a) && env == Outgoing(a, s, env.msgId, env.dst, env.msg)
    requires env.msgId !in w.sentAt
    ensures StampOk(w.log, EmitEvent(a, s.seqNo, env))
  {
    hide Merge, Increment, EventId, Mid, Frontier, TasksOk, LogOk, MessagesOk;
    forall i | 0 <= i < |w.log| ensures !IsEmitOf(w.log[i], Some(Mid(env.msgId))) {
      if w.log[i].op == Emit {
        LoggedIsSent(p, w, i);
        var id: nat :| id in w.sentAt && w.log[i].msgId == Some(Mid(id)) && w.sentAt[id].0 == w.log[i].actor;
        if Mid(id) == Mid(env.msgId) { MidInjective(id, env.msgId); }
      }
    }
  }

  lemma RecvIsStamped(p: Program, w: World, a: Name, env: Envelope)
    requires TasksOk(p, w) && LogOk(p, w) && MessagesOk(p, w) && Peopled(p, w)
    requires a in p.names && w.tasks[a].phase == Popped(env)
    ensures StampOk(w.log, RecvEvent(a, w.tasks[a].stamp, env))
  {
    hide Merge, Increment, EventId, Mid, Frontier, LogOk, MessagesOk;
    FrontierIsStamp(p, w, a);
    MessagesOf(p, w, a);
    var i := SentIsLogged(p, w, env);
    assert TaskOk(p, a, w.tasks[a]);
    assert IsEmitOf(w.log[i], Some(Mid(env.msgId)));
  }

  // ------------------------------------------------------- the whole invariant

  ghost predicate Inv(p: Program, w: World) {
    && Peopled(p, w)
    && TasksOk(p, w)
    && MessagesOk(p, w)
    && LogOk(p, w)
    && (|w.origins| <= 1 ==> WellStamped(w.log))
  }

  lemma InvInit(p: Program)
    requires p.WellFormed()
    ensures Inv(p, Init(p))
  {
    forall a | a in p.names ensures TaskOk(p, a, Init(p).tasks[a]) {}
  }

  lemma InvBegin(p: Program, w: World, a: Name)
    requires p.WellFormed() && Inv(p, w) && a in p.names && w.tasks[a].phase.Fresh?
    ensures Inv(p, Begin(p, w, a, w.tasks[a]))
  {
    hide TaskOk, MessagesOk, LogOk, WellStamped;
    var v := Begin(p, w, a, w.tasks[a]);
    TaskBegins(p, a, w.tasks[a]);
    TasksOkWith(p, w, v, a, v.tasks[a]);
    MessagesQuiet(p, w, v, a);
    LogKeeps(p, w, v);
  }

  lemma InvPop(p: Program, w: World, a: Name)
    requires p.WellFormed() && Inv(p, w) && a in p.names && w.tasks[a].phase.Idle? && w.boxes[a] != []
    ensures Inv(p, Pop(w, a, w.tasks[a]))
  {
    hide TaskOk, MessagesOk, LogOk, WellStamped, OnRecv;
    var v := Pop(w, a, w.tasks[a]);
    TaskPops(p, a, w.tasks[a], w.boxes[a][0]);
    TasksOkWith(p, w, v, a, v.tasks[a]);
    MessagesPop(p, w, a);
    LogKeeps(p, w, v);
  }

  lemma InvLogRecv(p: Program, w: World, a: Name, env: Envelope)
    requires p.WellFormed() && Inv(p, w) && a in p.names && w.tasks[a].phase == Popped(env)
    ensures Inv(p, LogRecv(p, w, a, w.tasks[a], env))
  {
    hide TaskOk, MessagesOk, LogOk, WellStamped, OnRecv, OnLocal, StampOk, Stamps, RecvEvent;
    var v := LogRecv(p, w, a, w.tasks[a], env);
    TaskLogsRecv(p, a, w.tasks[a], env);
    TasksOkWith(p, w, v, a, v.tasks[a]);
    MessagesLogRecv(p, w, a, env);
    StampHere(p, a, w.tasks[a]);
    LogAppends(p, w, v, a, DidRecv(env));
    RecvIsStamped(p, w, a, env);
    if |w.origins| <= 1 { WellStampedAppend(w.log, RecvEvent(a, w.tasks[a].stamp, env)); }
  }

  lemma StampHere(p: Program, a: Name, t: Task)
    requires TaskOk(p, a, t)
    ensures t.phase.Acting? ==> t.stamp == Stamps(a, t.trace)
    ensures t.phase.Popped? ==> t.stamp == OnRecv(Stamps(a, t.trace), a, t.phase.env.vclock, t.phase.env.lamport)
    ensures t.phase.Identified? ==> t.stamp == OnLocal(Stamps(a, t.trace), a)
                                    && t.phase.env == Outgoing(a, t.stamp, t.phase.env.msgId, t.phase.env.dst,
                                        t.phase.env.msg)
  {
    hide OnRecv, OnLocal, Stamps, Behave;
  }

  lemma InvLogWork(p: Program, w: World, a: Name)
    requires p.WellFormed() && Inv(p, w) && a in p.names && w.tasks[a].phase.Acting?
    requires w.tasks[a].todo != [] && w.tasks[a].todo[0].Work?
    ensures Inv(p, LogWork(w, a, w.tasks[a]))
  {
    hide TaskOk, MessagesOk, LogOk, WellStamped, OnRecv, OnLocal, StampOk, Stamps, ComputeEvent;
    var v := LogWork(w, a, w.tasks[a]);
    TaskLogsWork(p, a, w.tasks[a]);
    TasksOkWith(p, w, v, a, v.tasks[a]);
    MessagesQuiet(p, w, v, a);
    StampHere(p, a, w.tasks[a]);
    LogAppends(p, w, v, a, DidWork);
    WorkIsStamped(p, w, a);
    if |w.origins| <= 1 { WellStampedAppend(w.log, ComputeEvent(a, OnLocal(w.tasks[a].stamp, a))); }
  }

  lemma InvDrawId(p: Program, w: World, a: Name)
    requires p.WellFormed() && Inv(p, w) && a in p.names && w.tasks[a].phase.Acting?
    requires w.tasks[a].todo != [] && w.tasks[a].todo[0].Send?
    ensures var t := w.tasks[a]; Inv(p, DrawId(w, a, t, t.todo[0].dst, t.todo[0].msg))
  {
    hide MessagesOk, LogOk, WellStamped, OnRecv, OnLocal;
    var t := w.tasks[a];
    var v := DrawId(w, a, t, t.todo[0].dst, t.todo[0].msg);
    TaskDraws(p, a, t, w.nextId + 1);
    TasksOkWith(p, w, v, a, v.tasks[a]);
    assert TaskOk(p, a, t) && p.Addressed(t.todo);
    MessagesDrawId(p, w, a, t.todo[0].dst, t.todo[0].msg);
    LogKeeps(p, w, v);
  }

  lemma InvLogEmit(p: Program, w: World, a: Name, env: Envelope)
    requires p.WellFormed() && Inv(p, w) && a in p.names && w.tasks[a].phase == Identified(env)
    ensures Inv(p, LogEmit(w, a, w.tasks[a], env))
  {
    hide TaskOk, MessagesOk, LogOk, WellStamped, OnRecv, Increment, StampOk, Frontier, Stamps, EmitEvent;
    var v := LogEmit(w, a, w.tasks[a], env);
    TaskLogsEmit(p, a, w.tasks[a], env);
    TasksOkWith(p, w, v, a, v.tasks[a]);
    MessagesLogEmit(p, w, a, env);
    StampHere(p, a, w.tasks[a]);
    LogAppends(p, w, v, a, DidSend(env));
    FrontierIsStamp(p, w, a);
    MessagesOf(p, w, a);
    EmitIsStamped(p, w, a, w.tasks[a].stamp, env);
    if |w.origins| <= 1 { WellStampedAppend(w.log, EmitEvent(a, w.tasks[a].stamp.seqNo, env)); }
  }

  lemma InvDeliver(p: Program, w: World, a: Name, env: Envelope)
    requires p.WellFormed() && Inv(p, w) && a in p.names && w.tasks[a].phase == Counted(env) && env.dst in w.boxes
    ensures Inv(p, Deliver(w, a, w.tasks[a], env))
  {
    hide TaskOk, MessagesOk, LogOk, WellStamped;
    var v := Deliver(w, a, w.tasks[a], env);
    TaskMovesOn(p, a, w.tasks[a], Acting);
    TasksOkWith(p, w, v, a, v.tasks[a]);
    MessagesDeliver(p, w, a, env);
    LogKeeps(p, w, v);
  }

  /** Steps that change only the program counter, the counter and the permit. */
  lemma InvMovesOn(p: Program, w: World, v: World, a: Name, phase: Phase)
    requires p.WellFormed() && Inv(p, w) && a in p.names
    requires v == w.(tasks := w.tasks[a := w.tasks[a].(phase := phase)], inFlight := v.inFlight, permit := v.permit)
    requires match w.tasks[a].phase
             case Acting => w.tasks[a].todo == [] && (phase == Idle || phase == Waking(false))
             case Recorded(env) => phase == Counted(env)
             case Counted(_) => phase == Undoing
             case Undoing => phase == Acting || phase == Waking(true)
             case Waking(back) => phase == if back then Acting else Idle
             case _ => false
    ensures Inv(p, v)
  {
    hide TaskOk, MessagesOk, LogOk, WellStamped;
    TaskMovesOn(p, a, w.tasks[a], phase);
    TasksOkWith(p, w, v, a, v.tasks[a]);
    MessagesQuiet(p, w, v, a);
    LogKeeps(p, w, v);
  }

  lemma InvAbort(p: Program, w: World, a: Name)
    requires p.WellFormed() && Inv(p, w) && a in p.names && (w.tasks[a].phase.Idle? || w.tasks[a].phase.Fresh?)
    ensures Inv(p, AbortTask(w, a, w.tasks[a]))
  {
    hide TaskOk, MessagesOk, LogOk, WellStamped;
    var v := AbortTask(w, a, w.tasks[a]);
    TaskMovesOn(p, a, w.tasks[a], v.tasks[a].phase);
    TasksOkWith(p, w, v, a, v.tasks[a]);
    MessagesAbort(p, w, a);
    LogKeeps(p, w, v);
  }

  lemma InvTask(p: Program, w: World, v: World, a: Name)
    requires p.WellFormed() && Inv(p, w) && a in w.tasks && StepTask(p, w, a) == Some(v)
    ensures Inv(p, v)
  {
    hide Inv, StepTask;
    assert a in p.names by { InvNames(p, w, a); }
    match w.tasks[a].phase
    case Fresh => InvMailbox(p, w, v, a);
    case Idle => InvMailbox(p, w, v, a);
    case Popped(env) => InvMailbox(p, w, v, a);
    case Acting => InvActing(p, w, v, a);
    case Aborted(_) => assert false by { AbortedIsStuck(p, w, a); }
    case _ => InvSending(p, w, v, a);
  }

  lemma AbortedIsStuck(p: Program, w: World, a: Name)
    requires a in w.tasks && w.tasks[a].phase.Aborted?
    ensures StepTask(p, w, a) == None
  {}

  lemma InvNames(p: Program, w: World, a: Name)
    requires Inv(p, w) && a in w.tasks
    ensures a in p.names
  {
    hide TasksOk, MessagesOk, LogOk, WellStamped;
  }

  lemma InvMailbox(p: Program, w: World, v: World, a: Name)
    requires p.WellFormed() && Inv(p, w) && a in w.tasks && a in p.names && StepTask(p, w, a) == Some(v)
    requires w.tasks[a].phase.Fresh? || w.tasks[a].phase.Idle? || w.tasks[a].phase.Popped?
    ensures Inv(p, v)
  {
    hide Inv, Begin, Pop, LogRecv;
    match w.tasks[a].phase
    case Fresh => InvBegin(p, w, a);
    case Idle => InvPop(p, w, a);
    case Popped(env) => InvLogRecv(p, w, a, env);
  }

  lemma InvActing(p: Program, w: World, v: World, a: Name)
    requires p.WellFormed() && Inv(p, w) && a in w.tasks && a in p.names && StepTask(p, w, a) == Some(v)
    requires w.tasks[a].phase.Acting?
    ensures Inv(p, v)
  {
    hide Inv, LogWork, DrawId;
    var t := w.tasks[a];
    if t.todo == [] {
      InvMovesOn(p, w, v, a, v.tasks[a].phase);
    } else if t.todo[0].Work? {
      InvLogWork(p, w, a);
    } else {
      InvDrawId(p, w, a);
    }
  }

  lemma InvSending(p: Program, w: World, v: World, a: Name)
    requires p.WellFormed() && Inv(p, w) && a in w.tasks && a in p.names && StepTask(p, w, a) == Some(v)
    requires var f := w.tasks[a].phase; f.Identified? || f.Recorded? || f.Counted? || f.Undoing? || f.Waking?
    ensures Inv(p, v)
  {
    hide Inv, LogEmit, Deliver;
    match w.tasks[a].phase
    case Identified(env) => InvLogEmit(p, w, a, env);
    case Counted(env) =>
      if w.tasks[env.dst].phase.Aborted? { InvMovesOn(p, w, v, a, Undoing); } else { InvDeliver(p, w, a, env); }
    case Recorded(_) => InvMovesOn(p, w, v, a, v.tasks[a].phase);
    case Undoing => InvMovesOn(p, w, v, a, v.tasks[a].phase);
    case Waking(_) => InvMovesOn(p, w, v, a, v.tasks[a].phase);
  }

  lemma InvMain(p: Program, w: World, v: World)
    requires p.WellFormed() && Inv(p, w) && StepMain(w) == Some(v)
    ensures Inv(p, v)
  {
    hide LogOrigin, DeliverOrigin, TaskOk, MessagesOk, LogOk, WellStamped;
    match w.main
    case Drawn(env) => InvLogOrigin(p, w, env);
    case OriginCounted(env) => InvDeliverOrigin(p, w, env);
    case _ =>
      MessagesMainQuiet(p, w, v);
      LogKeeps(p, w, v);
  }

  lemma NoOriginYet(p: Program, w: World)
    requires LogOk(p, w) && w.origins == []
    ensures Frontier(w.log, WORLD) == ZERO
  {
    hide Project;
    assert |OriginEvents(w.origins)| == 0;
  }

  lemma InvLogOrigin(p: Program, w: World, env: Envelope)
    requires p.WellFormed() && Inv(p, w) && w.main == Drawn(env)
    ensures Inv(p, LogOrigin(w, env))
  {
    hide TaskOk, LogOk, WellStamped, Increment, EventId, Mid, StampOk;
    MessagesLogOrigin(p, w, env);
    LogAppendsOrigin(p, w, env);
    if |w.origins| == 0 {
      NoOriginYet(p, w);
      EmitIsStamped(p, w, WORLD, OnLocal(ZERO, WORLD), env);
      WellStampedAppend(w.log, EmitEvent(WORLD, 1, env));
    }
  }

  lemma InvDeliverOrigin(p: Program, w: World, env: Envelope)
    requires p.WellFormed() && Inv(p, w) && w.main == OriginCounted(env) && env.dst in w.boxes
    ensures Inv(p, DeliverOrigin(w, env))
  {
    hide TaskOk, MessagesOk, LogOk, WellStamped;
    var v := DeliverOrigin(w, env);
    MessagesDeliverOrigin(p, w, env);
    LogKeeps(p, w, v);
  }

  lemma InvNext(p: Program, w: World, l: Label, v: World)
    requires p.WellFormed() && Inv(p, w) && Next(p, w, l) == Some(v)
    ensures Inv(p, v)
  {
    hide StepTask, StepMain, AbortTask, DrawOrigin, TaskOk, MessagesOk, LogOk, WellStamped;
    match l
    case TaskMove(a) => InvTask(p, w, v, a);
    case MainMove => InvMain(p, w, v);
    case Abort(a) => InvAbort(p, w, a);
    case Origin(dst, msg) => InvDrawOrigin(p, w, dst, msg);
  }

  lemma InvDrawOrigin(p: Program, w: World, dst: Name, msg: Payload)
    requires p.WellFormed() && Inv(p, w) && w.main.Injecting? && dst in p.names
    ensures Inv(p, DrawOrigin(w, dst, msg))
  {
    hide TaskOk, MessagesOk, LogOk, WellStamped, OnLocal;
    MessagesDrawOrigin(p, w, dst, msg);
    LogKeeps(p, w, DrawOrigin(w, dst, msg));
  }

  lemma {:induction false} InvExec(p: Program, ls: seq<Label>, w: World)
    requires p.WellFormed() && Exec(p, Init(p), ls) == Some(w)
    ensures Inv(p, w)
  {
    hide Inv, Init, Next;
    if ls == [] {
      InvInit(p);
    } else {
      var v := Exec(p, Init(p), ls[..|ls| - 1]).value;
      InvExec(p, ls[..|ls| - 1], v);
      InvNext(p, v, ls[|ls| - 1], w);
    }
  }

  /** Every reachable state, under every interleaving, satisfies the invariant. */
  lemma ReachableInv(p: Program, w: World)
    requires p.WellFormed() && Reachable(p, w)
    ensures Inv(p, w)
  {
    var ls: seq<Label> :| Exec(p, Init(p), ls) == Some(w);
    InvExec(p, ls, w);
  }

  lemma InvPeopled(p: Program, w: World)
    requires Inv(p, w)
    ensures w.tasks.Keys == w.boxes.Keys == p.names
  {}
}
