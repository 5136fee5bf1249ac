/** How the sequential replayer follows a recorded run, one context call and one
    handler at a time. */
module Simulation {
  import opened Names
  import opened Clocks
  import opened Events
  import opened Logs
  import opened Recorder
  import opened Traces
  import opened Recordings
  import opened Embedding
  import opened Replays
  import opened Recall

  /** How much of `a`'s recorded history has been re-executed. */
  function Cut(st: State, a: Name): nat { StampIn(st, a).seqNo }

  /** Actor `a` stands where its recorded history stood after `Cut` entries; its
      handler still has `todo` to do. */
  ghost predicate StateAt(p: Program, w: World, st: State, a: Name, todo: seq<Action>) {
    && a in st.actors && a in w.tasks && Cut(st, a) <= |Trace(w, a)|
    && var tr := Trace(w, a)[..Cut(st, a)];
       && StampIn(st, a) == Stamps(a, tr)
       && SendsIn(st, a) == SendCount(tr)
       && Behave(p, a, tr) == Some((st.actors[a], todo))
  }

  /** The emit of `env` has been re-executed. */
  ghost predicate Known(w: World, st: State, env: Envelope) {
    env.msgId in w.sentAt && (w.sentAt[env.msgId].0 == WORLD || w.sentAt[env.msgId].1 < Cut(st, w.sentAt[env.msgId].0))
  }

  /** The receive of `env` has been re-executed. */
  ghost predicate Consumed(w: World, st: State, env: Envelope) {
    env.msgId in w.place && match w.place[env.msgId] case Received(a, x) => x < Cut(st, a) case _ => false
  }

  /** Every message sent but not yet received is pending, exactly as it was sent. */
  ghost predicate PendingOk(w: World, st: State) {
    forall env | Sent(w, env) && Known(w, st, env) && !Consumed(w, st, env) ::
      env.msgId in st.pending && st.pending[env.msgId] == env
  }

  ghost predicate ProducedOk(p: Program, w: World, st: State) {
    && (forall a, n: nat | a in p.names && 1 <= n <= Cut(st, a) :: EventId(a, n) in st.produced)
    && (w.origins != [] ==> EventId(WORLD, 1) in st.produced)
  }

  ghost predicate Channel(p: Program, w: World, st: State) {
    && st.divergences == [] && st.actors.Keys == p.names
    && PendingOk(w, st) && ProducedOk(p, w, st)
  }

  /** `next` differs from `st` on actor `a` alone. */
  ghost predicate SameElsewhere(st: State, next: State, a: Name) {
    && next.actors.Keys == st.actors.Keys
    && forall b | b != a ::
         && StampIn(next, b) == StampIn(st, b) && SendsIn(next, b) == SendsIn(st, b)
         && (b in st.actors ==> next.actors[b] == st.actors[b])
  }

  // ----------------------------------------------------- one history entry

  /** The recorded program can have every beginning of the history it left. */
  lemma OwnHistory(p: Program, w: World, a: Name, n: nat)
    requires Recording(p, w) && a in p.names && a in w.tasks && n <= |Trace(w, a)|
    ensures Behave(p, a, Trace(w, a)[..n]).Some?
  {
    hide MessagesOk, LogOk, WellStamped, PhaseOk, Behave;
    assert TaskOk(p, a, w.tasks[a]);
    BehavePrefix(p, a, Trace(w, a), n);
  }

  /** The next history entry continues the replayed actor's state, if the replaying
      code `q` can have it next. */
  lemma Resume(p: Program, w: World, q: Program, st: State, a: Name, todo: seq<Action>)
    requires Recording(p, w) && a in p.names && StateAt(q, w, st, a, todo) && Cut(st, a) < |Trace(w, a)|
    requires Behave(q, a, Trace(w, a)[..Cut(st, a) + 1]).Some?
    ensures var c, tr := Cut(st, a), Trace(w, a);
      && Stamps(a, tr[..c + 1]) == StampAfter(a, StampIn(st, a), tr[c])
      && Stamps(a, tr[..c + 1]).seqNo == c + 1
      && EventsOf(a, tr)[c] == EventAfter(a, StampIn(st, a), tr[c])
      && Behave(q, a, tr[..c + 1]) == Behaved(q, a, Stamps(a, tr[..c + 1]), st.actors[a], todo, tr[c])
      && SendCount(tr[..c + 1]) == SendCount(tr[..c]) + if tr[c].DidSend? then 1 else 0
  {
    hide Recording, StampAfter, EventAfter, Behaved;
    var c, tr := Cut(st, a), Trace(w, a);
    assert tr[..c + 1] == tr[..c] + [tr[c]];
    TraceAppend(q, a, tr[..c], tr[c]);
    EventsAt(a, tr, c);
    StampsCount(a, tr[..c + 1]);
    SendCountAppend(tr[..c], tr[c]);
  }

  lemma SendCountAppend(tr: seq<Done>, d: Done)
    ensures SendCount(tr + [d]) == SendCount(tr) + if d.DidSend? then 1 else 0
  {
    assert (tr + [d])[..|tr|] == tr;
  }

  /** A re-produced event that the recording has, exactly, raises no divergence. */
  lemma VerifyRecorded(p: Program, w: World, st: State, a: Name, x: nat, e: CausalEvent)
    requires Recording(p, w) && a in p.names && x < |Trace(w, a)| && e == EventsOf(a, Trace(w, a))[x]
    ensures Verify(w.log, st, e) == st.(produced := st.produced + {EventId(a, x + 1)}, made := st.made + [e])
    ensures e.id == EventId(a, x + 1)
  {
    hide EventId, ById, TasksOk, MessagesOk, LogOk, WellStamped, DistinctIds, EventsOf;
    var i := PositionOf(p, w, a, x);
    StampedIdsDistinct(w.log);
    ByIdFinds(w.log, i);
  }

  lemma NoSuchEvent(p: Program, w: World, a: Name)
    requires Recording(p, w) && a in p.names
    ensures EventId(a, |Trace(w, a)| + 1) !in ById(w.log)
  {
    hide EventId, ById, TasksOk, MessagesOk, LogOk, WellStamped, EventsOf;
    var id := EventId(a, |Trace(w, a)| + 1);
    if id in ById(w.log) {
      var i := ByIdHolds(w.log, id);
      StampedAt(w.log, i);
      EventIdInjective(a, |Trace(w, a)| + 1, w.log[i].actor, w.log[i].seqNo);
      var x := EntryOf(p, w, i);
      assert false;
    }
  }

  lemma PendingKept(p: Program, w: World, st: State, next: State, a: Name)
    requires Recording(p, w) && a in p.names && PendingOk(w, st) && Cut(st, a) < |Trace(w, a)|
    requires Cut(next, a) == Cut(st, a) + 1 && forall b | b != a :: Cut(next, b) == Cut(st, b)
    requires match Trace(w, a)[Cut(st, a)]
             case DidWork => next.pending == st.pending
             case DidSend(env) => next.pending == st.pending[env.msgId := env]
             case DidRecv(env) => next.pending == st.pending - {env.msgId}
    ensures PendingOk(w, next)
  {
    hide Cut, TasksOk, MessagesOk, LogOk, WellStamped;
    MessagesOf(p, w, a);
    var c, tr := Cut(st, a), Trace(w, a);
    assert TraceMsgs(w, a, tr) && (tr[c].DidSend? ==> w.sentAt[tr[c].env.msgId] == (a, c));
    forall env | Sent(w, env) && Known(w, next, env) && !Consumed(w, next, env)
      ensures env.msgId in next.pending && next.pending[env.msgId] == env
    {
      assert !Consumed(w, st, env);
      if !Known(w, st, env) {
        assert tr[c] == DidSend(env);
      }
    }
  }

  lemma ProducedKept(p: Program, w: World, st: State, next: State, a: Name)
    requires ProducedOk(p, w, st)
    requires Cut(next, a) == Cut(st, a) + 1 && forall b | b != a :: Cut(next, b) == Cut(st, b)
    requires next.produced == st.produced + {EventId(a, Cut(st, a) + 1)}
    ensures ProducedOk(p, w, next)
  {
    hide Cut, EventId;
  }

  // ----------------------------------------------------- one context call

  /** A context call the recording has is re-executed without divergence. */
  lemma ActFollows(p: Program, w: World, st: State, a: Name, todo: seq<Action>)
    requires Recording(p, w) && a in p.names && Channel(p, w, st) && StateAt(p, w, st, a, todo) && todo != []
    requires Cut(st, a) < |Trace(w, a)|
    ensures var next := Act(w.log, st, a, todo[0]);
      && Channel(p, w, next) && StateAt(p, w, next, a, todo[1..]) && SameElsewhere(st, next, a)
      && Cut(next, a) == Cut(st, a) + 1 && !Trace(w, a)[Cut(st, a)].DidRecv?
  {
    hide Recording, EventId, Mid, Act, OnLocal, OnRecv, Behave, Stamps, EventsOf, ById, PendingOk, ProducedOk,
        SendCount, RecordedId;
    var c, tr, next := Cut(st, a), Trace(w, a), Act(w.log, st, a, todo[0]);
    OwnHistory(p, w, a, c + 1);
    Resume(p, w, p, st, a, todo);
    if todo[0].Work? { ActWork(p, w, p, st, a, todo); } else { ActSend(p, w, p, st, a, todo); }
    assert Cut(next, a) == c + 1;
    forall b | b != a ensures Cut(next, b) == Cut(st, b) {}
    PendingKept(p, w, st, next, a);
    ProducedKept(p, w, st, next, a);
  }

  lemma ActWork(p: Program, w: World, q: Program, st: State, a: Name, todo: seq<Action>)
    requires Recording(p, w) && a in p.names && StateAt(q, w, st, a, todo) && todo != [] && todo[0].Work?
    requires Cut(st, a) < |Trace(w, a)| && Behave(q, a, Trace(w, a)[..Cut(st, a) + 1]).Some?
    ensures var c, tr := Cut(st, a), Trace(w, a);
      && tr[c].DidWork? && Behave(q, a, tr[..c + 1]) == Some((st.actors[a], todo[1..]))
      && Act(w.log, st, a, Work) == st.(
           produced := st.produced + {EventId(a, c + 1)}, made := st.made + [EventsOf(a, tr)[c]],
           clocks := st.clocks[a := Stamps(a, tr[..c + 1])])
  {
    hide Recording, EventId, OnLocal, OnRecv, Behave, Stamps, EventsOf, ById, SendCount, Verify;
    var c, tr := Cut(st, a), Trace(w, a);
    Resume(p, w, q, st, a, todo);
    VerifyRecorded(p, w, st, a, c, EventsOf(a, tr)[c]);
  }

  lemma ActSend(p: Program, w: World, q: Program, st: State, a: Name, todo: seq<Action>)
    requires Recording(p, w) && a in p.names && StateAt(q, w, st, a, todo) && todo != [] && todo[0].Send?
    requires Cut(st, a) < |Trace(w, a)| && Behave(q, a, Trace(w, a)[..Cut(st, a) + 1]).Some?
    ensures var c, tr := Cut(st, a), Trace(w, a);
      && tr[c].DidSend? && Behave(q, a, tr[..c + 1]) == Some((st.actors[a], todo[1..]))
      && Act(w.log, st, a, todo[0]) == st.(
           sends := st.sends[a := SendCount(tr[..c]) + 1],
           produced := st.produced + {EventId(a, c + 1)}, made := st.made + [EventsOf(a, tr)[c]],
           pending := st.pending[tr[c].env.msgId := tr[c].env],
           clocks := st.clocks[a := Stamps(a, tr[..c + 1])])
  {
    hide Recording, EventId, Mid, OnLocal, OnRecv, Behave, Stamps, EventsOf, ById, SendCount, Verify, RecordedId;
    var c, tr := Cut(st, a), Trace(w, a);
    Resume(p, w, q, st, a, todo);
    var env := tr[c].env;
    SendRecalled(p, w, a, c);
    var (named, id) := NextMsgId(w.log, st, a);
    assert named == st.(sends := st.sends[a := SendCount(tr[..c]) + 1]) && id == env.msgId;
    VerifyRecorded(p, w, named, a, c, EventsOf(a, tr)[c]);
  }

  /** A context call beyond the recorded history is always noticed. */
  lemma ActBeyond(p: Program, w: World, st: State, a: Name, todo: seq<Action>)
    requires Recording(p, w) && a in p.names && StateAt(p, w, st, a, todo) && todo != []
    requires Cut(st, a) == |Trace(w, a)|
    ensures Act(w.log, st, a, todo[0]).divergences != []
  {
    hide Recording, EventId, Mid, Behave, Stamps, ById, SendCount, RecordedId, Increment, SendLabel;
    var tr := Trace(w, a);
    assert tr[..|tr|] == tr;
    match todo[0]
    case Work => NoSuchEvent(p, w, a);
    case Send(dst, msg) =>
      ExtraSendNotRecalled(p, w, a);
      var (named, id) := NextMsgId(w.log, st, a);
      assert named.divergences != [];
      var s := OnLocal(StampIn(st, a), a);
      VerifyKeeps(w.log, named, EmitEvent(a, s.seqNo, Outgoing(a, s, id, dst, msg)));
  }

  // --------------------------------------------------------- one handler

  ghost predicate Clear(p: Program, w: World, a: Name) { a in w.tasks && Owed(p, a, w.tasks[a]) == [] }

  /** Behind the whole history only what the recording left undone remains. */
  lemma OwedAtEnd(p: Program, w: World, st: State, a: Name, todo: seq<Action>)
    requires Recording(p, w) && a in p.names && StateAt(p, w, st, a, todo) && Cut(st, a) == |Trace(w, a)|
    ensures todo == Owed(p, a, w.tasks[a]) && st.actors[a] == Settled(p, a, w.tasks[a])
  {
    hide MessagesOk, LogOk, WellStamped, PhaseOk, Behave, Stamps;
    assert TaskOk(p, a, w.tasks[a]);
    assert Trace(w, a)[..|Trace(w, a)|] == Trace(w, a);
  }

  /** No receive lies between two points of `a`'s history. */
  ghost predicate NoRecvs(w: World, a: Name, lo: nat, hi: nat)
    requires a in w.tasks
  {
    forall x | lo <= x < hi && x < |Trace(w, a)| :: !Trace(w, a)[x].DidRecv?
  }

  /** The rest of a handler is re-executed as recorded, if the recording is complete
      or nothing is noticed. */
  lemma {:induction false} ActAllFollows(p: Program, w: World, st: State, a: Name, todo: seq<Action>)
    requires Recording(p, w) && a in p.names && Channel(p, w, st) && StateAt(p, w, st, a, todo)
    requires ActAll(w.log, st, a, todo).divergences == [] || Clear(p, w, a)
    ensures var next := ActAll(w.log, st, a, todo);
      && Channel(p, w, next) && StateAt(p, w, next, a, []) && SameElsewhere(st, next, a)
      && Cut(st, a) <= Cut(next, a) && NoRecvs(w, a, Cut(st, a), Cut(next, a))
    decreases |todo|
  {
    hide Recording, Channel, StateAt, Act, Cut, Owed;
    if todo != [] {
      var mid := Act(w.log, st, a, todo[0]);
      Bounded(p, w, st, a, todo);
      if Cut(st, a) == |Trace(w, a)| {
        ActBeyond(p, w, st, a, todo);
        OwedAtEnd(p, w, st, a, todo);
        ActAllKeeps(w.log, mid, a, todo[1..]);
        assert false;
      }
      ActFollows(p, w, st, a, todo);
      ActAllFollows(p, w, mid, a, todo[1..]);
    }
  }

  lemma Bounded(p: Program, w: World, st: State, a: Name, todo: seq<Action>)
    requires StateAt(p, w, st, a, todo)
    ensures a in w.tasks && a in st.actors && Cut(st, a) <= |Trace(w, a)|
  {}
}
