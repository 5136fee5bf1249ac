/** Record-then-replay fidelity: re-executing a recording, in any order that
    respects its poset, reproduces it exactly if the recording is complete, and is
    noticed to differ otherwise. */
module Fidelity {
  import opened Names
  import opened Clocks
  import opened Events
  import opened Logs
  import opened Recorder
  import opened Traces
  import opened Recordings
  import opened Graphs
  import opened Posets
  import opened Embedding
  import opened Extensions
  import opened Engine
  import opened Replays
  import opened Recall
  import opened Simulation

  /** Nothing that a handler asked for is missing from the log. */
  ghost predicate AllClear(p: Program, w: World) { forall a | a in p.names :: Clear(p, w, a) }

  ghost predicate Unstarted(p: Program, st: State, a: Name) {
    a in st.actors && st.actors[a] == p.init(a) && StampIn(st, a) == ZERO && SendsIn(st, a) == 0
  }

  ghost predicate Stands(p: Program, w: World, st: State, started: set<Name>, a: Name) {
    a in w.tasks && if a in started then StateAt(p, w, st, a, []) else Unstarted(p, st, a)
  }

  /** The simulation relation between handlers: the actors in `started` have run
      their hooks, and every actor is at the end of a handler. */
  ghost predicate Sim(p: Program, w: World, st: State, started: set<Name>) {
    Channel(p, w, st) && forall a | a in p.names :: Stands(p, w, st, started, a)
  }

  /** No receive has been re-executed. */
  ghost predicate NoRecvsYet(p: Program, w: World, st: State) {
    forall a | a in p.names && a in w.tasks :: NoRecvs(w, a, 0, Cut(st, a))
  }

  lemma StandsElsewhere(p: Program, w: World, st: State, next: State, S: set<Name>, a: Name, b: Name)
    requires Stands(p, w, st, S, b) && SameElsewhere(st, next, a) && b != a
    ensures Stands(p, w, next, S + {a}, b)
  {
    hide Stamps, Behave, SendCount;
  }

  lemma SimAfter(p: Program, w: World, st: State, next: State, S: set<Name>, a: Name)
    requires Sim(p, w, st, S) && SameElsewhere(st, next, a) && a in p.names
    requires Channel(p, w, next) && StateAt(p, w, next, a, [])
    ensures Sim(p, w, next, S + {a})
  {
    hide Channel, StateAt, SameElsewhere, Unstarted;
    forall b | b in p.names ensures Stands(p, w, next, S + {a}, b) {
      if b == a {
        Bounded(p, w, next, a, []);
      } else {
        StandsElsewhere(p, w, st, next, S, a, b);
      }
    }
  }

  // ------------------------------------------------------------------- seeds

  /** What the harness is given again: the external stimuli of the run. */
  function Supplied(w: World): seq<(Name, Payload)> {
    seq(|w.origins|, i requires 0 <= i < |w.origins| => (w.origins[i].dst, w.origins[i].msg))
  }

  lemma SeedRestores(p: Program, w: World, st: State)
    requires Recording(p, w) && |w.origins| == 1
    ensures SeedOne(st, EmitEvent(WORLD, 1, w.origins[0]), Supplied(w), 0)
            == st.(produced := st.produced + {EventId(WORLD, 1)},
                pending := st.pending[w.origins[0].msgId := w.origins[0]])
  {
    hide EventId, TasksOk, LogOk, WellStamped, Mid, ParseMid, MessagesOk, IdsOk, VclockFrom, FitsWidth;
    var env := w.origins[0];
    assert OriginMsgs(p, w) by { MessagesParts(p, w); }
    assert IsOrigin(p, env) && w.sentAt[env.msgId] == (WORLD, 0);
    SentFits(p, w, env);
    ParseMidRoundTrip(env.msgId);
    WireRoundTrip(env.vclock);
    assert Canonical(env.vclock);
  }

  lemma MessagesParts(p: Program, w: World)
    requires MessagesOk(p, w)
    ensures OriginMsgs(p, w) && IdsOk(w)
  {}

  function Seeded(p: Program, w: World): State {
    SeedAll(Start(p), EmitsOf(w.log, WORLD), Supplied(w))
  }

  lemma SeedsFollow(p: Program, w: World)
    requires Recording(p, w)
    ensures Sim(p, w, Seeded(p, w), {}) && NoRecvsYet(p, w, Seeded(p, w))
    ensures Seeded(p, w).clocks == Start(p).clocks && Seeded(p, w).sends == map[]
  {
    hide EventId, Mid, ParseMid, EmitEvent, EmitsOf, TasksOk, LogOk, WellStamped, MessagesOk, SeedOne;
    WorldRecalled(p, w);
    var st, es := Seeded(p, w), OriginEvents(w.origins);
    if es == [] {
      assert st == Start(p);
    } else {
      assert es == [es[0]] && es[..0] == [];
      SeedRestores(p, w, Start(p));
      assert SeedAll(Start(p), es[..0], Supplied(w)) == Start(p);
      assert st == SeedOne(Start(p), es[0], Supplied(w), 0);
    }
    SeedPending(p, w, st);
  }

  lemma SeedPending(p: Program, w: World, st: State)
    requires Recording(p, w) && st.clocks == Start(p).clocks
    requires w.origins != [] ==> st.pending == map[w.origins[0].msgId := w.origins[0]]
    ensures PendingOk(w, st)
  {
    hide TasksOk, LogOk, WellStamped, MessagesOk;
    forall env | Sent(w, env) && Known(w, st, env) && !Consumed(w, st, env)
      ensures env.msgId in st.pending && st.pending[env.msgId] == env
    {
      assert Cut(st, w.sentAt[env.msgId].0) == 0;
    }
  }

  // ------------------------------------------------------------ started pass

  lemma DriveStarts(p: Program, w: World, st: State, S: set<Name>, a: Name)
    requires Recording(p, w) && Sim(p, w, st, S) && a in p.names && a !in S
    requires Drive(p, w.log, st, a, None).divergences == [] || Clear(p, w, a)
    ensures var next := Drive(p, w.log, st, a, None);
      && Sim(p, w, next, S + {a}) && SameElsewhere(st, next, a)
      && a in w.tasks && NoRecvs(w, a, 0, Cut(next, a))
  {
    hide Recording, EventId, ActAll, Owed, ProducedOk, PendingOk;
    assert Stands(p, w, st, S, a);
    var (u, acts) := p.start(a, st.actors[a]);
    var mid := st.(actors := st.actors[a := u]);
    assert Trace(w, a)[..0] == [];
    assert StateAt(p, w, mid, a, acts);
    assert Channel(p, w, mid) by { SameChannel(p, w, st, mid); }
    ActAllFollows(p, w, mid, a, acts);
    SimAfter(p, w, st, ActAll(w.log, mid, a, acts), S, a);
  }

  lemma SameChannel(p: Program, w: World, st: State, mid: State)
    requires Channel(p, w, st) && mid.actors.Keys == p.names && mid == st.(actors := mid.actors)
    ensures Channel(p, w, mid)
  {
    hide EventId, Sent;
    forall a ensures Cut(mid, a) == Cut(st, a) {}
    forall env | Sent(w, env) && Known(w, mid, env) && !Consumed(w, mid, env)
      ensures env.msgId in mid.pending && mid.pending[env.msgId] == env
    {
      assert Known(w, st, env) && !Consumed(w, st, env);
    }
  }

  lemma {:induction false} StartAllKeeps(p: Program, log: seq<CausalEvent>, st: State, rest: set<Name>)
    requires rest <= st.actors.Keys
    ensures st.divergences <= StartAll(p, log, st, rest).divergences
    decreases |rest|
  {
    hide Drive;
    if rest != {} {
      var a := LeastName(rest);
      ActorsKept(p, log, st, a, None);
      StartAllKeeps(p, log, Drive(p, log, st, a, None), rest - {a});
    }
  }

  lemma {:induction false} StartAllFollows(p: Program, w: World, st: State, rest: set<Name>)
    requires Recording(p, w) && rest <= p.names && Sim(p, w, st, p.names - rest) && NoRecvsYet(p, w, st)
    requires rest <= st.actors.Keys
    requires StartAll(p, w.log, st, rest).divergences == [] || AllClear(p, w)
    ensures var next := StartAll(p, w.log, st, rest);
      Sim(p, w, next, p.names) && NoRecvsYet(p, w, next)
    decreases |rest|
  {
    hide Recording, Sim, Drive, Clear, NoRecvs, SameElsewhere;
    if rest == {} {
      assert p.names - rest == p.names;
    } else {
      var a := LeastName(rest);
      var mid := Drive(p, w.log, st, a, None);
      ActorsKept(p, w.log, st, a, None);
      StartAllKeeps(p, w.log, mid, rest - {a});
      DriveStarts(p, w, st, p.names - rest, a);
      assert p.names - rest + {a} == p.names - (rest - {a});
      NoRecvsElsewhere(p, w, st, mid, a);
      StartAllFollows(p, w, mid, rest - {a});
    }
  }

  lemma NoRecvsElsewhere(p: Program, w: World, st: State, next: State, a: Name)
    requires NoRecvsYet(p, w, st) && SameElsewhere(st, next, a) && a in w.tasks && NoRecvs(w, a, 0, Cut(next, a))
    ensures NoRecvsYet(p, w, next)
  {
    hide NoRecvs;
  }

  // ---------------------------------------------------------------- ordering

  /** The first `k` events of the order include `a`'s event number `n`. */
  ghost predicate Placed(log: seq<CausalEvent>, order: seq<nat>, k: nat, a: Name, n: nat) {
    exists l | 0 <= l < k && l < |order| && order[l] < |log| :: log[order[l]].actor == a && log[order[l]].seqNo == n
  }

  /** Exactly the receives among the first `k` events have been re-executed. */
  ghost predicate Synced(p: Program, w: World, order: seq<nat>, k: nat, st: State) {
    forall a, x: nat | a in p.names && a in w.tasks && x < |Trace(w, a)| && Trace(w, a)[x].DidRecv? ::
      x < Cut(st, a) <==> Placed(w.log, order, k, a, x + 1)
  }

  lemma ReachInOrder(E: Edges, n: nat, o: seq<nat>, i: nat, j: nat)
    requires IsExtension(E, n, o) && Within(E, n) && i < n && j < n && Reach(E, o[i], o[j])
    ensures i < j
  {
    var less := (x: nat, y: nat) => exists k, l :: 0 <= k < l < n && o[k] == x && o[l] == y;
    forall e | e in E ensures less(e.0, e.1) {
      ExtensionCovers(E, n, o, e.0);
      ExtensionCovers(E, n, o, e.1);
      var k :| 0 <= k < n && o[k] == e.0;
      var l :| 0 <= l < n && o[l] == e.1;
      assert (o[k], o[l]) in E;
    }
    var q: seq<nat> :| IsWalk(E, q, o[i], o[j]);
    IncreasingAlongPaths(E, less, q, o[i], o[j]);
  }

  lemma LogEdgesWithin(log: seq<CausalEvent>)
    ensures Within(LogEdges(log), |log|)
  {
    forall e | e in LogEdges(log) ensures e.0 < |log| && e.1 < |log| { LogEdge(log, e.0, e.1); }
  }

  /** An actor's earlier events are in the past of its later ones. */
  lemma LineReaches(log: seq<CausalEvent>, i: nat, j: nat)
    requires WellStamped(log) && i < |log| && j < |log| && log[i].actor == log[j].actor && log[i].seqNo < log[j].seqNo
    ensures Reach(LogEdges(log), i, j)
  {
    hide WellStamped, Reach, LogEdges;
    PastIsCounted(log, i, j);
    ClockOwnership(log, j, log[j].actor);
  }

  /** Between handlers the next thing in an actor's history is a receive. */
  lemma NextIsRecv(p: Program, w: World, st: State, a: Name)
    requires Recording(p, w) && a in p.names && StateAt(p, w, st, a, []) && Cut(st, a) < |Trace(w, a)|
    ensures Trace(w, a)[Cut(st, a)].DidRecv?
  {
    hide Recording, Behave, Stamps, EventsOf, SendCount, EventAfter, StampAfter;
    OwnHistory(p, w, a, Cut(st, a) + 1);
    Resume(p, w, p, st, a, []);
  }

  /** Everything in the causal past of the next event has been re-executed, up to
      the receive that starts the handler it belongs to. */
  lemma CaughtUp(p: Program, w: World, order: seq<nat>, k: nat, st: State, b: Name, y: nat, i: nat)
    requires Recording(p, w) && IsExtension(LogEdges(w.log), |w.log|, order) && k < |order|
    requires Sim(p, w, st, p.names) && Synced(p, w, order, k, st)
    requires b in p.names && b in w.tasks && y < |Trace(w, b)| && i < |w.log| && w.log[i] == EventsOf(b, Trace(w, b))[y]
    requires i == order[k] || Reach(LogEdges(w.log), i, order[k])
    ensures y <= Cut(st, b)
    ensures !Trace(w, b)[y].DidRecv? ==> y < Cut(st, b)
  {
    hide TasksOk, MessagesOk, LogOk, WellStamped, Reach, LogEdges, IsExtension, Channel, StateAt, EventsOf, EventId,
        Cut, Synced, Within;
    assert Stands(p, w, st, p.names, b);
    Bounded(p, w, st, b, []);
    var c := Cut(st, b);
    if c <= y {
      NextIsRecv(p, w, st, b);
      if c < y {
        EventsAt(b, Trace(w, b), y);
        var ic := PositionOf(p, w, b, c);
        LineReaches(w.log, ic, i);
        if i != order[k] { ReachTransitive(LogEdges(w.log), ic, i, order[k]); }
        PlacedInPast(w.log, order, k, ic);
        SyncedAt(p, w, order, k, st, b, c);
        assert false;
      }
    }
  }

  lemma PlacedInPast(log: seq<CausalEvent>, order: seq<nat>, k: nat, i: nat)
    requires IsExtension(LogEdges(log), |log|, order) && k < |order| && i < |log| && Reach(LogEdges(log), i, order[k])
    ensures Placed(log, order, k, log[i].actor, log[i].seqNo)
  {
    hide Reach, LogEdges;
    LogEdgesWithin(log);
    ExtensionCovers(LogEdges(log), |log|, order, i);
    var l :| 0 <= l < |order| && order[l] == i;
    ReachInOrder(LogEdges(log), |log|, order, l, k);
  }

  lemma SyncedAt(p: Program, w: World, order: seq<nat>, k: nat, st: State, a: Name, x: nat)
    requires Synced(p, w, order, k, st) && a in p.names && a in w.tasks && x < |Trace(w, a)| && Trace(w, a)[x].DidRecv?
    ensures x < Cut(st, a) <==> Placed(w.log, order, k, a, x + 1)
  {}

  /** Each coordinate is placed once. */
  lemma NotPlacedBefore(log: seq<CausalEvent>, order: seq<nat>, k: nat)
    requires WellStamped(log) && IsExtension(LogEdges(log), |log|, order) && k < |order|
    ensures order[k] < |log| && !Placed(log, order, k, log[order[k]].actor, log[order[k]].seqNo)
  {
    hide WellStamped, LogEdges;
    StampedIsBuildable(log);
    forall l | 0 <= l < k && log[order[l]].actor == log[order[k]].actor
      ensures log[order[l]].seqNo != log[order[k]].seqNo
    {
      assert if order[l] < order[k] then true else order[k] < order[l];
    }
  }

  lemma PlacedNext(log: seq<CausalEvent>, order: seq<nat>, k: nat, a: Name, n: nat)
    requires k < |order| && order[k] < |log|
    ensures Placed(log, order, k + 1, a, n) <==>
            Placed(log, order, k, a, n) || (log[order[k]].actor == a && log[order[k]].seqNo == n)
  {}

  // ------------------------------------------------------------ one receive

  /** A receive is re-executed from exactly the envelope it was recorded with. */
  lemma DeliverTakes(p: Program, w: World, st: State, ev: CausalEvent, a: Name, env: Envelope)
    requires Recording(p, w) && a in p.names && StateAt(p, w, st, a, []) && Channel(p, w, st)
    requires Cut(st, a) < |Trace(w, a)| && Trace(w, a)[Cut(st, a)] == DidRecv(env)
        && ev == EventsOf(a, Trace(w, a))[Cut(st, a)]
    requires env.msgId in st.pending && st.pending[env.msgId] == env && env.msgId <= U64_MAX
    ensures var (u, acts) := p.handle(a, st.actors[a], env.msg);
      exists mid :: Channel(p, w, mid) && StateAt(p, w, mid, a, acts) && SameElsewhere(st, mid, a)
                    && Cut(mid, a) == Cut(st, a) + 1 && ReplayRecv(p, w.log, st, ev) == ActAll(w.log, mid, a, acts)
  {
    hide Recording, EventId, Mid, ParseMid, Behave, Stamps, EventsOf, ById, SendCount, Verify, ActAll, PendingOk,
        ProducedOk, Merge, Increment;
    var c, tr := Cut(st, a), Trace(w, a);
    var (u, acts) := p.handle(a, st.actors[a], env.msg);
    OwnHistory(p, w, a, Cut(st, a) + 1);
    Resume(p, w, p, st, a, []);
    ParseMidRoundTrip(env.msgId);
    var s := OnRecv(StampIn(st, a), a, env.vclock, env.lamport);
    var open := st.(pending := st.pending - {env.msgId}, clocks := st.clocks[a := s]);
    VerifyRecorded(p, w, open, a, c, ev);
    var mid := Verify(w.log, open, ev).(actors := st.actors[a := u]);
    PendingKept(p, w, st, mid, a);
    ProducedKept(p, w, st, mid, a);
    assert mid.actors.Keys == p.names;
    assert StateAt(p, w, mid, a, acts);
    assert ReplayRecv(p, w.log, st, ev) == ActAll(w.log, mid, a, acts);
  }

  /** The message a recorded receive consumes is pending when its turn comes. */
  lemma MessageReady(p: Program, w: World, order: seq<nat>, k: nat, st: State, a: Name, x: nat, env: Envelope)
    requires Recording(p, w) && IsExtension(LogEdges(w.log), |w.log|, order) && k < |order| && order[k] < |w.log|
    requires Sim(p, w, st, p.names) && Synced(p, w, order, k, st)
    requires a in p.names && a in w.tasks && x < |Trace(w, a)| && Trace(w, a)[x] == DidRecv(env)
    requires w.log[order[k]] == EventsOf(a, Trace(w, a))[x] && Cut(st, a) == x
    ensures env.msgId in st.pending && st.pending[env.msgId] == env && env.msgId <= U64_MAX
  {
    hide TasksOk, LogOk, MessagesOk, WellStamped, LogEdges, IsExtension, StateAt, EventsOf, EventId, Mid, Cut, Synced,
        Reach, FitsWidth;
    MessagesOf(p, w, a);
    assert At(w, env, Received(a, x)) && Sent(w, env);
    assert !Consumed(w, st, env);
    SentFits(p, w, env);
    var (b, y) := w.sentAt[env.msgId];
    if b != WORLD {
      var i := PositionOf(p, w, b, y);
      EmitPrecedes(p, w, a, x, b, y, env, i, order[k]);
      CaughtUp(p, w, order, k, st, b, y, i);
    }
    assert Known(w, st, env);
  }

  lemma EmitPrecedes(p: Program, w: World, a: Name, x: nat, b: Name, y: nat, env: Envelope, i: nat, j: nat)
    requires Recording(p, w) && a in w.tasks && b in w.tasks && x < |Trace(w, a)| && y < |Trace(w, b)|
    requires Trace(w, a)[x] == DidRecv(env) && Trace(w, b)[y] == DidSend(env)
    requires i < |w.log| && j < |w.log| && w.log[i] == EventsOf(b, Trace(w, b))[y]
        && w.log[j] == EventsOf(a, Trace(w, a))[x]
    ensures Reach(LogEdges(w.log), i, j)
  {
    hide Recording, EventsOf, EventId, Mid, Reach, LogEdges, Stamps;
    EventsAt(a, Trace(w, a), x);
    EventsAt(b, Trace(w, b), y);
    LogEdge(w.log, i, j);
    EdgeReaches(LogEdges(w.log), i, j);
  }

  lemma DeliverFollows(p: Program, w: World, order: seq<nat>, k: nat, st: State)
    requires Recording(p, w) && IsExtension(LogEdges(w.log), |w.log|, order) && k < |order| && order[k] < |w.log|
    requires Sim(p, w, st, p.names) && Synced(p, w, order, k, st)
    requires ReplayRecv(p, w.log, st, w.log[order[k]]).divergences == [] || AllClear(p, w)
    ensures var next := ReplayRecv(p, w.log, st, w.log[order[k]]);
      Sim(p, w, next, p.names) && Synced(p, w, order, k + 1, next)
  {
    hide Recording, Sim, LogEdges, IsExtension, Clear, Synced, EventsOf, EventId, ReplayRecv;
    var ev := w.log[order[k]];
    if ev.op == Recv {
      RecvNotWorld(p, w, order[k]);
      var a := ev.actor;
      var x := EntryOfRecv(p, w, order[k]);
      RecvFollows(p, w, order, k, st, a, x, Trace(w, a)[x].env);
    } else {
      NonRecvKeeps(p, w, order, k, st);
      assert ReplayRecv(p, w.log, st, ev) == st by { DeliverSkips(p, w.log, st, ev); }
    }
  }

  lemma DeliverSkips(p: Program, log: seq<CausalEvent>, st: State, ev: CausalEvent)
    requires ev.op != Recv
    ensures ReplayRecv(p, log, st, ev) == st
  {}

  lemma RecvNotWorld(p: Program, w: World, i: nat)
    requires Recording(p, w) && i < |w.log| && w.log[i].op == Recv
    ensures w.log[i].actor != WORLD
  {
    hide Recording, EventId, Mid;
    if w.log[i].actor == WORLD { WorldEntry(p, w, i); }
  }

  lemma EntryOfRecv(p: Program, w: World, i: nat) returns (x: nat)
    requires Recording(p, w) && i < |w.log| && w.log[i].op == Recv && w.log[i].actor != WORLD
    ensures var a := w.log[i].actor;
      a in p.names && a in w.tasks && x < |Trace(w, a)| && w.log[i] == EventsOf(a, Trace(w, a))[x]
      && Trace(w, a)[x].DidRecv? && w.log[i].seqNo == x + 1
  {
    hide Recording, EventId, Mid, EventsOf, Stamps;
    x := EntryOf(p, w, i);
    EventsAt(w.log[i].actor, Trace(w, w.log[i].actor), x);
  }

  lemma NonRecvKeeps(p: Program, w: World, order: seq<nat>, k: nat, st: State)
    requires Recording(p, w) && k < |order| && order[k] < |w.log| && w.log[order[k]].op != Recv
    requires Synced(p, w, order, k, st)
    ensures Synced(p, w, order, k + 1, st)
  {
    hide Recording, EventId, Mid, EventsOf, Stamps, Placed, Cut;
    forall a, x: nat | a in p.names && a in w.tasks && x < |Trace(w, a)| && Trace(w, a)[x].DidRecv?
      ensures x < Cut(st, a) <==> Placed(w.log, order, k + 1, a, x + 1)
    {
      PlacedNext(w.log, order, k, a, x + 1);
      if w.log[order[k]].actor == a && w.log[order[k]].seqNo == x + 1 {
        NamesAreNotWorld(p, w, a);
        var z := EntryOf(p, w, order[k]);
        EventsAt(a, Trace(w, a), x);
        assert false;
      }
    }
  }

  lemma NamesAreNotWorld(p: Program, w: World, a: Name)
    requires Recording(p, w) && a in p.names
    ensures a != WORLD
  {}

  lemma RecvFollows(p: Program, w: World, order: seq<nat>, k: nat, st: State, a: Name, x: nat, env: Envelope)
    requires Recording(p, w) && IsExtension(LogEdges(w.log), |w.log|, order) && k < |order| && order[k] < |w.log|
    requires Sim(p, w, st, p.names) && Synced(p, w, order, k, st)
    requires a in p.names && a in w.tasks && x < |Trace(w, a)| && Trace(w, a)[x] == DidRecv(env)
    requires w.log[order[k]] == EventsOf(a, Trace(w, a))[x] && w.log[order[k]].actor == a
        && w.log[order[k]].seqNo == x + 1
    requires ReplayRecv(p, w.log, st, w.log[order[k]]).divergences == [] || Clear(p, w, a)
    ensures var next := ReplayRecv(p, w.log, st, w.log[order[k]]);
      Sim(p, w, next, p.names) && Synced(p, w, order, k + 1, next)
  {
    hide LogEdges, IsExtension, Clear, Synced, EventsOf, EventId, ReplayRecv, TasksOk, MessagesOk, LogOk, WellStamped,
        Placed, Channel, StateAt, Cut, SameElsewhere, NoRecvs, ActAll;
    assert Stands(p, w, st, p.names, a);
    Bounded(p, w, st, a, []);
    NotPlacedBefore(w.log, order, k);
    SyncedAt(p, w, order, k, st, a, x);
    CaughtUp(p, w, order, k, st, a, x, order[k]);
    MessageReady(p, w, order, k, st, a, x, env);
    DeliverTakes(p, w, st, w.log[order[k]], a, env);
    var (u, acts) := p.handle(a, st.actors[a], env.msg);
    var mid :| Channel(p, w, mid) && StateAt(p, w, mid, a, acts) && SameElsewhere(st, mid, a)
               && Cut(mid, a) == Cut(st, a) + 1
               && ReplayRecv(p, w.log, st, w.log[order[k]]) == ActAll(w.log, mid, a, acts);
    ActAllFollows(p, w, mid, a, acts);
    var next := ActAll(w.log, mid, a, acts);
    ElsewhereTwice(st, mid, next, a);
    SimAfter(p, w, st, next, p.names, a);
    assert p.names + {a} == p.names;
    RecvSyncs(p, w, order, k, st, next, a, x);
  }

  lemma ElsewhereTwice(st: State, mid: State, next: State, a: Name)
    requires SameElsewhere(st, mid, a) && SameElsewhere(mid, next, a)
    ensures SameElsewhere(st, next, a)
  {}

  lemma RecvSyncs(p: Program, w: World, order: seq<nat>, k: nat, st: State, next: State, a: Name, x: nat)
    requires k < |order| && order[k] < |w.log| && Synced(p, w, order, k, st) && SameElsewhere(st, next, a)
    requires w.log[order[k]].actor == a && w.log[order[k]].seqNo == x + 1
    requires a in w.tasks && Cut(st, a) == x < Cut(next, a) && NoRecvs(w, a, x + 1, Cut(next, a))
    ensures Synced(p, w, order, k + 1, next)
  {
    hide Placed;
    forall b, y: nat | b in p.names && b in w.tasks && y < |Trace(w, b)| && Trace(w, b)[y].DidRecv?
      ensures y < Cut(next, b) <==> Placed(w.log, order, k + 1, b, y + 1)
    {
      PlacedNext(w.log, order, k, b, y + 1);
      assert y < Cut(st, b) <==> Placed(w.log, order, k, b, y + 1);
    }
  }

  // -------------------------------------------------------------- the whole run

  lemma DeliverKeeps(p: Program, log: seq<CausalEvent>, st: State, ev: CausalEvent)
    ensures st.divergences <= ReplayRecv(p, log, st, ev).divergences
  {
    hide ParseMid, Drive, OnRecv, Verify, RecvEvent;
    var m := if ev.msgId.Some? then ParseMid(ev.msgId.value) else None;
    if ev.op == Recv && m.Some? && m.value in st.pending {
      var a, env := ev.actor, st.pending[m.value];
      var s := OnRecv(StampIn(st, a), a, env.vclock, env.lamport);
      var open := st.(pending := st.pending - {m.value}, clocks := st.clocks[a := s]);
      var taken := Verify(log, open, RecvEvent(a, s, env));
      VerifyKeeps(log, open, RecvEvent(a, s, env));
      if a in taken.actors { ActorsKept(p, log, taken, a, Some(env.msg)); }
    }
  }

  lemma {:induction false} CompleteKeeps(st: State, log: seq<CausalEvent>)
    ensures Complete(st, log) == st.(divergences := Complete(st, log).divergences)
    ensures st.divergences <= Complete(st, log).divergences
    ensures Complete(st, log).divergences == [] <==>
            st.divergences == [] && forall i | 0 <= i < |log| :: log[i].id in st.produced
  {
    if log != [] { CompleteKeeps(st, log[..|log| - 1]); }
  }

  lemma {:induction false} DeliverAllFollows(p: Program, w: World, order: seq<nat>, st: State, k: nat)
    requires Recording(p, w) && IsExtension(LogEdges(w.log), |w.log|, order) && k <= |order| && Positions(w.log, order)
    requires Sim(p, w, st, p.names) && NoRecvsYet(p, w, st)
    requires ReplayAll(p, w.log, st, Timeline(w.log, order)[..k]).divergences == [] || AllClear(p, w)
    ensures var next := ReplayAll(p, w.log, st, Timeline(w.log, order)[..k]);
      Sim(p, w, next, p.names) && Synced(p, w, order, k, next)
  {
    hide Recording, LogEdges, IsExtension, Sim, ReplayRecv, AllClear, Synced;
    var tl := Timeline(w.log, order);
    if k == 0 {
      SyncedAtStart(p, w, order, st);
    } else {
      assert tl[..k][..k - 1] == tl[..k - 1];
      var mid := ReplayAll(p, w.log, st, tl[..k - 1]);
      DeliverKeeps(p, w.log, mid, tl[k - 1]);
      DeliverAllFollows(p, w, order, st, k - 1);
      DeliverFollows(p, w, order, k - 1, mid);
    }
  }

  lemma SyncedAtStart(p: Program, w: World, order: seq<nat>, st: State)
    requires NoRecvsYet(p, w, st)
    ensures Synced(p, w, order, 0, st)
  {
    hide Cut;
    forall a, x: nat | a in p.names && a in w.tasks && x < |Trace(w, a)| && Trace(w, a)[x].DidRecv?
      ensures x < Cut(st, a) <==> Placed(w.log, order, 0, a, x + 1)
    {
      assert NoRecvs(w, a, 0, Cut(st, a));
    }
  }

  /** Once the whole timeline has been driven, every history has been re-executed. */
  lemma AllReplayed(p: Program, w: World, order: seq<nat>, st: State, a: Name)
    requires Recording(p, w) && IsExtension(LogEdges(w.log), |w.log|, order)
    requires Sim(p, w, st, p.names) && Synced(p, w, order, |order|, st) && a in p.names
    ensures a in w.tasks && Cut(st, a) == |Trace(w, a)|
    ensures Owed(p, a, w.tasks[a]) == [] && a in st.actors && st.actors[a] == Settled(p, a, w.tasks[a])
    ensures StampIn(st, a) == Stamps(a, Trace(w, a))
  {
    hide Recording, LogEdges, EventsOf, EventId, Channel, Owed, Synced, Stamps;
    assert Stands(p, w, st, p.names, a);
    Bounded(p, w, st, a, []);
    var c := Cut(st, a);
    if c < |Trace(w, a)| {
      NextIsRecv(p, w, st, a);
      var i := PositionOf(p, w, a, c);
      ExtensionCovers(LogEdges(w.log), |w.log|, order, i);
      SyncedAt(p, w, order, |order|, st, a, c);
      assert false;
    }
    OwedAtEnd(p, w, st, a, []);
    assert Trace(w, a)[..c] == Trace(w, a);
  }

  lemma AllProduced(p: Program, w: World, st: State, i: nat)
    requires Recording(p, w) && ProducedOk(p, w, st) && i < |w.log|
    requires forall a | a in p.names :: a in w.tasks && Cut(st, a) == |Trace(w, a)|
    ensures w.log[i].id in st.produced
  {
    hide Recording, EventsOf, EventId, Cut, Stamps, Mid;
    if w.log[i].actor == WORLD {
      WorldEntry(p, w, i);
    } else {
      var x := EntryOf(p, w, i);
      EventsAt(w.log[i].actor, Trace(w, w.log[i].actor), x);
    }
  }

  /** Fidelity: in any order that respects the poset, re-execution is faithful
      exactly when no handler was left unfinished in the recording; and then it ends
      with every actor in the state, and at the stamp, that the recording left it. */
  lemma FaithfulIff(p: Program, w: World, order: seq<nat>)
    requires Recording(p, w) && IsExtension(LogEdges(w.log), |w.log|, order) && Positions(w.log, order)
    ensures var r := Replay(p, w.log, Timeline(w.log, order), Supplied(w));
      && (r.divergences == [] <==> AllClear(p, w))
      && (r.divergences == [] ==> r.actors.Keys == p.names && forall a | a in p.names ::
            a in w.tasks && r.actors[a] == Settled(p, a, w.tasks[a]) && StampIn(r, a) == Stamps(a, Trace(w, a)))
  {
    hide Recording, LogEdges, IsExtension, Sim, Clear, NoRecvsYet, ReplayAll, StartAll, Settled, Stamps;
    var tl := Timeline(w.log, order);
    var st0 := Seeded(p, w);
    SeedsFollow(p, w);
    SeedKeepsActors(Start(p), EmitsOf(w.log, WORLD), Supplied(w));
    var st1 := StartAll(p, w.log, st0, p.names);
    var st2 := ReplayAll(p, w.log, st1, tl);
    var r := Complete(st2, w.log);
    assert r == Replay(p, w.log, tl, Supplied(w));
    CompleteKeeps(st2, w.log);
    DeliverAllKeeps(p, w.log, st1, tl);
    if r.divergences == [] || AllClear(p, w) {
      assert p.names - p.names == {};
      StartAllFollows(p, w, st0, p.names);
      assert tl[..|order|] == tl;
      DeliverAllFollows(p, w, order, st1, |order|);
      forall a | a in p.names
        ensures Clear(p, w, a) && a in w.tasks && Cut(st2, a) == |Trace(w, a)|
        ensures a in st2.actors && st2.actors[a] == Settled(p, a, w.tasks[a])
            && StampIn(st2, a) == Stamps(a, Trace(w, a))
      {
        AllReplayed(p, w, order, st2, a);
        assert Clear(p, w, a) by { ClearMeans(p, w, a); }
      }
      assert Channel(p, w, st2) by { SimChannel(p, w, st2); }
      forall i | 0 <= i < |w.log| ensures w.log[i].id in st2.produced { AllProduced(p, w, st2, i); }
    }
  }

  lemma ClearMeans(p: Program, w: World, a: Name)
    requires a in w.tasks && Owed(p, a, w.tasks[a]) == []
    ensures Clear(p, w, a)
  {}

  lemma SimChannel(p: Program, w: World, st: State)
    requires Sim(p, w, st, p.names)
    ensures Channel(p, w, st)
  {}

  lemma {:induction false} DeliverAllKeeps(p: Program, log: seq<CausalEvent>, st: State, tl: seq<CausalEvent>)
    ensures st.divergences <= ReplayAll(p, log, st, tl).divergences
  {
    hide ReplayRecv;
    if tl != [] {
      DeliverAllKeeps(p, log, st, tl[..|tl| - 1]);
      DeliverKeeps(p, log, ReplayAll(p, log, st, tl[..|tl| - 1]), tl[|tl| - 1]);
    }
  }

  /** Confluence: every order that respects the poset re-executes a recording to
      the same verdict, the same final actor states and the same final stamps. */
  lemma Confluence(p: Program, w: World, o1: seq<nat>, o2: seq<nat>)
    requires Recording(p, w) && Positions(w.log, o1) && Positions(w.log, o2)
    requires IsExtension(LogEdges(w.log), |w.log|, o1) && IsExtension(LogEdges(w.log), |w.log|, o2)
    ensures var r1 := Replay(p, w.log, Timeline(w.log, o1), Supplied(w));
      var r2 := Replay(p, w.log, Timeline(w.log, o2), Supplied(w));
      && (r1.divergences == [] <==> r2.divergences == [])
      && (r1.divergences == [] ==> r1.actors == r2.actors && forall a | a in p.names ::
          StampIn(r1, a) == StampIn(r2, a))
  {
    hide Recording, LogEdges, IsExtension, Replay, Settled, Stamps, Clear;
    FaithfulIff(p, w, o1);
    FaithfulIff(p, w, o2);
  }
}
