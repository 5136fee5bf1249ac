/** Replay that is not faithful: what differs stays in the causal future of what differs.
    Every recorded event that the other code would make, like everything at or before
    it, is re-executed exactly, and no complaint names it. */
module Locality {
  import opened Names
  import opened Clocks
  import opened Events
  import opened Logs
  import opened Recorder
  import opened Traces
  import opened Recordings
  import opened Graphs
  import opened Posets
  import opened Embedding
  import opened Extensions
  import opened Engine
  import opened Replays
  import opened Recall
  import opened Simulation
  import opened Fidelity
  import opened Verdict
  import opened Calls
  import opened Tracks
  import opened Runs

  // ------------------------------------------------------------ one receive

  /** An actor on track has re-executed what is safe in the past of the event whose turn
      it is. */
  lemma PastDone(c: Rerun, k: nat, st: State, a: Name, n: nat, i: nat)
    requires c.Valid() && InTime(c, k, st) && k < |c.order| && c.order[k] < |c.w.log|
    requires a in c.p.names && Track(c, st, a, []) && SafeAt(c, a, n) && IsAt(c, a, n, i)
    requires i == c.order[k] || Reach(LogEdges(c.w.log), i, c.order[k])
    ensures n <= Cut(st, a) + 1 && (i != c.order[k] ==> n <= Cut(st, a))
  {
    hide Recording, IsExtension, LogEdges, Reach, Safe, EventsOf, Stamps, SendCount, Placed, InTime, Behave, StateAt,
        SafeAt, Faultless, Cut;
    if Cut(st, a) < n && !Free(c, st, a) {
      InTasks(c, a);
      Bounded(c.q, c.w, st, a, []);
      var x := Cut(st, a);
      SafeBefore(c, a, x + 1, n);
      var j := SafeEntry(c, a, x + 1);
      NextIsTaken(c, st, a);
      SameCoordinate(c, a, n, i, j);
      if x + 1 < n || i != c.order[k] {
        if x + 1 < n { LinePath(c, j, i, k); }
        PlacedInPast(c.w.log, c.order, k, j);
        InTimeAt(c, k, st, a, x);
      }
    }
  }

  lemma SameCoordinate(c: Rerun, a: Name, n: nat, i: nat, j: nat)
    requires c.Valid() && IsAt(c, a, n, i) && j < |c.w.log| && c.w.log[j].actor == a
    ensures c.w.log[j].seqNo == n ==> i == j
  {
    hide WellStamped, IsExtension, LogEdges, FitsWidth, TasksOk, MessagesOk, LogOk;
    StampedIsBuildable(c.w.log);
    assert if i < j then c.w.log[i].seqNo != c.w.log[j].seqNo else i == j || c.w.log[j].seqNo != c.w.log[i].seqNo;
  }

  lemma LinePath(c: Rerun, j: nat, i: nat, k: nat)
    requires c.Valid() && k < |c.order| && i < |c.w.log| && j < |c.w.log|
    requires c.w.log[i].actor == c.w.log[j].actor && c.w.log[j].seqNo < c.w.log[i].seqNo
    requires i == c.order[k] || Reach(LogEdges(c.w.log), i, c.order[k])
    ensures Reach(LogEdges(c.w.log), j, c.order[k])
  {
    hide Recording, IsExtension, LogEdges, Reach;
    Stamped(c);
    LineReaches(c.w.log, j, i);
    if i != c.order[k] { ReachTransitive(LogEdges(c.w.log), j, i, c.order[k]); }
  }

  lemma InTimeAt(c: Rerun, k: nat, st: State, a: Name, x: nat)
    requires InTime(c, k, st) && a in c.w.tasks && x < |Trace(c.w, a)| && Trace(c.w, a)[x].DidRecv?
    requires SafeAt(c, a, x + 1)
    ensures x < Cut(st, a) <==> Placed(c.w.log, c.order, k, a, x + 1)
  {}

  /** Between handlers the next safe entry is a receive. */
  lemma NextIsTaken(c: Rerun, st: State, a: Name)
    requires c.Valid() && a in c.p.names && StateAt(c.q, c.w, st, a, []) && Cut(st, a) < |Trace(c.w, a)|
    requires Behave(c.q, a, Trace(c.w, a)[..Cut(st, a) + 1]).Some?
    ensures Trace(c.w, a)[Cut(st, a)].DidRecv?
  {
    hide Recording, IsExtension, LogEdges, Behave, Stamps, EventsOf, SendCount, EventAfter, StampAfter;
    Resume(c.p, c.w, c.q, st, a, []);
  }

  /** An event that is not a safe receive changes nothing that is kept track of. */
  lemma SkipEvent(c: Rerun, k: nat, st: State)
    requires c.Valid() && Tame(c, k, st) && k < |c.order| && c.order[k] < |c.w.log|
    requires c.w.log[c.order[k]].op != Recv || !Safe(c, c.order[k])
    ensures Tame(c, k + 1, st)
  {
    hide Recording, IsExtension, LogEdges, SafeAt, Placed, Cut, Accounted, Blameless, EventsOf, Safe;
    var i := c.order[k];
    forall a, x: nat | a in c.w.tasks && x < |Trace(c.w, a)| && Trace(c.w, a)[x].DidRecv? && SafeAt(c, a, x + 1)
      ensures Placed(c.w.log, c.order, k + 1, a, x + 1) <==> Placed(c.w.log, c.order, k, a, x + 1)
    {
      PlacedNext(c.w.log, c.order, k, a, x + 1);
      if c.w.log[i].actor == a && c.w.log[i].seqNo == x + 1 { NotThisOne(c, i, a, x); }
    }
  }

  lemma NotThisOne(c: Rerun, i: nat, a: Name, x: nat)
    requires c.Valid() && i < |c.w.log| && (c.w.log[i].op != Recv || !Safe(c, i))
    requires a in c.w.tasks && x < |Trace(c.w, a)| && Trace(c.w, a)[x].DidRecv? && SafeAt(c, a, x + 1)
    ensures c.w.log[i].actor != a || c.w.log[i].seqNo != x + 1
  {
    hide Recording, IsExtension, LogEdges, Safe, EventsOf, EventId, Mid, Stamps;
    if c.w.log[i].actor == a && c.w.log[i].seqNo == x + 1 {
      SafeHere(c, i);
      InTasks(c, a);
      var z := EntryOf(c.p, c.w, i);
      EventsAt(a, Trace(c.w, a), x);
      assert false;
    }
  }

  /** The history entry behind a logged receive. */
  lemma RecvEntry(c: Rerun, i: nat) returns (x: nat)
    requires c.Valid() && i < |c.w.log| && c.w.log[i].op == Recv
    ensures var a := c.w.log[i].actor;
      && a in c.p.names && a in c.w.tasks && x < |Trace(c.w, a)| && Trace(c.w, a)[x].DidRecv?
      && c.w.log[i] == EventsOf(a, Trace(c.w, a))[x] && IsAt(c, a, x + 1, i) && c.w.log[i].id == EventId(a, x + 1)
      && Key(c.w.log[i]) == Some(Trace(c.w, a)[x].env.msgId)
  {
    hide TasksOk, LogOk, MessagesOk, WellStamped, IsExtension, LogEdges, EventsOf, EventId, Mid, ParseMid, FitsWidth,
        Stamps, Sent;
    RecvNotWorld(c.p, c.w, i);
    x := EntryOfRecv(c.p, c.w, i);
    var a := c.w.log[i].actor;
    EventsAt(a, Trace(c.w, a), x);
    MessagesOf(c.p, c.w, a);
    SentFits(c.p, c.w, Trace(c.w, a)[x].env);
    ParseMidRoundTrip(Trace(c.w, a)[x].env.msgId);
  }

  /** `a` has taken `env`, pending under `m`, and its receive has been verified. */
  function Taken(c: Rerun, st: State, a: Name, m: nat, env: Envelope): State {
    var s := OnRecv(StampIn(st, a), a, env.vclock, env.lamport);
    Verify(c.w.log, st.(pending := st.pending - {m}, clocks := st.clocks[a := s]), RecvEvent(a, s, env))
  }

  lemma TakenMoves(c: Rerun, st: State, a: Name, m: nat, env: Envelope)
    ensures var next := Taken(c, st, a, m, env); Moves(st, next, a) && next.pending == st.pending - {m}
  {
    hide Verify, EventId, Mid, Merge, Increment, SendLabel, Unnamed;
    var s := OnRecv(StampIn(st, a), a, env.vclock, env.lamport);
    var open := st.(pending := st.pending - {m}, clocks := st.clocks[a := s]);
    VerifyKeeps(c.w.log, open, RecvEvent(a, s, env));
    VerifyMoves(c.w.log, open, RecvEvent(a, s, env));
  }

  // a safe receive

  /** When a safe receive's turn comes its actor stands where it stood. */
  lemma SafeStands(c: Rerun, k: nat, st: State, a: Name, x: nat)
    requires c.Valid() && InTime(c, k, st) && AllTracked(c, st, c.q.names) && k < |c.order| && c.order[k] < |c.w.log|
    requires Safe(c, c.order[k]) && IsAt(c, a, x + 1, c.order[k]) && a in c.w.tasks
    requires x < |Trace(c.w, a)| && Trace(c.w, a)[x].DidRecv?
    ensures StateAt(c.q, c.w, st, a, []) && Cut(st, a) == x && Behave(c.q, a, Trace(c.w, a)[..x + 1]).Some?
    ensures SafeAt(c, a, x + 1) && !Placed(c.w.log, c.order, k, a, x + 1)
  {
    hide Recording, IsExtension, LogEdges, Reach, Safe, EventsOf, Placed, Behave, StateAt, Free, Cut, InTime, SafeAt;
    Stamped(c);
    SafeHere(c, c.order[k]);
    InTasks(c, a);
    var i := SafeEntry(c, a, x + 1);
    NotPlacedBefore(c.w.log, c.order, k);
    InTimeAt(c, k, st, a, x);
    DoneMeans(c, st, a, x + 1);
    PastDone(c, k, st, a, x + 1, c.order[k]);
  }

  /** And what it took is pending. */
  lemma SafeIsReady(c: Rerun, k: nat, st: State, a: Name, x: nat)
    requires c.Valid() && Tame(c, k, st) && AllTracked(c, st, c.q.names) && k < |c.order| && c.order[k] < |c.w.log|
    requires Safe(c, c.order[k]) && IsAt(c, a, x + 1, c.order[k]) && a in c.w.tasks
    requires x < |Trace(c.w, a)| && Trace(c.w, a)[x].DidRecv?
    requires SafeAt(c, a, x + 1) && !Placed(c.w.log, c.order, k, a, x + 1)
    ensures Held(st, Trace(c.w, a)[x].env)
  {
    hide Rerun.Valid, Safe, Placed, AllTracked, Cut, InTime, Accounted, Blameless, SafeAt, IsAt;
    var env := Trace(c.w, a)[x].env;
    InTasks(c, a);
    SafeMessage(c, a, x);
    var (b, y) := c.w.sentAt[env.msgId];
    if b != WORLD { SenderDone(c, k, st, a, x, b, y); }
    ExpectedHere(c, k, a, x);
  }

  lemma ExpectedHere(c: Rerun, k: nat, a: Name, x: nat)
    requires a in c.w.tasks && x < |Trace(c.w, a)| && Trace(c.w, a)[x].DidRecv? && SafeAt(c, a, x + 1)
    requires !Placed(c.w.log, c.order, k, a, x + 1)
    ensures Expected(c, k, a, x)
  {}

  lemma DoneMeans(c: Rerun, st: State, a: Name, n: nat)
    requires SafeAt(c, a, n)
    ensures Free(c, st, a) ==> n <= Cut(st, a)
  {
    hide SafeAt, Faultless, Cut;
  }

  lemma SenderDone(c: Rerun, k: nat, st: State, a: Name, x: nat, b: Name, y: nat)
    requires c.Valid() && InTime(c, k, st) && AllTracked(c, st, c.q.names) && k < |c.order| && c.order[k] < |c.w.log|
    requires Safe(c, c.order[k]) && IsAt(c, a, x + 1, c.order[k]) && a in c.w.tasks
    requires x < |Trace(c.w, a)| && Trace(c.w, a)[x].DidRecv? && Sent(c.w, Trace(c.w, a)[x].env)
    requires c.w.sentAt[Trace(c.w, a)[x].env.msgId] == (b, y) && b != WORLD && SafeAt(c, b, y + 1)
    ensures y < Cut(st, b)
  {
    hide Recording, IsExtension, LogEdges, Reach, Safe, EventsOf, Placed, Behave, StateAt, Faultless, Cut, InTime,
        SafeAt, Free;
    SafeHere(c, c.order[k]);
    InTasks(c, a);
    var j := SafeEntry(c, a, x + 1);
    SameCoordinate(c, a, x + 1, c.order[k], j);
    var i := SafeEntry(c, b, y + 1);
    SentEntry(c, b, Trace(c.w, a)[x].env);
    EmitPrecedes(c.p, c.w, a, x, b, y, Trace(c.w, a)[x].env, i, j);
    NoLoop(c, i, j);
    PastDone(c, k, st, b, y + 1, i);
  }

  lemma NoLoop(c: Rerun, i: nat, j: nat)
    requires c.Valid() && Reach(LogEdges(c.w.log), i, j)
    ensures i != j
  {
    hide Recording, IsExtension, LogEdges, Reach, Lt;
    Stamped(c);
    StampedConsistent(c.w.log);
    PathsIncreaseClocks(c.w.log, i, j);
    LtIrreflexive(c.w.log[i].vclock);
  }

  lemma SafeTaken(c: Rerun, st: State, a: Name, x: nat)
    requires c.Valid() && a in c.p.names && StateAt(c.q, c.w, st, a, []) && Cut(st, a) == x < |Trace(c.w, a)|
    requires Behave(c.q, a, Trace(c.w, a)[..x + 1]).Some? && Trace(c.w, a)[x].DidRecv?
    ensures var env := Trace(c.w, a)[x].env;
      var (u, acts) := c.q.handle(a, st.actors[a], env.msg);
      var taken := Taken(c, st, a, env.msgId, env);
      && Advances(c, st, taken, a) && taken.actors == st.actors && taken.pending == st.pending - {env.msgId}
      && StateAt(c.q, c.w, taken.(actors := taken.actors[a := u]), a, acts)
  {
    hide Recording, IsExtension, LogEdges, Verify, EventId, Mid, Merge, Increment, Stamps, Behave, EventsOf, SendCount;
    var env := Trace(c.w, a)[x].env;
    Resume(c.p, c.w, c.q, st, a, []);
    var s := OnRecv(StampIn(st, a), a, env.vclock, env.lamport);
    var open := st.(pending := st.pending - {env.msgId}, clocks := st.clocks[a := s]);
    VerifyRecorded(c.p, c.w, open, a, x, EventsOf(a, Trace(c.w, a))[x]);
    var taken := Taken(c, st, a, env.msgId, env);
    var e := EventsOf(a, Trace(c.w, a))[x];
    assert taken == open.(produced := st.produced + {EventId(a, x + 1)}, made := st.made + [e]);
    assert Advances(c, st, taken, a);
    var (u, acts) := c.q.handle(a, st.actors[a], env.msg);
    assert Behave(c.q, a, Trace(c.w, a)[..x + 1]) == Some((u, acts));
  }

  lemma RecvInTime(c: Rerun, k: nat, st: State, next: State, a: Name, x: nat)
    requires c.Valid() && InTime(c, k, st) && k < |c.order| && c.order[k] < |c.w.log| && IsAt(c, a, x + 1, c.order[k])
    requires Cut(next, a) == Cut(st, a) + 1 == x + 1 && forall b | b != a :: Cut(next, b) == Cut(st, b)
    ensures InTime(c, k + 1, next)
  {
    hide Rerun.Valid, SafeAt, Placed, Cut;
    forall b, y: nat | b in c.w.tasks && y < |Trace(c.w, b)| && Trace(c.w, b)[y].DidRecv? && SafeAt(c, b, y + 1)
      ensures y < Cut(next, b) <==> Placed(c.w.log, c.order, k + 1, b, y + 1)
    {
      PlacedNext(c.w.log, c.order, k, b, y + 1);
      assert y < Cut(st, b) <==> Placed(c.w.log, c.order, k, b, y + 1);
    }
  }

  /** Taking one message leaves what the other safe receives need. */
  lemma OthersKept(c: Rerun, a: Name, x: nat, b: Name, y: nat)
    requires c.Valid() && a in c.w.tasks && b in c.w.tasks && x < |Trace(c.w, a)| && y < |Trace(c.w, b)|
    requires Trace(c.w, a)[x].DidRecv? && Trace(c.w, b)[y].DidRecv?
    requires Trace(c.w, a)[x].env.msgId == Trace(c.w, b)[y].env.msgId
    ensures a == b && x == y
  {
    hide TasksOk, LogOk, MessagesOk, WellStamped, IsExtension, LogEdges, FitsWidth, Sent;
    InTasks(c, a);
    InTasks(c, b);
    MessagesOf(c.p, c.w, a);
    MessagesOf(c.p, c.w, b);
  }

  /** Taking a message that no safe receive has yet to take keeps what is awaited. */
  lemma TakingAwaited(c: Rerun, k: nat, l: nat, st: State, next: State, a: Name, x: nat)
    requires c.Valid() && Awaited(c, k, st) && k <= l && a in c.w.tasks && x < |Trace(c.w, a)|
    requires Trace(c.w, a)[x].DidRecv? && next.pending == st.pending - {Trace(c.w, a)[x].env.msgId}
    requires !Expected(c, l, a, x)
    requires forall b, y: nat | b in c.w.tasks && y < |Trace(c.w, b)| && Trace(c.w, b)[y].DidSend?
               && SafeAt(c, b, y + 1) && y < Cut(next, b) :: y < Cut(st, b)
    ensures Awaited(c, l, next)
  {
    hide Recording, IsExtension, LogEdges, SafeAt, Cut, Sent, Placed;
    forall b, y: nat | Expected(c, l, b, y) && Known(c.w, next, Trace(c.w, b)[y].env)
      ensures Held(next, Trace(c.w, b)[y].env)
    {
      var env := Trace(c.w, b)[y].env;
      ExpectedBefore(c, k, l, b, y);
      InTasks(c, b);
      SafeMessage(c, b, y);
      if c.w.sentAt[env.msgId].0 != WORLD { SentEntry(c, c.w.sentAt[env.msgId].0, env); }
      assert Known(c.w, st, env);
      if env.msgId == Trace(c.w, a)[x].env.msgId { OthersKept(c, a, x, b, y); }
    }
  }

  lemma ExpectedBefore(c: Rerun, k: nat, l: nat, a: Name, x: nat)
    requires k <= l && Expected(c, l, a, x)
    ensures Expected(c, k, a, x)
  {
    hide SafeAt;
  }

  lemma TrackedAfter(c: Rerun, st: State, next: State, S: set<Name>, a: Name)
    requires AllTracked(c, st, S) && SameElsewhere(st, next, a) && Track(c, next, a, [])
    ensures AllTracked(c, next, S + {a})
  {
    hide Track, StateAt, SameElsewhere;
    assert next.actors.Keys == st.actors.Keys by { SameActors(st, next, a); }
    forall b | b in c.q.names
      ensures if b in S + {a} then Track(c, next, b, []) else Unstarted(c.q, next, b)
    {
      if b != a {
        if b in S { TrackElsewhere(c, st, next, a, b, []); } else { UnstartedElsewhere(c, st, next, a, b); }
      }
    }
  }

  lemma SameActors(st: State, next: State, a: Name)
    requires SameElsewhere(st, next, a)
    ensures next.actors.Keys == st.actors.Keys
  {}

  lemma UnstartedElsewhere(c: Rerun, st: State, next: State, a: Name, b: Name)
    requires Unstarted(c.q, st, b) && SameElsewhere(st, next, a) && b != a
    ensures Unstarted(c.q, next, b)
  {}

  /** Only the actor states change when user code has run. */
  lemma UserMoves(c: Rerun, k: nat, st: State, next: State, a: Name)
    requires Tame(c, k, st) && next == st.(actors := next.actors)
    ensures Tame(c, k, next) && (Free(c, st, a) ==> Free(c, next, a))
  {
    hide SafeAt, Faultless, Placed, Unnamed, EventId, SendLabel, EventsOf, Expected, SendCount;
    assert forall b :: Cut(next, b) == Cut(st, b) && SendsIn(next, b) == SendsIn(st, b);
    forall env: Envelope | Known(c.w, next, env) ensures Known(c.w, st, env) {}
    forall b, n: nat | Made(c, st, b, n) ensures Made(c, next, b, n) {}
    if Free(c, st, a) { FreeStays(c, st, next, a); }
  }

  /** A safe receive is re-executed from what it was recorded with. */
  lemma SafeRecv(c: Rerun, k: nat, st: State, a: Name, x: nat)
    requires c.Valid() && Tame(c, k, st) && AllTracked(c, st, c.q.names) && k < |c.order| && c.order[k] < |c.w.log|
    requires Safe(c, c.order[k]) && IsAt(c, a, x + 1, c.order[k]) && a in c.p.names && a in c.w.tasks
    requires x < |Trace(c.w, a)| && Trace(c.w, a)[x].DidRecv? && a in st.actors
    ensures var env := Trace(c.w, a)[x].env;
      var (u, acts) := c.q.handle(a, st.actors[a], env.msg);
      var taken := Taken(c, st, a, env.msgId, env);
      var mid := taken.(actors := taken.actors[a := u]);
      Held(st, env) && taken.actors == st.actors && Tame(c, k + 1, mid) && Track(c, mid, a, acts)
          && SameElsewhere(st, mid, a)
  {
    hide Rerun.Valid, Safe, AllTracked, StateAt, InTime, Awaited, Accounted, Blameless, Taken, SafeAt, Placed, Behave,
        SameElsewhere, Free, Faultless, Held, Cut;
    var env := Trace(c.w, a)[x].env;
    InTasks(c, a);
    SafeStands(c, k, st, a, x);
    SafeIsReady(c, k, st, a, x);
    SafeTaken(c, st, a, x);
    var taken := Taken(c, st, a, env.msgId, env);
    SafeTakenTame(c, k, st, taken, a, x);
    var (u, acts) := c.q.handle(a, st.actors[a], env.msg);
    var mid := taken.(actors := taken.actors[a := u]);
    UserMoves(c, k + 1, taken, mid, a);
    assert SameElsewhere(st, mid, a) by { UserElsewhere(st, taken, mid, a, u); }
  }

  lemma UserElsewhere(st: State, taken: State, mid: State, a: Name, u: UserState)
    requires SameElsewhere(st, taken, a) && a in taken.actors && mid == taken.(actors := taken.actors[a := u])
    ensures SameElsewhere(st, mid, a)
  {}

  lemma SafeTakenTame(c: Rerun, k: nat, st: State, taken: State, a: Name, x: nat)
    requires c.Valid() && Tame(c, k, st) && k < |c.order| && c.order[k] < |c.w.log| && IsAt(c, a, x + 1, c.order[k])
    requires Advances(c, st, taken, a) && Cut(st, a) == x && Trace(c.w, a)[x].DidRecv?
    requires taken.pending == st.pending - {Trace(c.w, a)[x].env.msgId}
    ensures Tame(c, k + 1, taken)
  {
    hide Rerun.Valid, SafeAt, Placed, SameElsewhere, InTime, Awaited, Accounted, Blameless, Unnamed, EventsOf, EventId,
        Cut;
    CutElsewhere(st, taken, a);
    AdvanceAccounted(c, st, taken, a);
    RecvInTime(c, k, st, taken, a, x);
    PlacedNext(c.w.log, c.order, k, a, x + 1);
    TakingAwaited(c, k, k + 1, st, taken, a, x);
  }

  // a receive that is not safe

  lemma UnsafeIsFree(c: Rerun, k: nat, st: State, a: Name, x: nat)
    requires c.Valid() && InTime(c, k, st) && AllTracked(c, st, c.q.names) && k < |c.order| && c.order[k] < |c.w.log|
    requires !Safe(c, c.order[k]) && IsAt(c, a, x + 1, c.order[k]) && a in c.p.names && a in c.w.tasks
    requires x < |Trace(c.w, a)|
    ensures Free(c, st, a) && !SafeAt(c, a, x + 1)
  {
    hide Recording, IsExtension, LogEdges, Reach, Safe, EventsOf, Behave, StateAt, Cut, InTime, SafeAt, Spent;
    InTasks(c, a);
    SafeHere(c, c.order[k]);
    if a !in c.q.names {
      StrangerIsFree(c, st, a);
    } else if !Free(c, st, a) {
      forall n: nat | SafeAt(c, a, n) ensures n <= Cut(st, a) {
        var i := SafeEntry(c, a, n);
        if n > x { SafeBefore(c, a, x + 1, n); }
        LinePath(c, i, c.order[k], k);
        PastDone(c, k, st, a, n, i);
      }
      SendsMade(c, st, a, []);
    }
  }

  lemma DivergeTame(c: Rerun, k: nat, st: State, a: Name, n: nat, why: Reason)
    requires Tame(c, k, st) && !SafeAt(c, a, n) && !Faultless(c, a)
    ensures Tame(c, k, Diverge(st, EventId(a, n), why))
    ensures Free(c, st, a) ==> Free(c, Diverge(st, EventId(a, n), why), a)
  {
    hide SafeAt, Faultless, Placed, Unnamed, EventId, SendLabel, EventsOf, Expected, SendCount;
    var next := Diverge(st, EventId(a, n), why);
    assert forall b :: Cut(next, b) == Cut(st, b) && SendsIn(next, b) == SendsIn(st, b);
    forall env: Envelope | Known(c.w, next, env) ensures Known(c.w, st, env) {}
    forall b, m: nat | SafeAt(c, b, m) || Faultless(c, b) ensures Unnamed(next.divergences, EventId(b, m)) {
      if EventId(b, m) == EventId(a, n) { EventIdInjective(b, m, a, n); }
      DivergeNames(st, EventId(a, n), why, EventId(b, m));
    }
    forall b, j: nat | Faultless(c, b) ensures Unnamed(next.divergences, SendLabel(b, j)) {
      SendLabelApart(b, j, a, n);
      DivergeNames(st, EventId(a, n), why, SendLabel(b, j));
    }
    forall b, m: nat | Made(c, st, b, m) ensures Made(c, next, b, m) {}
    if Free(c, st, a) { FreeStays(c, st, next, a); }
  }

  lemma UnsafeTakenTame(c: Rerun, k: nat, st: State, a: Name, x: nat, env: Envelope)
    requires c.Valid() && Tame(c, k, st) && Free(c, st, a) && !SafeAt(c, a, x + 1)
    requires a in c.w.tasks && x < |Trace(c.w, a)| && Trace(c.w, a)[x].DidRecv?
    ensures var taken := Taken(c, st, a, Trace(c.w, a)[x].env.msgId, env); Tame(c, k, taken) && Free(c, taken, a)
  {
    hide Rerun.Valid, SafeAt, Placed, SameElsewhere, InTime, Awaited, Accounted, Blameless, Faultless, Taken, Cut,
        SendsIn, SendCount;
    var m := Trace(c.w, a)[x].env.msgId;
    var taken := Taken(c, st, a, m, env);
    TakenMoves(c, st, a, m, env);
    CutElsewhere(st, taken, a);
    FreeInTime(c, k, st, taken, a);
    FreeAccounted(c, st, taken, a);
    FreeStays(c, st, taken, a);
    TakingAwaited(c, k, k, st, taken, a, x);
  }

  lemma StrangerTracked(c: Rerun, st: State, next: State, a: Name)
    requires AllTracked(c, st, c.q.names) && SameElsewhere(st, next, a) && a !in c.q.names
    ensures AllTracked(c, next, c.q.names)
  {
    hide Track, StateAt, SameElsewhere;
    assert next.actors.Keys == st.actors.Keys by { SameActors(st, next, a); }
    forall b | b in c.q.names ensures Track(c, next, b, []) { TrackElsewhere(c, st, next, a, b, []); }
  }

  /** A handler or hook of an actor on track, or of one that is free. */
  lemma DriveTame(c: Rerun, k: nat, st: State, a: Name, msg: Option<Payload>, u: UserState, acts: seq<Action>)
    requires c.Valid() && a != WORLD && a in st.actors
    requires (u, acts) == match msg
                          case None => c.q.start(a, st.actors[a])
                          case Some(m) => c.q.handle(a, st.actors[a], m)
    requires Tame(c, k, st.(actors := st.actors[a := u])) && Track(c, st.(actors := st.actors[a := u]), a, acts)
    requires Room(c.w.log, Drive(c.q, c.w.log, st, a, msg))
    ensures var next := Drive(c.q, c.w.log, st, a, msg);
      Tame(c, k, next) && Track(c, next, a, []) && SameElsewhere(st, next, a)
  {
    hide Rerun.Valid, Tame, Track, ActAll, Room, StampIn, SendsIn;
    var mid := st.(actors := st.actors[a := u]);
    ActAllTame(c, k, mid, a, acts);
    assert SameElsewhere(st, mid, a) by { UserElsewhere(st, st, mid, a, u); }
    ElsewhereTwice(st, mid, ActAll(c.w.log, mid, a, acts), a);
  }

  lemma UnsafeRecv(c: Rerun, k: nat, st: State, a: Name, x: nat)
    requires c.Valid() && Tame(c, k, st) && AllTracked(c, st, c.q.names) && k < |c.order| && c.order[k] < |c.w.log|
    requires var ev := c.w.log[c.order[k]];
      && ev.op == Recv && ev.actor == a && ev.id == EventId(a, x + 1) && a in c.w.tasks && x < |Trace(c.w, a)|
      && Trace(c.w, a)[x].DidRecv? && Key(ev) == Some(Trace(c.w, a)[x].env.msgId)
    requires Free(c, st, a) && !SafeAt(c, a, x + 1)
    requires Room(c.w.log, ReplayRecv(c.q, c.w.log, st, c.w.log[c.order[k]]))
    ensures var next := ReplayRecv(c.q, c.w.log, st, c.w.log[c.order[k]]);
      Tame(c, k, next) && AllTracked(c, next, c.q.names)
  {
    hide Rerun.Valid, Tame, AllTracked, SafeAt, Taken, ParseMid, EventId, Room, Drive, Spent, Faultless, SameElsewhere,
        StateAt, Diverge;
    var ev := c.w.log[c.order[k]];
    var m := Trace(c.w, a)[x].env.msgId;
    var next := ReplayRecv(c.q, c.w.log, st, ev);
    if m !in st.pending {
      assert next == Diverge(st, EventId(a, x + 1), NoMessage);
      DivergeTame(c, k, st, a, x + 1, NoMessage);
      StillTracked(c, st, a, x + 1, NoMessage);
    } else {
      var env := st.pending[m];
      var taken := Taken(c, st, a, m, env);
      UnsafeTakenTame(c, k, st, a, x, env);
      assert Moves(st, taken, a) by { TakenMoves(c, st, a, m, env); }
      if a !in st.actors {
        assert next == Diverge(taken, EventId(a, x + 1), ActorNotRebuilt) by { TakenThen(c, st, ev, m); }
        DivergeTame(c, k, taken, a, x + 1, ActorNotRebuilt);
        TrackedKeys(c, st);
        StrangerTracked(c, st, taken, a);
        StillTracked(c, taken, a, x + 1, ActorNotRebuilt);
      } else {
        assert next == Drive(c.q, c.w.log, taken, a, Some(env.msg)) by { TakenThen(c, st, ev, m); }
        var (u, acts) := c.q.handle(a, taken.actors[a], env.msg);
        UserMoves(c, k, taken, taken.(actors := taken.actors[a := u]), a);
        DriveTame(c, k, taken, a, Some(env.msg), u, acts);
        ElsewhereTwice(st, taken, next, a);
        TrackedAfter(c, st, next, c.q.names, a);
        TrackedKeys(c, st);
        assert c.q.names + {a} == c.q.names;
      }
    }
  }

  lemma TakenThen(c: Rerun, st: State, ev: CausalEvent, m: nat)
    requires ev.op == Recv && Key(ev) == Some(m) && m in st.pending
    ensures var taken := Taken(c, st, ev.actor, m, st.pending[m]);
      && taken.actors == st.actors
      && ReplayRecv(c.q, c.w.log, st, ev) == if ev.actor !in taken.actors then Diverge(taken, ev.id, ActorNotRebuilt)
                                             else Drive(c.q, c.w.log, taken, ev.actor, Some(st.pending[m].msg))
  {
    hide Verify, ParseMid, Drive, RecvEvent, OnRecv, Diverge;
    var s := OnRecv(StampIn(st, ev.actor), ev.actor, st.pending[m].vclock, st.pending[m].lamport);
    VerifyKeeps(c.w.log, st.(pending := st.pending - {m}, clocks := st.clocks[ev.actor := s]),
                RecvEvent(ev.actor, s, st.pending[m]));
  }

  lemma TrackedKeys(c: Rerun, st: State)
    requires AllTracked(c, st, c.q.names)
    ensures st.actors.Keys == c.q.names
  {}

  lemma StillTracked(c: Rerun, st: State, a: Name, n: nat, why: Reason)
    requires AllTracked(c, st, c.q.names)
    ensures AllTracked(c, Diverge(st, EventId(a, n), why), c.q.names)
  {
    hide Track, EventId;
    var next := Diverge(st, EventId(a, n), why);
    forall b | b in c.q.names ensures Track(c, next, b, []) { TrackDiverged(c, st, next, b); }
  }

  lemma TrackDiverged(c: Rerun, st: State, next: State, b: Name)
    requires Track(c, st, b, []) && next == st.(divergences := next.divergences)
    ensures Track(c, next, b, [])
  {
    hide SafeAt, Faultless, SendCount, Behave, Stamps;
    if Free(c, st, b) { FreeStays(c, st, next, b); }
  }

  /** Every event of the timeline, safe or not. */
  lemma RecvTame(c: Rerun, k: nat, st: State)
    requires c.Valid() && Tame(c, k, st) && AllTracked(c, st, c.q.names) && k < |c.order| && c.order[k] < |c.w.log|
    requires Room(c.w.log, ReplayRecv(c.q, c.w.log, st, c.w.log[c.order[k]]))
    ensures var next := ReplayRecv(c.q, c.w.log, st, c.w.log[c.order[k]]);
      Tame(c, k + 1, next) && AllTracked(c, next, c.q.names)
  {
    hide Rerun.Valid, Tame, AllTracked, Safe, SafeAt, EventId, Room, EventsOf, Key, ReplayRecv, Faultless, Spent;
    var ev := c.w.log[c.order[k]];
    if ev.op != Recv {
      DeliverSkips(c.q, c.w.log, st, ev);
      SkipEvent(c, k, st);
    } else {
      var x := RecvEntry(c, c.order[k]);
      if Safe(c, c.order[k]) {
        SafeRecvWhole(c, k, st, x);
      } else {
        assert InTime(c, k, st) by { TameInTime(c, k, st); }
        UnsafeIsFree(c, k, st, ev.actor, x);
        InTasks(c, ev.actor);
        UnsafeRecv(c, k, st, ev.actor, x);
        SkipEvent(c, k, ReplayRecv(c.q, c.w.log, st, ev));
      }
    }
  }

  lemma TameInTime(c: Rerun, k: nat, st: State)
    requires Tame(c, k, st)
    ensures InTime(c, k, st)
  {}

  lemma SafeRecvWhole(c: Rerun, k: nat, st: State, x: nat)
    requires c.Valid() && Tame(c, k, st) && AllTracked(c, st, c.q.names) && k < |c.order| && c.order[k] < |c.w.log|
    requires Room(c.w.log, ReplayRecv(c.q, c.w.log, st, c.w.log[c.order[k]])) && Safe(c, c.order[k])
    requires var ev := c.w.log[c.order[k]];
      && ev.op == Recv && IsAt(c, ev.actor, x + 1, c.order[k]) && ev.actor in c.p.names && ev.actor in c.w.tasks
      && x < |Trace(c.w, ev.actor)| && Trace(c.w, ev.actor)[x].DidRecv?
      && Key(ev) == Some(Trace(c.w, ev.actor)[x].env.msgId)
    ensures var next := ReplayRecv(c.q, c.w.log, st, c.w.log[c.order[k]]);
      Tame(c, k + 1, next) && AllTracked(c, next, c.q.names)
  {
    hide Rerun.Valid, Tame, AllTracked, SafeAt, Taken, Key, EventId, Room, Drive, Track, SameElsewhere, StateAt,
        ReplayRecv, Safe;
    var ev := c.w.log[c.order[k]];
    var a, env := ev.actor, Trace(c.w, ev.actor)[x].env;
    SafeHere(c, c.order[k]);
    InTasks(c, a);
    var i := SafeEntry(c, a, x + 1);
    TrackedKeys(c, st);
    SafeRecv(c, k, st, a, x);
    var taken := Taken(c, st, a, env.msgId, env);
    var (u, acts) := c.q.handle(a, st.actors[a], env.msg);
    TakenThen(c, st, ev, env.msgId);
    var next := ReplayRecv(c.q, c.w.log, st, ev);
    assert next == Drive(c.q, c.w.log, taken, a, Some(env.msg));
    DriveTame(c, k + 1, taken, a, Some(env.msg), u, acts);
    assert SameElsewhere(st, taken, a) by { TakenMoves(c, st, a, env.msgId, env); }
    ElsewhereTwice(st, taken, next, a);
    TrackedAfter(c, st, next, c.q.names, a);
    assert c.q.names + {a} == c.q.names;
  }

  // ---------------------------------------------------------------- the stimuli

  lemma SafeStimulus(c: Rerun, n: nat)
    requires c.Valid() && SafeAt(c, WORLD, n)
    ensures n == 1 && |c.w.origins| == 1 && Supplied(c.w) <= c.origins
  {
    hide Inv, IsExtension, LogEdges, Reach, EventId, Mid, FitsWidth;
    var i: nat :| IsAt(c, WORLD, n, i) && Safe(c, i);
    WorldEntry(c.p, c.w, i);
  }

  /** What seeding leaves: nothing has run, and the stimulus of a recording whose
      stimulus was supplied is pending. */
  ghost predicate Sown(c: Rerun, st: State) {
    && st.clocks == Start(c.q).clocks && st.sends == map[] && st.actors == Start(c.q).actors && st.made == []
    && (forall k | 0 <= k < |st.divergences| :: st.divergences[k].eventId == EventId(WORLD, 1) && !SafeAt(c, WORLD, 1))
    && (SafeAt(c, WORLD, 1) && |c.w.origins| == 1 ==> EventId(WORLD, 1) in st.produced && Held(st, c.w.origins[0]))
  }

  function Seeds(c: Rerun): State { SeedAll(Start(c.q), EmitsOf(c.w.log, WORLD), c.origins) }

  lemma SeedsSown(c: Rerun)
    requires c.Valid()
    ensures Sown(c, Seeds(c))
  {
    hide Recording, IsExtension, LogEdges, EventId, Mid, ParseMid, EmitEvent, EmitsOf, SeedOne, SafeAt;
    WorldRecalled(c.p, c.w);
    FewOrigins(c);
    var es := OriginEvents(c.w.origins);
    if es != [] {
      assert es == [es[0]] && es[..0] == [];
      assert SeedAll(Start(c.q), es[..0], c.origins) == Start(c.q);
      SownOne(c);
    }
  }

  lemma FewOrigins(c: Rerun)
    requires c.Valid()
    ensures |c.w.origins| <= 1
  {
    hide Inv, IsExtension, LogEdges, FitsWidth;
  }

  lemma SownOne(c: Rerun)
    requires c.Valid() && |c.w.origins| == 1
    ensures Sown(c, SeedOne(Start(c.q), EmitEvent(WORLD, 1, c.w.origins[0]), c.origins, 0))
  {
    hide Recording, IsExtension, LogEdges, EventId, Mid, ParseMid, SafeAt, VclockFrom;
    if SafeAt(c, WORLD, 1) {
      SafeStimulus(c, 1);
      assert c.origins[0] == Supplied(c.w)[0];
      SeedRestores(c.p, c.w, Start(c.q));
    }
  }

  lemma SeedsTame(c: Rerun, st: State)
    requires c.Valid() && Sown(c, st)
    ensures Tame(c, 0, st) && AllTracked(c, st, {})
  {
    hide Recording, IsExtension, LogEdges, SafeAt, EventId, SendLabel, Faultless, EventsOf, Sent;
    forall a ensures Cut(st, a) == 0 {}
    forall a, x: nat | Expected(c, 0, a, x) && Known(c.w, st, Trace(c.w, a)[x].env)
      ensures Held(st, Trace(c.w, a)[x].env)
    {
      InTasks(c, a);
      SafeMessage(c, a, x);
      SafeStimulus(c, c.w.sentAt[Trace(c.w, a)[x].env.msgId].1 + 1);
      OnlyOrigin(c, Trace(c.w, a)[x].env);
    }
    forall a, n: nat | SafeAt(c, a, n)
      ensures Unnamed(st.divergences, EventId(a, n)) && (a == WORLD || n <= Cut(st, a) ==> Made(c, st, a, n))
    {
      SownNames(c, st, a, n);
      if a == WORLD { SafeStimulus(c, n); } else { var i := SafeEntry(c, a, n); }
    }
    forall a, n: nat | Faultless(c, a)
      ensures Unnamed(st.divergences, EventId(a, n)) && Unnamed(st.divergences, SendLabel(a, n))
    {
      assert a != WORLD by { FaultlessName(c, a); }
      SownNames(c, st, a, n);
    }
  }

  lemma FaultlessName(c: Rerun, a: Name)
    requires c.Valid() && Faultless(c, a)
    ensures a in c.q.names && a in c.w.tasks && a in c.p.names && a != WORLD
  {
    hide Rerun.Valid, SafeAt, Behave;
    InTasks(c, a);
  }

  lemma OnlyOrigin(c: Rerun, env: Envelope)
    requires Sent(c.w, env) && c.w.sentAt[env.msgId] == (WORLD, 0)
    ensures c.w.origins != [] && c.w.origins[0] == env
  {}

  lemma SownNames(c: Rerun, st: State, a: Name, n: nat)
    requires Sown(c, st) && (SafeAt(c, a, n) || a != WORLD)
    ensures Unnamed(st.divergences, EventId(a, n)) && Unnamed(st.divergences, SendLabel(a, n))
  {
    hide SafeAt, EventId, SendLabel, Held;
    SendLabelApart(a, n, WORLD, 1);
    if EventId(a, n) == EventId(WORLD, 1) { EventIdInjective(a, n, WORLD, 1); }
  }

  // ------------------------------------------------------------- the whole replay

  lemma {:induction false} StartAllTame(c: Rerun, st: State, rest: set<Name>)
    requires c.Valid() && Tame(c, 0, st) && rest <= c.q.names && AllTracked(c, st, c.q.names - rest)
    requires rest <= st.actors.Keys && Room(c.w.log, StartAll(c.q, c.w.log, st, rest))
    ensures var next := StartAll(c.q, c.w.log, st, rest); Tame(c, 0, next) && AllTracked(c, next, c.q.names)
    decreases |rest|
  {
    hide Rerun.Valid, Tame, AllTracked, Drive, Room, SendsIn, SameElsewhere, Track;
    if rest == {} {
      assert c.q.names - rest == c.q.names;
    } else {
      var a := LeastName(rest);
      var mid := Drive(c.q, c.w.log, st, a, None);
      ActorsKept(c.q, c.w.log, st, a, None);
      forall b ensures SendsIn(mid, b) <= SendsIn(StartAll(c.q, c.w.log, mid, rest - {a}), b) {
        StartAllGrows(c.q, c.w.log, mid, rest - {a}, b);
      }
      RoomBefore(c.w.log, mid, StartAll(c.q, c.w.log, mid, rest - {a}));
      HookTame(c, st, c.q.names - rest, a);
      assert c.q.names - rest + {a} == c.q.names - (rest - {a});
      StartAllTame(c, mid, rest - {a});
    }
  }

  lemma HookTame(c: Rerun, st: State, S: set<Name>, a: Name)
    requires c.Valid() && Tame(c, 0, st) && AllTracked(c, st, S) && a in c.q.names && a !in S && a in st.actors
    requires Room(c.w.log, Drive(c.q, c.w.log, st, a, None))
    ensures var next := Drive(c.q, c.w.log, st, a, None); Tame(c, 0, next) && AllTracked(c, next, S + {a})
  {
    hide Recording, IsExtension, LogEdges, Tame, Drive, Room, SafeAt, Faultless, Spent;
    var (u, acts) := c.q.start(a, st.actors[a]);
    var mid := st.(actors := st.actors[a := u]);
    UserMoves(c, 0, st, mid, a);
    if a in c.w.tasks {
      assert Trace(c.w, a)[..0] == [];
      assert StateAt(c.q, c.w, mid, a, acts);
    } else {
      StrangerIsFree(c, mid, a);
    }
    DriveTame(c, 0, st, a, None, u, acts);
    TrackedAfter(c, st, Drive(c.q, c.w.log, st, a, None), S, a);
  }

  lemma {:induction false} WalkTame(c: Rerun, st: State, k: nat)
    requires c.Valid() && Tame(c, 0, st) && AllTracked(c, st, c.q.names) && k <= |c.order|
    requires Positions(c.w.log, c.order) && Room(c.w.log, ReplayAll(c.q, c.w.log, st, Timeline(c.w.log, c.order)[..k]))
    ensures var next := ReplayAll(c.q, c.w.log, st, Timeline(c.w.log, c.order)[..k]);
      Tame(c, k, next) && AllTracked(c, next, c.q.names)
  {
    hide Rerun.Valid, Tame, AllTracked, ReplayRecv, Room, SendsIn;
    var tl := Timeline(c.w.log, c.order);
    if k > 0 {
      assert tl[..k][..k - 1] == tl[..k - 1];
      var mid := ReplayAll(c.q, c.w.log, st, tl[..k - 1]);
      forall b ensures SendsIn(mid, b) <= SendsIn(ReplayRecv(c.q, c.w.log, mid, tl[k - 1]), b) {
        RecvGrows(c.q, c.w.log, mid, tl[k - 1], b);
      }
      RoomBefore(c.w.log, mid, ReplayRecv(c.q, c.w.log, mid, tl[k - 1]));
      WalkTame(c, st, k - 1);
      RecvTame(c, k - 1, mid);
    }
  }

  /** After the walk every safe event has been re-executed. */
  lemma AllDone(c: Rerun, st: State, a: Name, n: nat)
    requires c.Valid() && InTime(c, |c.order|, st) && a in c.p.names && Track(c, st, a, []) && SafeAt(c, a, n)
    ensures n <= Cut(st, a)
  {
    hide Recording, IsExtension, LogEdges, Reach, Safe, EventsOf, Stamps, SendCount, InTime, Behave, StateAt, SafeAt,
        Faultless, Cut;
    if Cut(st, a) < n && !Free(c, st, a) {
      InTasks(c, a);
      Bounded(c.q, c.w, st, a, []);
      var x := Cut(st, a);
      SafeBefore(c, a, x + 1, n);
      var j := SafeEntry(c, a, x + 1);
      NextIsTaken(c, st, a);
      ExtensionCovers(LogEdges(c.w.log), |c.w.log|, c.order, j);
      InTimeAt(c, |c.order|, st, a, x);
      assert false;
    }
  }

  ghost function Result(c: Rerun): State
    requires Positions(c.w.log, c.order)
  {
    Replay(c.q, c.w.log, Timeline(c.w.log, c.order), c.origins)
  }

  /** The replay up to the completeness pass. */
  lemma Walked(c: Rerun) returns (st: State)
    requires c.Valid() && Room(c.w.log, Result(c))
    ensures Tame(c, |c.order|, st) && AllTracked(c, st, c.q.names) && Result(c) == Complete(st, c.w.log)
  {
    hide Recording, IsExtension, LogEdges, Tame, AllTracked, SeedAll, StartAll, ReplayAll, Complete, EmitsOf, Room,
        SendsIn, Sown;
    var tl := Timeline(c.w.log, c.order);
    var st0 := Seeds(c);
    SeedKeepsActors(Start(c.q), EmitsOf(c.w.log, WORLD), c.origins);
    SeedsSown(c);
    SeedsTame(c, st0);
    var st1 := StartAll(c.q, c.w.log, st0, c.q.names);
    st := ReplayAll(c.q, c.w.log, st1, tl);
    assert tl[..|c.order|] == tl;
    CompleteSends(st, c.w.log);
    RoomBefore(c.w.log, st, Complete(st, c.w.log));
    forall b ensures SendsIn(st1, b) <= SendsIn(st, b) { WalkGrows(c.q, c.w.log, st1, tl, b); }
    RoomBefore(c.w.log, st1, st);
    assert c.q.names - c.q.names == {};
    StartAllTame(c, st0, c.q.names);
    WalkTame(c, st1, |c.order|);
  }

  /** Every safe event is re-executed as recorded, and no complaint names it. */
  lemma SafeIsReproduced(c: Rerun, i: nat)
    requires c.Valid() && Room(c.w.log, Result(c)) && i < |c.w.log| && Safe(c, i)
    ensures var r := Result(c);
      && (c.w.log[i].actor != WORLD ==> c.w.log[i] in r.made)
      && c.w.log[i].id in r.produced && Unnamed(r.divergences, c.w.log[i].id)
  {
    hide Recording, IsExtension, LogEdges, Safe, Result, Room, EventId, EventsOf, Complete, Unnamed, SafeAt, AllTracked,
        Track;
    var st := Walked(c);
    var a, n := c.w.log[i].actor, c.w.log[i].seqNo;
    SafeHere(c, i);
    SafeIsDone(c, st, a, n);
    assert c.w.log[i].id == EventId(a, n) by { IdHere(c, i); }
    if a != WORLD {
      var j := SafeEntry(c, a, n);
      SameCoordinate(c, a, n, i, j);
    }
    CompleteKeeps(st, c.w.log);
    CompleteNames(st, c.w.log, c.w.log[i].id);
  }

  lemma IdHere(c: Rerun, i: nat)
    requires c.Valid() && i < |c.w.log|
    ensures c.w.log[i].id == EventId(c.w.log[i].actor, c.w.log[i].seqNo)
  {
    hide Recording, IsExtension, LogEdges, EventId, WellStamped;
    Stamped(c);
    StampedAt(c.w.log, i);
  }

  lemma SafeIsDone(c: Rerun, st: State, a: Name, n: nat)
    requires c.Valid() && Tame(c, |c.order|, st) && AllTracked(c, st, c.q.names) && SafeAt(c, a, n)
    ensures Unnamed(st.divergences, EventId(a, n)) && Made(c, st, a, n)
  {
    hide Rerun.Valid, SafeAt, EventId, EventsOf, Unnamed, Track, InTime, Awaited, Blameless, Made;
    if a != WORLD {
      var i := SafeEntry(c, a, n);
      AllDone(c, st, a, n);
    }
  }

  /** A faultless actor ends where the code ends after the recorded history, and
      nothing is said about it. */
  lemma FaultlessIsUntouched(c: Rerun, a: Name)
    requires c.Valid() && Room(c.w.log, Result(c)) && Faultless(c, a)
    ensures var r := Result(c);
      && a in r.actors && r.actors[a] == Behave(c.q, a, Trace(c.w, a)).value.0
      && StampIn(r, a) == Stamps(a, Trace(c.w, a)) && SendsIn(r, a) == SendCount(Trace(c.w, a))
    ensures forall n: nat ::
      Unnamed(Result(c).divergences, EventId(a, n)) && Unnamed(Result(c).divergences, SendLabel(a, n))
  {
    hide Recording, IsExtension, LogEdges, Result, Room, EventId, SendLabel, EventsOf, Complete, Unnamed, SafeAt,
        Behave, Stamps, SendCount;
    var st := Walked(c);
    FaultlessName(c, a);
    assert Track(c, st, a, []);
    if Cut(st, a) < |Trace(c.w, a)| { AllDone(c, st, a, |Trace(c.w, a)|); }
    assert Trace(c.w, a)[..|Trace(c.w, a)|] == Trace(c.w, a);
    CompleteKeeps(st, c.w.log);
    forall n: nat
      ensures Unnamed(Result(c).divergences, EventId(a, n)) && Unnamed(Result(c).divergences, SendLabel(a, n))
    {
      forall i | 0 <= i < |c.w.log| && c.w.log[i].id == EventId(a, n) ensures EventId(a, n) in st.produced {
        LoggedIsMade(c, st, a, n, i);
      }
      forall i | 0 <= i < |c.w.log| ensures c.w.log[i].id != SendLabel(a, n) {
        IdHere(c, i);
        SendLabelApart(a, n, c.w.log[i].actor, c.w.log[i].seqNo);
      }
      CompleteNames(st, c.w.log, EventId(a, n));
      CompleteNames(st, c.w.log, SendLabel(a, n));
    }
  }

  lemma LoggedIsMade(c: Rerun, st: State, a: Name, n: nat, i: nat)
    requires c.Valid() && Tame(c, |c.order|, st) && AllTracked(c, st, c.q.names) && Faultless(c, a)
    requires i < |c.w.log| && c.w.log[i].id == EventId(a, n)
    ensures EventId(a, n) in st.produced
  {
    hide Recording, IsExtension, LogEdges, EventId, SendLabel, EventsOf, Unnamed, SafeAt, Behave, Tame, AllTracked;
    FaultlessName(c, a);
    IdHere(c, i);
    EventIdInjective(a, n, c.w.log[i].actor, c.w.log[i].seqNo);
    var x := EntryOf(c.p, c.w, i);
    SafeIsDone(c, st, a, n);
  }

  // ----------------------------------------------------------- what differs stays local

  /** `q` spawns the same actors as `p` with the same code, except perhaps those in `D`. */
  ghost predicate AgreeOutside(p: Program, q: Program, D: set<Name>) {
    && p.names - D == q.names - D
    && forall a | a in p.names - D ::
         && q.init(a) == p.init(a) && (forall s :: q.start(a, s) == p.start(a, s))
         && (forall s, m :: q.handle(a, s, m) == p.handle(a, s, m))
  }

  /** Neither event `i` nor anything in its causal past is an event of an actor in `D`. */
  ghost predicate Untouched(log: seq<CausalEvent>, D: set<Name>, i: nat) {
    && i < |log| && log[i].actor !in D
    && forall d: nat | d < |log| && Reach(LogEdges(log), d, i) :: log[d].actor !in D
  }

  lemma {:induction false} SameBehaviour(p: Program, q: Program, D: set<Name>, a: Name, tr: seq<Done>)
    requires AgreeOutside(p, q, D) && a in p.names - D
    ensures Behave(q, a, tr) == Behave(p, a, tr)
  {
    hide Stamps;
    if tr != [] { SameBehaviour(p, q, D, a, tr[..|tr| - 1]); }
  }

  lemma AgreeingIsKept(c: Rerun, D: set<Name>, i: nat)
    requires c.Valid() && AgreeOutside(c.p, c.q, D) && (WORLD in D || Supplied(c.w) <= c.origins)
    requires i < |c.w.log| && c.w.log[i].actor !in D
    ensures Kept(c, i)
  {
    hide Recording, IsExtension, LogEdges, Behave, EventsOf;
    if c.w.log[i].actor != WORLD {
      var a := c.w.log[i].actor;
      var x := EntryOf(c.p, c.w, i);
      OwnHistory(c.p, c.w, a, x + 1);
      SameBehaviour(c.p, c.q, D, a, Trace(c.w, a)[..x + 1]);
      assert a in c.p.names - D;
    }
  }

  lemma UntouchedIsSafe(c: Rerun, D: set<Name>, i: nat)
    requires c.Valid() && AgreeOutside(c.p, c.q, D) && (WORLD in D || Supplied(c.w) <= c.origins)
    requires Untouched(c.w.log, D, i)
    ensures Safe(c, i)
  {
    hide Rerun.Valid, LogEdges, Reach, Kept, AgreeOutside;
    AgreeingIsKept(c, D, i);
    forall d: nat | d < |c.w.log| && Reach(LogEdges(c.w.log), d, i) ensures Kept(c, d) { AgreeingIsKept(c, D, d); }
  }

  lemma RunRerun(p: Program, w: World, q: Program, origins: seq<(Name, Payload)>, order: seq<nat>) returns (c: Rerun)
    requires OneOrigin(p, w) && FitsWidth(w.log) && WORLD !in q.names
    requires IsExtension(LogEdges(w.log), |w.log|, order) && Positions(w.log, order)
    ensures c == Rerun(p, w, q, origins, order) && c.Valid()
  {
    hide Inv, Reachable, IsExtension, LogEdges, FitsWidth, Program.Addressed;
    RunStamped(p, w);
    c := Rerun(p, w, q, origins, order);
  }

  /** Locality: replay a run's log with code that differs from the recorded code in the
      actors of `D` alone, on stimuli that differ only if `D` has `world`. Whatever that
      code does, every recorded event with no event of `D` at or before it is
      re-executed exactly, and no complaint names it, in any order that respects the
      poset, as long as the numbers given to extra sends do not run into recorded ones. */
  lemma DriftStaysLocal(p: Program, w: World, q: Program, D: set<Name>, origins: seq<(Name, Payload)>, order: seq<nat>,
          i: nat)
    requires OneOrigin(p, w) && FitsWidth(w.log) && WORLD !in q.names
    requires AgreeOutside(p, q, D) && (WORLD in D || Supplied(w) <= origins)
    requires IsExtension(LogEdges(w.log), |w.log|, order) && Positions(w.log, order)
    requires Room(w.log, Replay(q, w.log, Timeline(w.log, order), origins)) && i < |w.log| && Untouched(w.log, D, i)
    ensures var r := Replay(q, w.log, Timeline(w.log, order), origins);
      && (w.log[i].actor != WORLD ==> w.log[i] in r.made)
      && w.log[i].id in r.produced
      && forall k | 0 <= k < |r.divergences| :: r.divergences[k].eventId != w.log[i].id
  {
    hide OneOrigin, IsExtension, LogEdges, Replay, Room, Untouched, AgreeOutside, Safe, Rerun.Valid, FitsWidth;
    var c := RunRerun(p, w, q, origins, order);
    UntouchedIsSafe(c, D, i);
    SafeIsReproduced(c, i);
  }

  /** And an actor all of whose events are such, with nothing left undone in the
      recording, ends in its recorded state and stamp without any complaint. */
  lemma UntouchedActorReplays(p: Program, w: World, q: Program, D: set<Name>, origins: seq<(Name, Payload)>,
          order: seq<nat>, a: Name)
    requires OneOrigin(p, w) && FitsWidth(w.log) && WORLD !in q.names
    requires AgreeOutside(p, q, D) && (WORLD in D || Supplied(w) <= origins)
    requires IsExtension(LogEdges(w.log), |w.log|, order) && Positions(w.log, order)
    requires Room(w.log, Replay(q, w.log, Timeline(w.log, order), origins))
    requires a in p.names - D && Clear(p, w, a)
    requires forall i: nat | i < |w.log| && w.log[i].actor == a :: Untouched(w.log, D, i)
    ensures var r := Replay(q, w.log, Timeline(w.log, order), origins);
      && a in r.actors && r.actors[a] == Settled(p, a, w.tasks[a]) && StampIn(r, a) == Stamps(a, Trace(w, a))
      && forall n: nat :: Unnamed(r.divergences, EventId(a, n)) && Unnamed(r.divergences, SendLabel(a, n))
  {
    hide OneOrigin, IsExtension, LogEdges, Replay, Room, Untouched, AgreeOutside, Safe, Rerun.Valid, EventId, SendLabel,
        Unnamed, Behave, Stamps, SendCount, Settled, FitsWidth;
    var c := RunRerun(p, w, q, origins, order);
    UntouchedIsFaultless(c, D, a);
    FaultlessIsUntouched(c, a);
    OwnEnd(c, a);
    assert c.q.names - D == c.p.names - D ==> a in c.q.names;
    SameBehaviour(p, q, D, a, Trace(w, a));
  }

  lemma OwnEnd(c: Rerun, a: Name)
    requires c.Valid() && a in c.p.names && a in c.w.tasks
    ensures Behave(c.p, a, Trace(c.w, a)) == Some((Settled(c.p, a, c.w.tasks[a]), Owed(c.p, a, c.w.tasks[a])))
  {
    hide MessagesOk, LogOk, WellStamped, IsExtension, LogEdges, FitsWidth, PhaseOk, Behave;
    assert TaskOk(c.p, a, c.w.tasks[a]);
  }

  lemma UntouchedIsFaultless(c: Rerun, D: set<Name>, a: Name)
    requires c.Valid() && AgreeOutside(c.p, c.q, D) && (WORLD in D || Supplied(c.w) <= c.origins)
    requires a in c.p.names - D && Clear(c.p, c.w, a)
    requires forall i: nat | i < |c.w.log| && c.w.log[i].actor == a :: Untouched(c.w.log, D, i)
    ensures Faultless(c, a)
  {
    hide Recording, IsExtension, LogEdges, Behave, EventsOf, Untouched, Safe, Reach, Settled;
    InTasks(c, a);
    forall n: nat | 1 <= n <= |Trace(c.w, a)| ensures SafeAt(c, a, n) {
      var i := PositionOf(c.p, c.w, a, n - 1);
      UntouchedIsSafe(c, D, i);
      assert IsAt(c, a, n, i);
    }
    OwnEnd(c, a);
    SameBehaviour(c.p, c.q, D, a, Trace(c.w, a));
    assert a in c.q.names - D;
  }
}
