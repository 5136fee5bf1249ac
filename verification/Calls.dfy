/** What the replayer's calls and steps do whatever the recording is: how complaints are
    labelled, what one context call touches, and which numbers it hands out. */
module Calls {
  import opened Names
  import opened Clocks
  import opened Events
  import opened Replays
  import opened Simulation
  import opened Fidelity
  import opened Verdict
  import opened Embedding

  // --------------------------------------------------- complaints and labels

  /** No complaint names `id`. */
  ghost predicate Unnamed(ds: seq<Divergence>, id: string) {
    forall k | 0 <= k < |ds| :: ds[k].eventId != id
  }

  lemma DivergeNames(st: State, name: string, why: Reason, id: string)
    requires Unnamed(st.divergences, id) && id != name
    ensures Unnamed(Diverge(st, name, why).divergences, id)
  {}

  lemma SendLabelSplits(a: Name, j: nat)
    ensures var s := SendLabel(a, j);
      && |a| + 5 < |s| && s[..|a|] == a && s[|a|] == ':' && s[|a| + 1] == 's' && s[|a| + 5..] == Decimal(j)
      && forall k | |a| < k < |s| :: s[k] != ':'
  {
    var s, x := SendLabel(a, j), Decimal(j);
    assert s == a + (":send" + x);
    forall k | |a| < k < |s| ensures s[k] != ':' {
      if k >= |a| + 5 { assert s[k] == x[k - |a| - 5] && IsDigit(x[k - |a| - 5]); }
    }
  }

  /** What names a send beyond the recording is not an event's id, and tells which send
      of which actor it was. */
  lemma SendLabelApart(a: Name, j: nat, b: Name, n: nat)
    ensures SendLabel(a, j) != EventId(b, n)
    ensures SendLabel(a, j) == SendLabel(b, n) ==> a == b && j == n
  {
    hide EventId, SendLabel, Decimal;
    SendLabelSplits(a, j);
    SendLabelSplits(b, n);
    EventIdSplits(b, n);
    DecimalValue(j);
    DecimalValue(n);
    assert EventId(b, n)[|b| + 1] == Decimal(n)[0] && IsDigit(Decimal(n)[0]);
  }

  // ------------------------------------------------------ one context call

  /** What any context call of `a` does to the replay. */
  ghost predicate Moves(st: State, next: State, a: Name) {
    && next.actors == st.actors && SameElsewhere(st, next, a)
    && Cut(next, a) == Cut(st, a) + 1 && SendsIn(st, a) <= SendsIn(next, a)
    && next.produced == st.produced + {EventId(a, Cut(st, a) + 1)} && st.made <= next.made
    && forall id | Unnamed(st.divergences, id) && id != EventId(a, Cut(st, a) + 1)
                   && id != SendLabel(a, SendsIn(st, a) + 1) ::
         Unnamed(next.divergences, id)
  }

  lemma VerifyMoves(log: seq<CausalEvent>, st: State, e: CausalEvent)
    ensures var r := Verify(log, st, e);
      && r.produced == st.produced + {e.id} && st.made <= r.made
      && forall id | Unnamed(st.divergences, id) && id != e.id :: Unnamed(r.divergences, id)
  {
    hide Mismatch;
  }

  lemma NextMsgIdMoves(log: seq<CausalEvent>, st: State, a: Name)
    ensures var r := NextMsgId(log, st, a).0;
      && r.sends == st.sends[a := SendsIn(st, a) + 1]
      && forall id | Unnamed(st.divergences, id) && id != SendLabel(a, SendsIn(st, a) + 1) :: Unnamed(r.divergences, id)
  {
    hide RecordedId, SendLabel;
  }

  lemma ActMoves(log: seq<CausalEvent>, st: State, a: Name, act: Action)
    ensures Moves(st, Act(log, st, a, act), a)
    ensures SendsIn(Act(log, st, a, act), a) == SendsIn(st, a) + if act.Send? then 1 else 0
    ensures forall m | m in st.pending && (act.Work? || m != NextMsgId(log, st, a).1) ::
              m in Act(log, st, a, act).pending && Act(log, st, a, act).pending[m] == st.pending[m]
  {
    hide Verify, NextMsgId, SendLabel, EventId, Mid, Increment, Unnamed;
    var s := OnLocal(StampIn(st, a), a);
    match act
    case Work =>
      VerifyKeeps(log, st, ComputeEvent(a, s));
      VerifyMoves(log, st, ComputeEvent(a, s));
    case Send(dst, msg) =>
      NextMsgIdKeeps(log, st, a);
      NextMsgIdMoves(log, st, a);
      var (named, id) := NextMsgId(log, st, a);
      var env := Outgoing(a, s, id, dst, msg);
      VerifyKeeps(log, named, EmitEvent(a, s.seqNo, env));
      VerifyMoves(log, named, EmitEvent(a, s.seqNo, env));
  }

  // ------------------------------------------- numbers handed out past the recording

  /** The numbers that the log's emits are read with leave the top `n` of the 64-bit
      range alone. */
  ghost predicate Spare(log: seq<CausalEvent>, n: nat) {
    forall i, m: nat | 0 <= i < |log| && log[i].op == Emit && Key(log[i]) == Some(m) :: m + n < U64_MAX
  }

  ghost predicate Room(log: seq<CausalEvent>, st: State) { forall a: Name :: Spare(log, SendsIn(st, a)) }

  ghost predicate IsEmitNumber(log: seq<CausalEvent>, m: nat) {
    exists i | 0 <= i < |log| :: log[i].op == Emit && Key(log[i]) == Some(m)
  }

  /** A send that the recording does not have gets a number from the top of the range,
      which no recorded message has: every pending recorded message stays as it is. */
  lemma ExtraSendApart(log: seq<CausalEvent>, st: State, a: Name, dst: Name, msg: Payload)
    requires Spare(log, SendsIn(st, a) + 1) && RecordedId(log, a, SendsIn(st, a) + 1) == None
    ensures U64_MAX - (SendsIn(st, a) + 1) <= NextMsgId(log, st, a).1 <= U64_MAX
    ensures !IsEmitNumber(log, NextMsgId(log, st, a).1)
    ensures forall m | m in st.pending && IsEmitNumber(log, m) ::
              var next := Act(log, st, a, Send(dst, msg)); m in next.pending && next.pending[m] == st.pending[m]
  {
    hide Key, RecordedId, SendLabel, Act;
    ActMoves(log, st, a, Send(dst, msg));
    assert NextMsgId(log, st, a).1 == Sentinel(SendsIn(st, a) + 1);
  }

  lemma RecordedIdSource(log: seq<CausalEvent>, a: Name, j: nat) returns (i: nat)
    requires j >= 1 && RecordedId(log, a, j).Some?
    ensures i < |log| && log[i].op == Emit && log[i].actor == a && Key(log[i]) == RecordedId(log, a, j)
  {
    hide EmitsOf, ParseMid, EmitCount;
    EmitsOfLog(log, a);
    i :| 0 <= i < |log| && log[i] == EmitsOf(log, a)[j - 1];
  }

  // ------------------------------------------------------------- whole handlers

  lemma MovesGrow(st: State, next: State, a: Name, b: Name)
    requires Moves(st, next, a)
    ensures SendsIn(st, b) <= SendsIn(next, b)
  {}

  lemma {:induction false} ActAllGrows(log: seq<CausalEvent>, st: State, a: Name, acts: seq<Action>, b: Name)
    ensures SendsIn(st, b) <= SendsIn(ActAll(log, st, a, acts), b)
    decreases |acts|
  {
    hide Act, SendsIn, Moves;
    if acts != [] {
      ActMoves(log, st, a, acts[0]);
      MovesGrow(st, Act(log, st, a, acts[0]), a, b);
      ActAllGrows(log, Act(log, st, a, acts[0]), a, acts[1..], b);
    }
  }

  lemma RoomBefore(log: seq<CausalEvent>, st: State, next: State)
    requires Room(log, next) && forall b :: SendsIn(st, b) <= SendsIn(next, b)
    ensures Room(log, st)
  {
    hide SendsIn, Key;
    forall b: Name ensures Spare(log, SendsIn(st, b)) { assert Spare(log, SendsIn(next, b)); }
  }

  lemma DriveGrows(q: Program, log: seq<CausalEvent>, st: State, a: Name, msg: Option<Payload>, b: Name)
    requires a in st.actors
    ensures SendsIn(st, b) <= SendsIn(Drive(q, log, st, a, msg), b)
  {
    hide ActAll;
    var (u, acts) := match msg case None => q.start(a, st.actors[a]) case Some(m) => q.handle(a, st.actors[a], m);
    ActAllGrows(log, st.(actors := st.actors[a := u]), a, acts, b);
  }

  lemma {:induction false} StartAllGrows(q: Program, log: seq<CausalEvent>, st: State, rest: set<Name>, b: Name)
    requires rest <= st.actors.Keys
    ensures SendsIn(st, b) <= SendsIn(StartAll(q, log, st, rest), b)
    decreases |rest|
  {
    hide Drive, SendsIn;
    if rest != {} {
      var a := LeastName(rest);
      ActorsKept(q, log, st, a, None);
      DriveGrows(q, log, st, a, None, b);
      StartAllGrows(q, log, Drive(q, log, st, a, None), rest - {a}, b);
    }
  }

  lemma RecvGrows(q: Program, log: seq<CausalEvent>, st: State, ev: CausalEvent, b: Name)
    ensures SendsIn(st, b) <= SendsIn(ReplayRecv(q, log, st, ev), b)
  {
    hide ParseMid, Drive, OnRecv, Verify, RecvEvent;
    var m := if ev.msgId.Some? then ParseMid(ev.msgId.value) else None;
    if ev.op == Recv && m.Some? && m.value in st.pending {
      var a, env := ev.actor, st.pending[m.value];
      var s := OnRecv(StampIn(st, a), a, env.vclock, env.lamport);
      var open := st.(pending := st.pending - {m.value}, clocks := st.clocks[a := s]);
      var taken := Verify(log, open, RecvEvent(a, s, env));
      VerifyKeeps(log, open, RecvEvent(a, s, env));
      if a in taken.actors { DriveGrows(q, log, taken, a, Some(env.msg), b); }
    }
  }

  lemma {:induction false} WalkGrows(q: Program, log: seq<CausalEvent>, st: State, tl: seq<CausalEvent>, b: Name)
    ensures SendsIn(st, b) <= SendsIn(ReplayAll(q, log, st, tl), b)
  {
    hide ReplayRecv, SendsIn;
    if tl != [] {
      WalkGrows(q, log, st, tl[..|tl| - 1], b);
      RecvGrows(q, log, ReplayAll(q, log, st, tl[..|tl| - 1]), tl[|tl| - 1], b);
    }
  }

  lemma {:induction false} CompleteNames(st: State, log: seq<CausalEvent>, id: string)
    requires Unnamed(st.divergences, id) && forall i | 0 <= i < |log| && log[i].id == id :: id in st.produced
    ensures Unnamed(Complete(st, log).divergences, id)
  {
    hide Unnamed;
    if log != [] {
      var front, e := log[..|log| - 1], log[|log| - 1];
      forall i | 0 <= i < |front| && front[i].id == id ensures id in st.produced { assert log[i].id == id; }
      CompleteNames(st, front, id);
      CompleteKeeps(st, front);
      if e.id !in st.produced { DivergeNames(Complete(st, front), e.id, NotReproduced, id); }
    }
  }

  lemma CompleteSends(st: State, log: seq<CausalEvent>)
    ensures forall b :: SendsIn(Complete(st, log), b) == SendsIn(st, b)
  {
    CompleteKeeps(st, log);
  }

  lemma {:induction false} ActAllMakes(log: seq<CausalEvent>, st: State, a: Name, acts: seq<Action>)
    ensures st.made <= ActAll(log, st, a, acts).made
    decreases |acts|
  {
    hide Act, SameElsewhere, Cut, SendsIn, Unnamed, EventId, SendLabel;
    if acts != [] {
      ActMoves(log, st, a, acts[0]);
      ActAllMakes(log, Act(log, st, a, acts[0]), a, acts[1..]);
    }
  }

  lemma DriveMakes(q: Program, log: seq<CausalEvent>, st: State, a: Name, msg: Option<Payload>)
    requires a in st.actors
    ensures st.made <= Drive(q, log, st, a, msg).made
  {
    hide ActAll;
    var (u, acts) := match msg case None => q.start(a, st.actors[a]) case Some(m) => q.handle(a, st.actors[a], m);
    ActAllMakes(log, st.(actors := st.actors[a := u]), a, acts);
  }

  /** `e` is the receive of `env` by `a`, with a clock that has taken the message's in. */
  ghost predicate IsRecvOf(e: CausalEvent, a: Name, env: Envelope) {
    e == RecvEvent(a, StampOf(e), env) && Lt(env.vclock, e.vclock) && env.lamport < e.lamport
  }

  /** When a receive's turn comes and its message is pending, the receive is re-executed,
      whether or not its actor was rebuilt; otherwise nothing is. */
  lemma RecvMakes(q: Program, log: seq<CausalEvent>, st: State, ev: CausalEvent)
    ensures var next := ReplayRecv(q, log, st, ev);
      if ev.op == Recv && Key(ev).Some? && Key(ev).value in st.pending
      then
        && |st.made| < |next.made| && st.made <= next.made
        && IsRecvOf(next.made[|st.made|], ev.actor, st.pending[Key(ev).value])
      else next.made == st.made
  {
    hide ParseMid, Drive, OnRecv, Verify, RecvEvent, IsRecvOf;
    if ev.op == Recv && Key(ev).Some? && Key(ev).value in st.pending {
      var m, a, env := Key(ev).value, ev.actor, st.pending[Key(ev).value];
      var s := OnRecv(StampIn(st, a), a, env.vclock, env.lamport);
      var open := st.(pending := st.pending - {m}, clocks := st.clocks[a := s]);
      var taken := Verify(log, open, RecvEvent(a, s, env));
      VerifyMakes(log, open, RecvEvent(a, s, env));
      RecvStamped(StampIn(st, a), a, env);
      if a in taken.actors { DriveMakes(q, log, taken, a, Some(env.msg)); }
    }
  }

  lemma VerifyMakes(log: seq<CausalEvent>, st: State, e: CausalEvent)
    ensures Verify(log, st, e).made == st.made + [e]
  {
    hide Mismatch;
  }

  lemma RecvStamped(s: Stamp, a: Name, env: Envelope)
    ensures IsRecvOf(RecvEvent(a, OnRecv(s, a, env.vclock, env.lamport), env), a, env)
  {
    hide EventId, Mid, Merge, Increment;
    var t := OnRecv(s, a, env.vclock, env.lamport);
    RecvJoins(s, a, env.vclock, env.lamport);
    forall k | k in env.vclock ensures env.vclock[k] <= Get(t.clock, k) { assert Get(env.vclock, k) == env.vclock[k]; }
    assert Get(env.vclock, a) < Get(t.clock, a);
    assert a in t.clock;
  }

  lemma {:induction false} WalkMakes(q: Program, log: seq<CausalEvent>, st: State, tl: seq<CausalEvent>, k: nat)
    requires k <= |tl|
    ensures ReplayAll(q, log, st, tl[..k]).made <= ReplayAll(q, log, st, tl).made
  {
    hide ReplayRecv, IsRecvOf;
    if k < |tl| {
      var n := |tl| - 1;
      WalkMakes(q, log, st, tl[..n], k);
      assert tl[..n][..k] == tl[..k];
      RecvMakes(q, log, ReplayAll(q, log, st, tl[..n]), tl[n]);
    } else {
      assert tl[..k] == tl;
    }
  }
}
