/** Handler re-execution (reexec.rs): the sequential second backend of the same
    actor code, with its divergence accounting. The functions say what each step
    does to the replay state; `Replayer` carries the state in place. */
module Replays {
  import opened Names
  import opened Clocks
  import opened Events
  import opened Posets
  import opened Engine

  datatype Reason =
    | Differs | NoCounterpart | TooManySends | BadOriginId | OriginNotSupplied
    | NoMessageId | NoMessage | ActorNotRebuilt | NotReproduced

  datatype Divergence = Divergence(eventId: string, reason: Reason)

  // ---------------------------------------------------------- recorded index

  /** Events by id; a later event with the same id wins. */
  function ById(log: seq<CausalEvent>): map<string, CausalEvent> {
    if log == [] then map[] else ById(log[..|log| - 1])[log[|log| - 1].id := log[|log| - 1]]
  }

  function EmitPositions(log: seq<CausalEvent>, a: Name): (r: seq<nat>)
    ensures Positions(log, r)
  {
    EmitsBelow(log, |log|, a)
  }

  function EmitsBelow(log: seq<CausalEvent>, n: nat, a: Name): (r: seq<nat>)
    requires n <= |log|
    ensures forall k | 0 <= k < |r| :: r[k] < n && log[r[k]].actor == a && log[r[k]].op == Emit
    ensures forall i, j | 0 <= i < j < |r| :: r[i] < r[j]
  {
    if n == 0 then []
    else if log[n - 1].op == Emit && log[n - 1].actor == a then EmitsBelow(log, n - 1, a) + [n - 1]
    else EmitsBelow(log, n - 1, a)
  }

  /** The actor's recorded emits in sequence order. */
  function EmitsOf(log: seq<CausalEvent>, a: Name): seq<CausalEvent> {
    Timeline(log, SortBySeq(log, EmitPositions(log, a)))
  }

  // ------------------------------------------------------------ replay state

  datatype State = State(
    actors: map<Name, UserState>,
    clocks: map<Name, Stamp>,
    pending: map<nat, Envelope>,
    sends: map<Name, nat>,
    divergences: seq<Divergence>,
    produced: set<string>,
    made: seq<CausalEvent>)      // history: every event handed to `Verify`

  function Start(p: Program): State {
    State(map a | a in p.names :: p.init(a), map a | a in p.names :: ZERO, map[], map[], [], {}, [])
  }

  function Diverge(st: State, id: string, why: Reason): State {
    st.(divergences := st.divergences + [Divergence(id, why)])
  }

  function StampIn(st: State, a: Name): Stamp { if a in st.clocks then st.clocks[a] else ZERO }

  function SendsIn(st: State, a: Name): nat { if a in st.sends then st.sends[a] else 0 }

  // ------------------------------------------------------ the replay backend

  /** The id handed out for a send the recording does not have. */
  function Sentinel(j: nat): nat { if j <= U64_MAX then U64_MAX - j else 0 }

  /** The recorded numeric id of `a`'s `j`-th send, counting from one. */
  function RecordedId(log: seq<CausalEvent>, a: Name, j: nat): Option<nat>
    requires j >= 1
  {
    var es := EmitsOf(log, a);
    if j <= |es| && es[j - 1].msgId.Some? then ParseMid(es[j - 1].msgId.value) else None
  }

  function SendLabel(a: Name, j: nat): string { a + ":send" + Decimal(j) }

  function NextMsgId(log: seq<CausalEvent>, st: State, a: Name): (State, nat) {
    var j := SendsIn(st, a) + 1;
    var counted := st.(sends := st.sends[a := j]);
    match RecordedId(log, a, j)
    case Some(m) => (counted, m)
    case None => (Diverge(counted, SendLabel(a, j), TooManySends), Sentinel(j))
  }

  /** What is wrong with a re-produced event, if anything. */
  function Mismatch(log: seq<CausalEvent>, e: CausalEvent): Option<Reason> {
    if e.id !in ById(log) then Some(NoCounterpart) else if ById(log)[e.id] == e then None else Some(Differs)
  }

  function Verify(log: seq<CausalEvent>, st: State, e: CausalEvent): State {
    var seen := st.(produced := st.produced + {e.id}, made := st.made + [e]);
    match Mismatch(log, e) case None => seen case Some(why) => Diverge(seen, e.id, why)
  }

  function Stash(st: State, env: Envelope): State { st.(pending := st.pending[env.msgId := env]) }

  /** One context call of a handler of `a`. */
  function Act(log: seq<CausalEvent>, st: State, a: Name, act: Action): State {
    var s := OnLocal(StampIn(st, a), a);
    match act
    case Work => Verify(log, st, ComputeEvent(a, s)).(clocks := st.clocks[a := s])
    case Send(dst, msg) =>
      var (named, id) := NextMsgId(log, st, a);
      var env := Outgoing(a, s, id, dst, msg);
      Stash(Verify(log, named, EmitEvent(a, s.seqNo, env)), env).(clocks := st.clocks[a := s])
  }

  function ActAll(log: seq<CausalEvent>, st: State, a: Name, acts: seq<Action>): State
    decreases |acts|
  {
    if acts == [] then st else ActAll(log, Act(log, st, a, acts[0]), a, acts[1..])
  }

  /** `drive`: the `started` hook, or one `handle`. */
  function Drive(p: Program, log: seq<CausalEvent>, st: State, a: Name, msg: Option<Payload>): State
    requires a in st.actors
  {
    var (u, acts) := match msg case None => p.start(a, st.actors[a]) case Some(m) => p.handle(a, st.actors[a], m);
    ActAll(log, st.(actors := st.actors[a := u]), a, acts)
  }

  // ------------------------------------------------------------- the driver

  /** Match the `k`-th recorded `world` emit with the `k`-th supplied origin. */
  function SeedOne(st: State, we: CausalEvent, origins: seq<(Name, Payload)>, k: nat): State {
    var m := if we.msgId.Some? then ParseMid(we.msgId.value) else None;
    if m.None? then Diverge(st, we.id, BadOriginId)
    else if k >= |origins| then Diverge(st, we.id, OriginNotSupplied)
    else
      var env := Envelope(origins[k].1, VclockFrom(we.vclock), we.lamport, m.value, WORLD, origins[k].0);
      Stash(st.(produced := st.produced + {we.id}), env)
  }

  function SeedAll(st: State, wes: seq<CausalEvent>, origins: seq<(Name, Payload)>): State {
    if wes == [] then st
    else SeedOne(SeedAll(st, wes[..|wes| - 1], origins), wes[|wes| - 1], origins, |wes| - 1)
  }

  /** The `started` pass, in name order. */
  ghost function StartAll(p: Program, log: seq<CausalEvent>, st: State, rest: set<Name>): State
    requires rest <= st.actors.Keys
    decreases |rest|
  {
    if rest == {} then st
    else
      var a := LeastName(rest);
      var next := Drive(p, log, st, a, None);
      ActorsKept(p, log, st, a, None);
      StartAll(p, log, next, rest - {a})
  }

  /** One timeline event: only receives drive a handler. */
  function ReplayRecv(p: Program, log: seq<CausalEvent>, st: State, ev: CausalEvent): State {
    if ev.op != Recv then st
    else
      var m := if ev.msgId.Some? then ParseMid(ev.msgId.value) else None;
      if m.None? then Diverge(st, ev.id, NoMessageId)
      else if m.value !in st.pending then Diverge(st, ev.id, NoMessage)
      else
        var a, env := ev.actor, st.pending[m.value];
        var s := OnRecv(StampIn(st, a), a, env.vclock, env.lamport);
        var taken := Verify(log, st.(pending := st.pending - {m.value}, clocks := st.clocks[a := s]),
            RecvEvent(a, s, env));
        if a !in taken.actors then Diverge(taken, ev.id, ActorNotRebuilt)
        else Drive(p, log, taken, a, Some(env.msg))
  }

  function ReplayAll(p: Program, log: seq<CausalEvent>, st: State, timeline: seq<CausalEvent>): State {
    if timeline == [] then st
    else ReplayRecv(p, log, ReplayAll(p, log, st, timeline[..|timeline| - 1]), timeline[|timeline| - 1])
  }

  /** Every recorded event must have been produced. */
  function Complete(st: State, log: seq<CausalEvent>): State {
    if log == [] then st
    else
      var done := Complete(st, log[..|log| - 1]);
      var e := log[|log| - 1];
      if e.id in done.produced then done else Diverge(done, e.id, NotReproduced)
  }

  /** The whole re-execution over one timeline of the log. */
  ghost function Replay(p: Program, log: seq<CausalEvent>, timeline: seq<CausalEvent>,
          origins: seq<(Name, Payload)>): State {
    var seeded := SeedAll(Start(p), EmitsOf(log, WORLD), origins);
    SeedKeepsActors(Start(p), EmitsOf(log, WORLD), origins);
    Complete(ReplayAll(p, log, StartAll(p, log, seeded, p.names), timeline), log)
  }

  // --------------------------------------------------------------- framing

  lemma NextMsgIdKeeps(log: seq<CausalEvent>, st: State, a: Name)
    ensures var r := NextMsgId(log, st, a).0;
      r.actors == st.actors && r.clocks == st.clocks && r.pending == st.pending && r.produced == st.produced
          && r.made == st.made
    ensures st.divergences <= NextMsgId(log, st, a).0.divergences
  {
    hide RecordedId, SendLabel;
  }

  lemma VerifyKeeps(log: seq<CausalEvent>, st: State, e: CausalEvent)
    ensures var r := Verify(log, st, e);
      r.actors == st.actors && r.clocks == st.clocks && r.pending == st.pending && r.sends == st.sends
    ensures st.divergences <= Verify(log, st, e).divergences
  {
    hide Mismatch;
  }

  lemma ActKeeps(log: seq<CausalEvent>, st: State, a: Name, act: Action)
    ensures Act(log, st, a, act).actors == st.actors
    ensures st.divergences <= Act(log, st, a, act).divergences
  {
    hide OnLocal, NextMsgId, Verify, EmitEvent, ComputeEvent;
    var s := OnLocal(StampIn(st, a), a);
    match act
    case Work => VerifyKeeps(log, st, ComputeEvent(a, s));
    case Send(dst, msg) =>
      NextMsgIdKeeps(log, st, a);
      var (named, id) := NextMsgId(log, st, a);
      VerifyKeeps(log, named, EmitEvent(a, s.seqNo, Outgoing(a, s, id, dst, msg)));
  }

  lemma {:induction false} ActAllKeeps(log: seq<CausalEvent>, st: State, a: Name, acts: seq<Action>)
    ensures ActAll(log, st, a, acts).actors == st.actors
    ensures st.divergences <= ActAll(log, st, a, acts).divergences
    decreases |acts|
  {
    hide Act;
    if acts != [] {
      ActKeeps(log, st, a, acts[0]);
      ActAllKeeps(log, Act(log, st, a, acts[0]), a, acts[1..]);
    }
  }

  lemma ActorsKept(p: Program, log: seq<CausalEvent>, st: State, a: Name, msg: Option<Payload>)
    requires a in st.actors
    ensures Drive(p, log, st, a, msg).actors.Keys == st.actors.Keys
    ensures st.divergences <= Drive(p, log, st, a, msg).divergences
  {
    hide ActAll;
    var (u, acts) := match msg case None => p.start(a, st.actors[a]) case Some(m) => p.handle(a, st.actors[a], m);
    ActAllKeeps(log, st.(actors := st.actors[a := u]), a, acts);
  }

  lemma {:induction false} SeedKeepsActors(st: State, wes: seq<CausalEvent>, origins: seq<(Name, Payload)>)
    ensures SeedAll(st, wes, origins).actors == st.actors
    ensures st.divergences <= SeedAll(st, wes, origins).divergences
  {
    hide ParseMid, VclockFrom;
    if wes != [] { SeedKeepsActors(st, wes[..|wes| - 1], origins); }
  }
}
