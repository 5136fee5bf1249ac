/** Replay as execution: whatever the log, the code and the order, what replay re-executes
    are histories of that code, one for each actor, with no hook or handler left
    unfinished, out of messages that were sent or supplied. */
module Histories {
  import opened Names
  import opened Clocks
  import opened Events
  import opened Logs
  import opened Recorder
  import opened Traces
  import opened Recall
  import opened Replays
  import opened Simulation
  import opened Fidelity
  import opened Verdict
  import opened Calls

  type Past = map<Name, seq<Done>>

  /** `env` was sent: it is an external stimulus, or some history sent it. */
  ghost predicate IsSent(past: Past, stim: seq<Envelope>, env: Envelope) {
    env in stim || exists b, y: nat :: SentIn(past, b, y, env)
  }

  ghost predicate SentIn(past: Past, b: Name, y: nat, env: Envelope) {
    b in past && y < |past[b]| && past[b][y] == DidSend(env)
  }

  /** `a` has re-executed exactly the history `past[a]` of its code, whose running
      handler still has `todo` to do. */
  ghost predicate ActorHist(q: Program, st: State, past: Past, a: Name, todo: seq<Action>) {
    && a in past && a in st.actors
    && StampIn(st, a) == Stamps(a, past[a]) && SendsIn(st, a) == SendCount(past[a])
    && Behave(q, a, past[a]) == Some((st.actors[a], todo))
    && Project(st.made, a) == EventsOf(a, past[a])
  }

  /** Pending messages, and messages received, were sent. */
  ghost predicate Letters(past: Past, stim: seq<Envelope>, st: State) {
    && (forall m | m in st.pending :: IsSent(past, stim, st.pending[m]))
    && (forall a, x: nat | a in past && x < |past[a]| && past[a][x].DidRecv? :: IsSent(past, stim, past[a][x].env))
  }

  /** `next` differs from `st` on actor `a` alone, re-executed events included. */
  ghost predicate Apart(st: State, next: State, a: Name) {
    SameElsewhere(st, next, a) && forall b | b != a :: Project(next.made, b) == Project(st.made, b)
  }

  lemma ApartTwice(st: State, mid: State, next: State, a: Name)
    requires Apart(st, mid, a) && Apart(mid, next, a)
    ensures Apart(st, next, a)
  {
    hide Project;
    ElsewhereTwice(st, mid, next, a);
  }

  lemma IsSentGrows(past: Past, next: Past, stim: seq<Envelope>, a: Name, d: Done, env: Envelope)
    requires a in past && next == past[a := past[a] + [d]] && IsSent(past, stim, env)
    ensures IsSent(next, stim, env)
  {
    if b, y: nat :| SentIn(past, b, y, env) {
      assert SentIn(next, b, y, env);
    }
  }

  /** A history entry consistent with what is pending keeps the letters. */
  lemma LettersGrow(past: Past, next: Past, stim: seq<Envelope>, st: State, after: State, a: Name, d: Done)
    requires a in past && next == past[a := past[a] + [d]] && Letters(past, stim, st)
    requires match d
             case DidWork => after.pending == st.pending
             case DidSend(env) => after.pending == st.pending[env.msgId := env]
             case DidRecv(env) =>
               && after.pending.Keys <= st.pending.Keys
               && (forall m | m in after.pending :: after.pending[m] == st.pending[m])
               && IsSent(past, stim, env)
    ensures Letters(next, stim, after)
  {
    hide IsSent;
    if d.DidSend? { assert IsSent(next, stim, d.env) by { JustSent(next, stim, a, |past[a]|, d.env); } }
    forall m | m in after.pending ensures IsSent(next, stim, after.pending[m]) {
      if !(d.DidSend? && m == d.env.msgId) { IsSentGrows(past, next, stim, a, d, st.pending[m]); }
    }
    forall b, x: nat | b in next && x < |next[b]| && next[b][x].DidRecv? ensures IsSent(next, stim, next[b][x].env) {
      if b == a && x == |past[a]| {
        IsSentGrows(past, next, stim, a, d, d.env);
      } else {
        assert next[b][x] == past[b][x];
        IsSentGrows(past, next, stim, a, d, past[b][x].env);
      }
    }
  }

  lemma JustSent(past: Past, stim: seq<Envelope>, a: Name, y: nat, env: Envelope)
    requires SentIn(past, a, y, env)
    ensures IsSent(past, stim, env)
  {}

  /** One more entry in an actor's history. */
  lemma HistGrows(q: Program, st: State, after: State, past: Past, next: Past, a: Name, todo: seq<Action>,
                  rest: seq<Action>, d: Done)
    requires ActorHist(q, st, past, a, todo) && next == past[a := past[a] + [d]]
    requires a in after.actors && StampIn(after, a) == StampAfter(a, StampIn(st, a), d)
    requires SendsIn(after, a) == SendsIn(st, a) + if d.DidSend? then 1 else 0
    requires Behaved(q, a, StampIn(after, a), st.actors[a], todo, d) == Some((after.actors[a], rest))
    requires after.made == st.made + [EventAfter(a, StampIn(st, a), d)]
    ensures ActorHist(q, after, next, a, rest)
    ensures forall b | b != a :: Project(after.made, b) == Project(st.made, b)
  {
    hide StampAfter, EventAfter, Behaved, Behave, EventsOf, Stamps, Project, SendCount;
    var e := EventAfter(a, StampIn(st, a), d);
    EventOwner(a, StampIn(st, a), d);
    TraceAppend(q, a, past[a], d);
    SendCountAppend(past[a], d);
    ProjectAppend(st.made, e, a);
    forall b | b != a ensures Project(after.made, b) == Project(st.made, b) { ProjectAppend(st.made, e, b); }
  }

  lemma WorkHistory(q: Program, log: seq<CausalEvent>, stim: seq<Envelope>, st: State, past: Past, a: Name,
          todo: seq<Action>)
    requires ActorHist(q, st, past, a, todo) && Letters(past, stim, st) && todo != [] && todo[0].Work?
    ensures var after, next := Act(log, st, a, Work), past[a := past[a] + [DidWork]];
      ActorHist(q, after, next, a, todo[1..]) && Letters(next, stim, after) && Apart(st, after, a)
  {
    hide Verify, Increment, EventId, EventsOf, Stamps, Behave, Letters, Project, SendCount;
    var s := OnLocal(StampIn(st, a), a);
    var after := Act(log, st, a, Work);
    VerifyKeeps(log, st, ComputeEvent(a, s));
    VerifyMakes(log, st, ComputeEvent(a, s));
    var next := past[a := past[a] + [DidWork]];
    HistGrows(q, st, after, past, next, a, todo, todo[1..], DidWork);
    LettersGrow(past, next, stim, st, after, a, DidWork);
  }

  lemma SendHistory(q: Program, log: seq<CausalEvent>, stim: seq<Envelope>, st: State, past: Past, a: Name,
          todo: seq<Action>)
    returns (env: Envelope)
    requires ActorHist(q, st, past, a, todo) && Letters(past, stim, st) && todo != [] && todo[0].Send?
    ensures var after, next := Act(log, st, a, todo[0]), past[a := past[a] + [DidSend(env)]];
      ActorHist(q, after, next, a, todo[1..]) && Letters(next, stim, after) && Apart(st, after, a)
  {
    hide Verify, Increment, EventId, Mid, EventsOf, Stamps, Behave, Letters, RecordedId, SendLabel, Project, SendCount;
    var s := OnLocal(StampIn(st, a), a);
    var after := Act(log, st, a, todo[0]);
    var (named, id) := NextMsgId(log, st, a);
    env := Outgoing(a, s, id, todo[0].dst, todo[0].msg);
    NextMsgIdKeeps(log, st, a);
    VerifyKeeps(log, named, EmitEvent(a, s.seqNo, env));
    VerifyMakes(log, named, EmitEvent(a, s.seqNo, env));
    var next := past[a := past[a] + [DidSend(env)]];
    HistGrows(q, st, after, past, next, a, todo, todo[1..], DidSend(env));
    LettersGrow(past, next, stim, st, after, a, DidSend(env));
  }

  /** From `past` to `next` only `a`'s history grew, and by calls alone. */
  ghost predicate OnlyCalls(past: Past, next: Past, a: Name) {
    && a in past && a in next && next == past[a := next[a]] && past[a] <= next[a]
    && forall x | |past[a]| <= x < |next[a]| :: !next[a][x].DidRecv?
  }

  lemma {:induction false} ActAllHistory(q: Program, log: seq<CausalEvent>, stim: seq<Envelope>, st: State,
          past: Past, a: Name, todo: seq<Action>)
    returns (next: Past)
    requires ActorHist(q, st, past, a, todo) && Letters(past, stim, st)
    ensures OnlyCalls(past, next, a)
    ensures var after := ActAll(log, st, a, todo);
      ActorHist(q, after, next, a, []) && Letters(next, stim, after) && Apart(st, after, a)
    decreases |todo|
  {
    hide ActorHist, Letters, Act, Apart;
    assert a in past by { HistHere(q, st, past, a, todo); }
    if todo == [] {
      next := past;
      assert next == past[a := next[a]];
      assert Apart(st, st, a) by { ApartItself(st, a); }
    } else {
      var mid := Act(log, st, a, todo[0]);
      var grown: Past;
      if todo[0].Work? {
        WorkHistory(q, log, stim, st, past, a, todo);
        grown := past[a := past[a] + [DidWork]];
      } else {
        var env := SendHistory(q, log, stim, st, past, a, todo);
        grown := past[a := past[a] + [DidSend(env)]];
      }
      next := ActAllHistory(q, log, stim, mid, grown, a, todo[1..]);
      ApartTwice(st, mid, ActAll(log, st, a, todo), a);
    }
  }

  lemma ApartItself(st: State, a: Name)
    ensures Apart(st, st, a)
  {
    hide Project;
  }

  lemma HistHere(q: Program, st: State, past: Past, a: Name, todo: seq<Action>)
    requires ActorHist(q, st, past, a, todo)
    ensures a in past && a in st.actors && StampIn(st, a) == Stamps(a, past[a])
    ensures Behave(q, a, past[a]) == Some((st.actors[a], todo)) && Project(st.made, a) == EventsOf(a, past[a])
  {}

  ghost predicate StandsHist(q: Program, st: State, past: Past, started: set<Name>, a: Name) {
    if a in started then ActorHist(q, st, past, a, [])
    else a in past && past[a] == [] && Unstarted(q, st, a) && Project(st.made, a) == []
  }

  ghost predicate Hist(q: Program, stim: seq<Envelope>, st: State, past: Past, started: set<Name>) {
    && past.Keys == q.names == st.actors.Keys
    && Letters(past, stim, st)
    && forall a | a in q.names :: StandsHist(q, st, past, started, a)
  }

  lemma HistAfter(q: Program, stim: seq<Envelope>, st: State, after: State, past: Past, next: Past, S: set<Name>,
          a: Name)
    requires Hist(q, stim, st, past, S) && Apart(st, after, a) && a in q.names
    requires a in next && next == past[a := next[a]]
    requires ActorHist(q, after, next, a, []) && Letters(next, stim, after)
    ensures Hist(q, stim, after, next, S + {a})
  {
    hide Letters, Behave, Stamps, EventsOf, SendsIn, Project, SendCount;
    forall b | b in q.names ensures StandsHist(q, after, next, S + {a}, b) {
      if b != a { assert StandsHist(q, st, past, S, b) && next[b] == past[b]; }
    }
    assert next.Keys == past.Keys;
  }

  lemma HookHistory(q: Program, log: seq<CausalEvent>, stim: seq<Envelope>, st: State, past: Past, S: set<Name>,
          a: Name)
    returns (next: Past)
    requires Hist(q, stim, st, past, S) && a in q.names && a !in S && a in st.actors
    ensures Hist(q, stim, Drive(q, log, st, a, None), next, S + {a}) && OnlyCalls(past, next, a)
  {
    hide ActAll, Letters, ActorHist, Hist, OnlyCalls, Apart;
    HookBegins(q, stim, st, past, S, a);
    var (u, acts) := q.start(a, st.actors[a]);
    var mid := st.(actors := st.actors[a := u]);
    next := ActAllHistory(q, log, stim, mid, past, a, acts);
    var after := ActAll(log, mid, a, acts);
    ApartTwice(st, mid, after, a);
    HistAfter(q, stim, st, after, past, next, S, a) by { CallsShape(past, next, a); }
  }

  lemma CallsShape(past: Past, next: Past, a: Name)
    requires OnlyCalls(past, next, a)
    ensures a in next && next == past[a := next[a]]
  {}

  lemma HookBegins(q: Program, stim: seq<Envelope>, st: State, past: Past, S: set<Name>, a: Name)
    requires Hist(q, stim, st, past, S) && a in q.names && a !in S && a in st.actors
    ensures var (u, acts) := q.start(a, st.actors[a]);
      var mid := st.(actors := st.actors[a := u]);
      ActorHist(q, mid, past, a, acts) && Letters(past, stim, mid) && Apart(st, mid, a)
  {
    hide Letters, ActorHist, Apart, Unstarted, Project;
    var (u, acts) := q.start(a, st.actors[a]);
    assert StandsHist(q, st, past, S, a);
    UnstartedHist(q, st, past, a, u, acts);
    UserApart(st, a, u);
    SameLetters(past, stim, st, st.(actors := st.actors[a := u]));
  }

  lemma UnstartedHist(q: Program, st: State, past: Past, a: Name, u: UserState, acts: seq<Action>)
    requires a in past && past[a] == [] && Unstarted(q, st, a) && Project(st.made, a) == []
    requires (u, acts) == q.start(a, st.actors[a])
    ensures ActorHist(q, st.(actors := st.actors[a := u]), past, a, acts)
  {
    hide Project;
    assert StampIn(st.(actors := st.actors[a := u]), a) == ZERO;
  }

  lemma UserApart(st: State, a: Name, u: UserState)
    requires a in st.actors
    ensures Apart(st, st.(actors := st.actors[a := u]), a)
  {
    hide Project;
  }

  lemma SameLetters(past: Past, stim: seq<Envelope>, st: State, mid: State)
    requires Letters(past, stim, st) && mid.pending == st.pending
    ensures Letters(past, stim, mid)
  {
    hide IsSent;
  }

  lemma {:induction false} StartsHistory(q: Program, log: seq<CausalEvent>, stim: seq<Envelope>, st: State,
          past: Past, rest: set<Name>)
    returns (next: Past)
    requires rest <= q.names && rest <= st.actors.Keys && Hist(q, stim, st, past, q.names - rest)
    ensures Hist(q, stim, StartAll(q, log, st, rest), next, q.names)
    decreases |rest|
  {
    hide Hist, Drive, OnlyCalls;
    if rest == {} {
      assert q.names - rest == q.names;
      next := past;
    } else {
      var a := LeastName(rest);
      var mid := Drive(q, log, st, a, None);
      ActorsKept(q, log, st, a, None);
      var grown := HookHistory(q, log, stim, st, past, q.names - rest, a);
      assert q.names - rest + {a} == q.names - (rest - {a});
      next := StartsHistory(q, log, stim, mid, grown, rest - {a});
    }
  }

  /** An event takes its turn: a receive whose message is pending grows the history of
      its actor by that receive and the calls of its handler; nothing else grows any. */
  ghost predicate TakesTurn(st: State, past: Past, next: Past, ev: CausalEvent) {
    if ev.op == Recv && Key(ev).Some? && Key(ev).value in st.pending && ev.actor in past
    then
      OnlyCalls(past[ev.actor := past[ev.actor] + [DidRecv(st.pending[Key(ev).value])]], next, ev.actor)
    else next == past
  }

  lemma RecvHistory(q: Program, log: seq<CausalEvent>, stim: seq<Envelope>, st: State, past: Past, ev: CausalEvent)
    returns (next: Past)
    requires Hist(q, stim, st, past, q.names)
    ensures Hist(q, stim, ReplayRecv(q, log, st, ev), next, q.names) && TakesTurn(st, past, next, ev)
  {
    hide Hist, ActorHist, Letters, Verify, Drive, ParseMid, Mid, EventId, Merge, Increment, OnlyCalls, Project,
        RecvEvent, OnRecv;
    HistKeys(q, stim, st, past);
    var m := if ev.msgId.Some? then ParseMid(ev.msgId.value) else None;
    if ev.op != Recv || m.None? || m.value !in st.pending {
      next := past;
      SameHistory(q, stim, st, ReplayRecv(q, log, st, ev), past);
    } else {
      var a, env := ev.actor, st.pending[m.value];
      var s := OnRecv(StampIn(st, a), a, env.vclock, env.lamport);
      var e := RecvEvent(a, s, env);
      var open := st.(pending := st.pending - {m.value}, clocks := st.clocks[a := s]);
      var taken := Verify(log, open, e);
      VerifyKeeps(log, open, e);
      VerifyMakes(log, open, e);
      if a in taken.actors {
        next := TakeHistory(q, log, stim, st, past, a, m.value, taken);
      } else {
        next := past;
        StrangerTakes(q, stim, st, ReplayRecv(q, log, st, ev), past, a, m.value, e) by {
          RecvOwner(a, s, env);
          StrangerFrame(st, taken, a, s);
        }
      }
    }
  }

  lemma StrangerFrame(st: State, taken: State, a: Name, s: Stamp)
    requires taken.clocks == st.clocks[a := s] && taken.sends == st.sends
    ensures forall b | b != a :: StampIn(taken, b) == StampIn(st, b) && SendsIn(taken, b) == SendsIn(st, b)
  {}

  lemma RecvOwner(a: Name, s: Stamp, env: Envelope)
    ensures RecvEvent(a, s, env).actor == a
  {}

  lemma HistKeys(q: Program, stim: seq<Envelope>, st: State, past: Past)
    requires Hist(q, stim, st, past, q.names)
    ensures past.Keys == q.names == st.actors.Keys
  {}

  lemma SameHistory(q: Program, stim: seq<Envelope>, st: State, next: State, past: Past)
    requires Hist(q, stim, st, past, q.names) && next == st.(divergences := next.divergences)
    ensures Hist(q, stim, next, past, q.names)
  {
    hide IsSent, Behave, Stamps, EventsOf, Project, SendCount;
    forall a | a in q.names ensures StandsHist(q, next, past, q.names, a) {
      assert StandsHist(q, st, past, q.names, a);
    }
  }

  /** A message taken for an actor that the code does not have is gone, and that is all. */
  lemma StrangerTakes(q: Program, stim: seq<Envelope>, st: State, next: State, past: Past, a: Name, m: nat,
          e: CausalEvent)
    requires Hist(q, stim, st, past, q.names) && a !in st.actors && e.actor == a
    requires next.pending == st.pending - {m} && next.actors == st.actors && next.made == st.made + [e]
    requires forall b | b != a :: StampIn(next, b) == StampIn(st, b) && SendsIn(next, b) == SendsIn(st, b)
    ensures Hist(q, stim, next, past, q.names)
  {
    hide IsSent, Behave, Stamps, EventsOf, Project, SendCount, StampIn, SendsIn;
    forall b | b in q.names ensures StandsHist(q, next, past, q.names, b) {
      assert StandsHist(q, st, past, q.names, b);
      ProjectAppend(st.made, e, b);
    }
  }

  lemma TakeHistory(q: Program, log: seq<CausalEvent>, stim: seq<Envelope>, st: State, past: Past, a: Name, m: nat,
          taken: State)
    returns (next: Past)
    requires Hist(q, stim, st, past, q.names) && a in st.actors && m in st.pending
    requires var env := st.pending[m];
      var s := OnRecv(StampIn(st, a), a, env.vclock, env.lamport);
      && taken == st.(pending := st.pending - {m}, clocks := st.clocks[a := s], produced := taken.produced,
          made := st.made + [RecvEvent(a, s, env)], divergences := taken.divergences)
    ensures Hist(q, stim, Drive(q, log, taken, a, Some(st.pending[m].msg)), next, q.names)
    ensures a in past && OnlyCalls(past[a := past[a] + [DidRecv(st.pending[m])]], next, a)
  {
    hide Hist, ActAll, Letters, ActorHist, RecvEvent, OnRecv, Apart, StampIn, Project;
    HistParts(q, stim, st, past, a);
    var env := st.pending[m];
    var (u, acts) := q.handle(a, st.actors[a], env.msg);
    var mid := taken.(actors := taken.actors[a := u]);
    var grown := past[a := past[a] + [DidRecv(env)]];
    TakenHistory(q, stim, st, mid, past, a, m, acts);
    next := ActAllHistory(q, log, stim, mid, grown, a, acts);
    var after := ActAll(log, mid, a, acts);
    ApartTwice(st, mid, after, a);
    assert next == past[a := next[a]];
    HistAfter(q, stim, st, after, past, next, q.names, a);
    assert q.names + {a} == q.names;
  }

  lemma HistParts(q: Program, stim: seq<Envelope>, st: State, past: Past, a: Name)
    requires Hist(q, stim, st, past, q.names) && a in st.actors
    ensures a in q.names && a in past && Letters(past, stim, st) && ActorHist(q, st, past, a, [])
  {
    hide Letters, ActorHist;
    assert StandsHist(q, st, past, q.names, a);
  }

  /** The receive itself. */
  lemma TakenHistory(q: Program, stim: seq<Envelope>, st: State, mid: State, past: Past, a: Name, m: nat,
          acts: seq<Action>)
    requires ActorHist(q, st, past, a, []) && Letters(past, stim, st) && a in st.actors && m in st.pending
        && a in past
    requires var env := st.pending[m];
      var s := OnRecv(StampIn(st, a), a, env.vclock, env.lamport);
      && mid == st.(pending := st.pending - {m}, clocks := st.clocks[a := s], produced := mid.produced,
          made := st.made + [RecvEvent(a, s, env)], actors := mid.actors, divergences := mid.divergences)
      && a in mid.actors && q.handle(a, st.actors[a], env.msg) == (mid.actors[a], acts)
      && mid.actors == st.actors[a := mid.actors[a]]
    ensures var grown := past[a := past[a] + [DidRecv(st.pending[m])]];
      ActorHist(q, mid, grown, a, acts) && Letters(grown, stim, mid) && Apart(st, mid, a)
  {
    hide Letters, IsSent, Behave, Stamps, EventsOf, ActorHist, EventId, Mid, Merge, Increment, Project;
    var env := st.pending[m];
    var grown := past[a := past[a] + [DidRecv(env)]];
    HistHere(q, st, past, a, []);
    HistGrows(q, st, mid, past, grown, a, [], acts, DidRecv(env));
    PendingSent(past, stim, st, m);
    LettersGrow(past, grown, stim, st, mid, a, DidRecv(env));
  }

  lemma PendingSent(past: Past, stim: seq<Envelope>, st: State, m: nat)
    requires Letters(past, stim, st) && m in st.pending
    ensures IsSent(past, stim, st.pending[m])
  {}

  lemma {:induction false} RecvsHistory(q: Program, log: seq<CausalEvent>, stim: seq<Envelope>, st: State, past: Past,
          tl: seq<CausalEvent>)
    returns (next: Past)
    requires Hist(q, stim, st, past, q.names)
    ensures Hist(q, stim, ReplayAll(q, log, st, tl), next, q.names)
  {
    hide Hist, ReplayRecv, TakesTurn;
    if tl == [] {
      next := past;
    } else {
      var grown := RecvsHistory(q, log, stim, st, past, tl[..|tl| - 1]);
      next := RecvHistory(q, log, stim, ReplayAll(q, log, st, tl[..|tl| - 1]), grown, tl[|tl| - 1]);
    }
  }

  function NoPast(q: Program): Past { map a | a in q.names :: [] }

  // ----------------------------------------------------------------- the stimuli

  /** The `k`-th recorded stimulus has a number that can be read, and was supplied. */
  ghost predicate Fills(wes: seq<CausalEvent>, origins: seq<(Name, Payload)>, k: nat, m: nat) {
    k < |wes| && k < |origins| && Key(wes[k]) == Some(m)
  }

  /** `env` is the `k`-th supplied stimulus, stamped as the `k`-th one was recorded. */
  ghost predicate SuppliedAt(wes: seq<CausalEvent>, origins: seq<(Name, Payload)>, k: nat, env: Envelope) {
    && Fills(wes, origins, k, env.msgId)
    && env.msg == origins[k].1 && env.dst == origins[k].0 && env.src == WORLD
    && env.vclock == VclockFrom(wes[k].vclock) && env.lamport == wes[k].lamport
  }

  ghost predicate FilledLast(wes: seq<CausalEvent>, origins: seq<(Name, Payload)>, k: nat, m: nat) {
    Fills(wes, origins, k, m) && forall l: nat | k < l :: !Fills(wes, origins, l, m)
  }

  lemma FillsFront(wes: seq<CausalEvent>, origins: seq<(Name, Payload)>, k: nat, m: nat)
    requires wes != []
    ensures var n := |wes| - 1;
      Fills(wes, origins, k, m) <==>
      Fills(wes[..n], origins, k, m) || (k == n && n < |origins| && Key(wes[n]) == Some(m))
  {
    hide Key;
  }

  /** Recorded and supplied stimuli are matched by position. */
  lemma {:induction false} SeedsByPosition(st: State, wes: seq<CausalEvent>, origins: seq<(Name, Payload)>, m: nat)
    requires st.pending == map[]
    ensures var r := SeedAll(st, wes, origins);
      if m in r.pending
      then exists k: nat :: FilledLast(wes, origins, k, m) && SuppliedAt(wes, origins, k, r.pending[m])
      else forall k: nat :: !Fills(wes, origins, k, m)
  {
    hide ParseMid, VclockFrom;
    if wes != [] {
      var n := |wes| - 1;
      SeedsByPosition(st, wes[..n], origins, m);
      var front := SeedAll(st, wes[..n], origins);
      var r := SeedOne(front, wes[n], origins, n);
      forall k: nat ensures Fills(wes, origins, k, m) <==>
          Fills(wes[..n], origins, k, m) || (k == n && n < |origins| && Key(wes[n]) == Some(m))
      {
        FillsFront(wes, origins, k, m);
      }
      if n < |origins| && Key(wes[n]) == Some(m) {
        assert FilledLast(wes, origins, n, m) && SuppliedAt(wes, origins, n, r.pending[m]);
      } else if m in front.pending {
        var k: nat :| FilledLast(wes[..n], origins, k, m) && SuppliedAt(wes[..n], origins, k, front.pending[m]);
        assert r.pending[m] == front.pending[m];
        assert FilledLast(wes, origins, k, m) && SuppliedAt(wes, origins, k, r.pending[m]);
      }
    }
  }

  lemma {:induction false} ListValues(pending: map<nat, Envelope>) returns (stim: seq<Envelope>)
    ensures forall env :: env in stim <==> env in pending.Values
    decreases |pending|
  {
    if pending == map[] {
      stim := [];
    } else {
      var m :| m in pending;
      var rest := pending - {m};
      assert pending == rest[m := pending[m]];
      stim := ListValues(rest);
      stim := stim + [pending[m]];
    }
  }

  /** Replay is an execution: on any log, by any code, in any order, each actor of the
      code has re-executed a history its code can have, from the messages it received to
      the last call of every handler; its state, stamp, send count and events are those
      of that history; and whatever it received had been sent by one of these histories
      or supplied for the recorded stimulus it stands for. */
  lemma ReplayIsExecution(q: Program, log: seq<CausalEvent>, tl: seq<CausalEvent>, origins: seq<(Name, Payload)>)
    returns (past: Past, stim: seq<Envelope>)
    ensures Hist(q, stim, Replay(q, log, tl, origins), past, q.names)
    ensures forall env | env in stim :: exists k: nat :: SuppliedAt(EmitsOf(log, WORLD), origins, k, env)
  {
    hide Hist, SeedAll, StartAll, ReplayAll, Complete, EmitsOf, SuppliedAt;
    var wes := EmitsOf(log, WORLD);
    var st0 := SeedAll(Start(q), wes, origins);
    SeedKeepsActors(Start(q), wes, origins);
    stim := ListValues(st0.pending);
    forall env | env in stim ensures exists k: nat :: SuppliedAt(wes, origins, k, env) {
      var m :| m in st0.pending && st0.pending[m] == env;
      SeedsByPosition(Start(q), wes, origins, m);
    }
    SeedsStart(q, stim, wes, origins);
    assert q.names - q.names == {};
    var st1 := StartAll(q, log, st0, q.names);
    past := StartsHistory(q, log, stim, st0, NoPast(q), q.names);
    past := RecvsHistory(q, log, stim, st1, past, tl);
    var st2 := ReplayAll(q, log, st1, tl);
    CompleteKeeps(st2, log);
    SameHistory(q, stim, st2, Complete(st2, log), past);
  }

  lemma SeedsStart(q: Program, stim: seq<Envelope>, wes: seq<CausalEvent>, origins: seq<(Name, Payload)>)
    requires var st := SeedAll(Start(q), wes, origins); forall m | m in st.pending :: st.pending[m] in stim
    ensures Hist(q, stim, SeedAll(Start(q), wes, origins), NoPast(q), {})
  {
    SeedFrame(Start(q), wes, origins);
  }

  lemma {:induction false} SeedFrame(st: State, wes: seq<CausalEvent>, origins: seq<(Name, Payload)>)
    ensures var r := SeedAll(st, wes, origins);
      r.actors == st.actors && r.clocks == st.clocks && r.sends == st.sends && r.made == st.made
  {
    hide ParseMid, VclockFrom;
    if wes != [] { SeedFrame(st, wes[..|wes| - 1], origins); }
  }
}
