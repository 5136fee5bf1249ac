/** The replay harness: one object whose maps and lists are updated in place by the
    driver loops and by the handlers' backend (reexec.rs).
    `View` is its value; every method is proved to compute a function of `Replays`. */
module Replayer {
  import opened Names
  import opened Clocks
  import opened Events
  import opened Posets
  import opened Extensions
  import opened Engine
  import R = Replays

  /** The index over the recorded log: events by id, and each actor's emits by
      sequence number. */
  class RecordedIndex {
    const log: seq<CausalEvent>
    var byId: map<string, CausalEvent>
    var emitsByActor: map<Name, seq<CausalEvent>>

    ghost predicate Valid()
      reads this
    {
      && byId == R.ById(log)
      && forall a :: ListsEmits(a)
    }

    ghost predicate ListsEmits(a: Name)
      reads this
    {
      if R.EmitsOf(log, a) == [] then a !in emitsByActor
      else a in emitsByActor && emitsByActor[a] == R.EmitsOf(log, a)
    }

    constructor (log: seq<CausalEvent>)
      ensures Valid() && this.log == log
    {
      hide R.EmitsBelow, LinesSoFar, R.EmitsOf;
      this.log := log;
      byId, emitsByActor := map[], map[];
      new;
      var lines: map<Name, seq<nat>> := map[];
      NoLinesYet(log);
      for i := 0 to |log|
        invariant byId == R.ById(log[..i]) && emitsByActor == map[]
        invariant LinesSoFar(log, i, lines)
      {
        var e := log[i];
        assert log[..i + 1][..i] == log[..i];
        byId := byId[e.id := e];
        LinesGrow(log, i, lines);
        if e.op == Emit {
          lines := lines[e.actor := (if e.actor in lines then lines[e.actor] else []) + [i]];
        }
      }
      assert log[..|log|] == log;
      SortLines(lines);
    }

    method SortLines(lines: map<Name, seq<nat>>)
      requires byId == R.ById(log) && emitsByActor == map[]
      requires LinesSoFar(log, |log|, lines)
      modifies this`emitsByActor
      ensures Valid()
    {
      hide R.ById, R.EmitsBelow, SortBySeq, StrictlySorted, R.EmitsOf;
      var ks := SortedKeys(lines.Keys);
      for i := 0 to |ks|
        invariant forall k :: k in emitsByActor <==> k in ks[..i]
        invariant forall k | k in emitsByActor :: emitsByActor[k] == R.EmitsOf(log, k)
      {
        assert ks[i] in ks && LineSoFar(log, |log|, lines, ks[i]);
        LineIsEmits(log, lines, ks[i]);
        emitsByActor := emitsByActor[ks[i] := Timeline(log, SortBySeq(log, lines[ks[i]]))];
      }
      assert ks[..|ks|] == ks;
      forall a ensures ListsEmits(a) {
        assert LineSoFar(log, |log|, lines, a);
        LineIsEmits(log, lines, a);
      }
    }
  }

  /** `lines` holds the positions of `a`'s emits among the first `n` events. */
  ghost predicate LineSoFar(log: seq<CausalEvent>, n: nat, lines: map<Name, seq<nat>>, a: Name)
    requires n <= |log|
  {
    if R.EmitsBelow(log, n, a) == [] then a !in lines
    else a in lines && lines[a] == R.EmitsBelow(log, n, a)
  }

  ghost predicate LinesSoFar(log: seq<CausalEvent>, n: nat, lines: map<Name, seq<nat>>)
    requires n <= |log|
  {
    forall a :: LineSoFar(log, n, lines, a)
  }

  lemma NoLinesYet(log: seq<CausalEvent>)
    ensures LinesSoFar(log, 0, map[])
  {}

  lemma LinesGrow(log: seq<CausalEvent>, i: nat, lines: map<Name, seq<nat>>)
    requires i < |log| && LinesSoFar(log, i, lines)
    ensures var e := log[i];
      LinesSoFar(log, i + 1,
                 if e.op == Emit then lines[e.actor := (if e.actor in lines then lines[e.actor] else []) + [i]]
                     else lines)
  {
    var e := log[i];
    var after := if e.op == Emit then lines[e.actor := (if e.actor in lines then lines[e.actor] else []) + [i]]
        else lines;
    var n := i + 1;
    forall a: Name ensures LineSoFar(log, n, after, a) { assert LineSoFar(log, i, lines, a); }
  }

  lemma LineIsEmits(log: seq<CausalEvent>, lines: map<Name, seq<nat>>, a: Name)
    requires LineSoFar(log, |log|, lines, a)
    ensures a in lines <==> R.EmitsOf(log, a) != []
    ensures a in lines ==> Positions(log, lines[a]) && Timeline(log, SortBySeq(log, lines[a])) == R.EmitsOf(log, a)
  {
    hide SortBySeq, R.EmitsBelow;
    var s := R.EmitPositions(log, a);
    assert |multiset(SortBySeq(log, s))| == |multiset(s)|;
  }

  /** The outcome of a replay. */
  datatype Outcome = Outcome(replayed: Replayed, divergences: seq<R.Divergence>)
  {
    predicate IsFaithful() { divergences == [] }
  }

  class ReplaySystem {
    const program: Program
    const recorded: RecordedIndex
    var actors: map<Name, UserState>
    var clocks: map<Name, Stamp>
    var pending: map<nat, Envelope>
    var sendCount: map<Name, nat>
    var divergences: seq<R.Divergence>
    var produced: set<string>
    ghost var made: seq<CausalEvent>

    ghost function View(): R.State
      reads this
    {
      R.State(actors, clocks, pending, sendCount, divergences, produced, made)
    }

    constructor (program: Program, recorded: RecordedIndex)
      ensures View() == R.Start(program) && this.program == program && this.recorded == recorded
    {
      this.program, this.recorded := program, recorded;
      actors := map a | a in program.names :: program.init(a);
      clocks := map a | a in program.names :: ZERO;
      pending, sendCount, divergences, produced, made := map[], map[], [], {}, [];
    }

    // ------------------------------------------------ the handlers' backend

    method NextMsgId(current: Name) returns (id: nat)
      requires recorded.Valid()
      modifies this`sendCount, this`divergences
      ensures (View(), id) == R.NextMsgId(recorded.log, old(View()), current)
    {
      hide R.ById, R.EmitsOf, ParseMid;
      var j := (if current in sendCount then sendCount[current] else 0) + 1;
      sendCount := sendCount[current := j];
      assert recorded.ListsEmits(current);
      var found: Option<nat> := None;
      if current in recorded.emitsByActor && j <= |recorded.emitsByActor[current]| {
        var mid := recorded.emitsByActor[current][j - 1].msgId;
        if mid.Some? { found := ParseMid(mid.value); }
      }
      assert found == R.RecordedId(recorded.log, current, j);
      if found.Some? {
        id := found.value;
      } else {
        divergences := divergences + [R.Divergence(R.SendLabel(current, j), R.TooManySends)];
        id := R.Sentinel(j);
      }
    }

    method Record(e: CausalEvent)
      requires recorded.Valid()
      modifies this`produced, this`divergences, this`made
      ensures View() == R.Verify(recorded.log, old(View()), e)
    {
      hide R.ById, R.EmitsOf;
      produced, made := produced + {e.id}, made + [e];
      if e.id !in recorded.byId {
        divergences := divergences + [R.Divergence(e.id, R.NoCounterpart)];
      } else if recorded.byId[e.id] != e {
        divergences := divergences + [R.Divergence(e.id, R.Differs)];
      }
    }

    method Stash(env: Envelope)
      modifies this`pending
      ensures View() == R.Stash(old(View()), env)
    {
      pending := pending[env.msgId := env];
    }

    /** `Context::send` or `Context::compute` over this backend: the clock moves
        first, then a send draws its id, is recorded, and is stashed. */
    method Perform(a: Name, act: Action)
      requires recorded.Valid()
      modifies this
      ensures View() == R.Act(recorded.log, old(View()), a, act)
    {
      hide R.Verify, R.NextMsgId, R.ById, R.EmitsOf, Increment, EventId, Mid;
      ghost var before := View();
      var s := OnLocal(if a in clocks then clocks[a] else ZERO, a);
      clocks := clocks[a := s];
      match act {
        case Work =>
          Record(ComputeEvent(a, s));
          VerifyIgnoresClocks(recorded.log, before, clocks, ComputeEvent(a, s));
        case Send(dst, msg) =>
          var id := NextMsgId(a);
          var env := Outgoing(a, s, id, dst, msg);
          Record(EmitEvent(a, s.seqNo, env));
          Stash(env);
          NextMsgIdIgnoresClocks(recorded.log, before, clocks, a);
          VerifyIgnoresClocks(recorded.log, R.NextMsgId(recorded.log, before, a).0, clocks, EmitEvent(a, s.seqNo, env));
      }
    }

    /** Run one actor's hook or one handler. */
    method Drive(a: Name, msg: Option<Payload>)
      requires recorded.Valid() && a in actors
      modifies this
      ensures View() == R.Drive(program, recorded.log, old(View()), a, msg)
    {
      hide R.Act, R.ById, R.EmitsOf;
      var (u, acts) := match msg
                       case None => program.start(a, actors[a])
                       case Some(m) => program.handle(a, actors[a], m);
      actors := actors[a := u];
      ghost var driven := View();
      for i := 0 to |acts|
        invariant R.ActAll(recorded.log, View(), a, acts[i..]) == R.ActAll(recorded.log, driven, a, acts)
      {
        assert acts[i..][0] == acts[i] && acts[i..][1..] == acts[i + 1..];
        Perform(a, acts[i]);
      }
    }

    // ------------------------------------------------------------ the driver

    method SeedOrigins(origins: seq<(Name, Payload)>)
      requires recorded.Valid()
      modifies this`pending, this`produced, this`divergences
      ensures View() == R.SeedAll(old(View()), R.EmitsOf(recorded.log, WORLD), origins)
    {
      hide R.ById, R.EmitsOf, ParseMid;
      assert recorded.ListsEmits(WORLD);
      var worldEmits := if WORLD in recorded.emitsByActor then recorded.emitsByActor[WORLD] else [];
      ghost var before := View();
      for k := 0 to |worldEmits|
        invariant View() == R.SeedAll(before, worldEmits[..k], origins)
      {
        assert worldEmits[..k + 1][..k] == worldEmits[..k];
        var we := worldEmits[k];
        var m := if we.msgId.Some? then ParseMid(we.msgId.value) else None;
        if m.None? {
          divergences := divergences + [R.Divergence(we.id, R.BadOriginId)];
        } else if k >= |origins| {
          divergences := divergences + [R.Divergence(we.id, R.OriginNotSupplied)];
        } else {
          var wire := FromWire(we.vclock);
          produced := produced + {we.id};
          pending := pending[m.value := Envelope(origins[k].1, wire.entries, we.lamport, m.value, WORLD, origins[k].0)];
        }
      }
      assert worldEmits[..|worldEmits|] == worldEmits;
    }

    /** The `started` pass, in name order. */
    method RunStarted()
      requires recorded.Valid()
      modifies this
      ensures View() == R.StartAll(program, recorded.log, old(View()), old(actors.Keys))
    {
      hide R.Drive, R.ById, R.EmitsOf;
      ghost var before, rest := View(), actors.Keys;
      var names := SortedKeys(actors.Keys);
      DistinctWhenSorted(names);
      for i := 0 to |names|
        invariant rest <= actors.Keys == before.actors.Keys
        invariant forall k :: 0 <= k < |names| ==> (names[k] in rest <==> i <= k)
        invariant forall a :: a in rest ==> a in names
        invariant R.StartAll(program, recorded.log, View(), rest) == R.StartAll(program, recorded.log, before,
            before.actors.Keys)
      {
        assert names[i] in names;
        NextInOrder(names, i, rest);
        R.ActorsKept(program, recorded.log, View(), names[i], None);
        Drive(names[i], None);
        rest := rest - {names[i]};
      }
      assert rest == {};
    }

    /** The canonical timeline: each receive takes its message and drives a handler. */
    method Walk(timeline: seq<CausalEvent>)
      requires recorded.Valid()
      modifies this
      ensures View() == R.ReplayAll(program, recorded.log, old(View()), timeline)
    {
      hide R.ReplayRecv, R.ById, R.EmitsOf;
      ghost var before := View();
      for i := 0 to |timeline|
        invariant View() == R.ReplayAll(program, recorded.log, before, timeline[..i])
      {
        assert timeline[..i + 1][..i] == timeline[..i];
        WalkOne(timeline[i]);
      }
      assert timeline[..|timeline|] == timeline;
    }

    method WalkOne(ev: CausalEvent)
      requires recorded.Valid()
      modifies this
      ensures View() == R.ReplayRecv(program, recorded.log, old(View()), ev)
    {
      hide R.Drive, R.Verify, R.ById, R.EmitsOf, ParseMid, Merge, Increment, EventId, Mid;
      if ev.op != Recv {
        return;
      }
      var m := if ev.msgId.Some? then ParseMid(ev.msgId.value) else None;
      if m.None? {
        divergences := divergences + [R.Divergence(ev.id, R.NoMessageId)];
        return;
      }
      if m.value !in pending {
        divergences := divergences + [R.Divergence(ev.id, R.NoMessage)];
        return;
      }
      var a, env := ev.actor, pending[m.value];
      var s := OnRecv(if a in clocks then clocks[a] else ZERO, a, env.vclock, env.lamport);
      pending := pending - {m.value};
      clocks := clocks[a := s];
      Record(RecvEvent(a, s, env));
      if a !in actors {
        divergences := divergences + [R.Divergence(ev.id, R.ActorNotRebuilt)];
        return;
      }
      Drive(a, Some(env.msg));
    }

    /** Completeness: every recorded event must have been produced. */
    method CheckComplete()
      modifies this`divergences
      ensures View() == R.Complete(old(View()), recorded.log)
    {
      ghost var before := View();
      for i := 0 to |recorded.log|
        invariant View() == R.Complete(before, recorded.log[..i])
        invariant produced == before.produced
      {
        assert recorded.log[..i + 1][..i] == recorded.log[..i];
        if recorded.log[i].id !in produced {
          divergences := divergences + [R.Divergence(recorded.log[i].id, R.NotReproduced)];
        }
      }
      assert recorded.log[..|recorded.log|] == recorded.log;
    }
  }

  lemma VerifyIgnoresClocks(log: seq<CausalEvent>, st: R.State, clocks: map<Name, Stamp>, e: CausalEvent)
    ensures R.Verify(log, st.(clocks := clocks), e) == R.Verify(log, st, e).(clocks := clocks)
  {
    hide R.ById;
  }

  lemma NextMsgIdIgnoresClocks(log: seq<CausalEvent>, st: R.State, clocks: map<Name, Stamp>, a: Name)
    ensures var (before, after) := (R.NextMsgId(log, st, a), R.NextMsgId(log, st.(clocks := clocks), a));
      after.0 == before.0.(clocks := clocks) && after.1 == before.1
  {
    hide R.RecordedId, R.SendLabel;
  }

  lemma NextInOrder(names: seq<Name>, i: nat, rest: set<Name>)
    requires StrictlySorted(names) && i < |names|
    requires forall k :: 0 <= k < |names| ==> (names[k] in rest <==> i <= k)
    requires forall a :: a in rest ==> a in names
    ensures rest != {} && LeastName(rest) == names[i]
  {
    assert names[i] in rest;
    assert IsLeastName(names[i], rest);
    LeastNameUnique(names[i], LeastName(rest), rest);
  }

  /** `ReplaySystem::replay`: refuse what the offline engine refuses; otherwise drive
      the canonical timeline and report exactly the divergences of `Replays.Replay`. */
  method ReplayRun(p: Program, log: seq<CausalEvent>, origins: seq<(Name, Payload)>)
    returns (r: Result<Outcome>, ghost order: seq<nat>, ghost edges: seq<(nat, nat)>, ghost pairs: seq<(nat, nat)>,
            ghost final: R.State)
    ensures r.Ok? <==> Accepted(log)
    ensures r.Err? ==> !r.error.Cycle?
    ensures r.Err? && !Buildable(log) ==> Complaint(log, r.error)
    ensures r.Err? && Buildable(log) ==> ListsEdges(log, edges) && Refutes(log, edges, r.error)
    ensures r.Ok? ==> IsReplay(log, order, edges, pairs, r.value.replayed) && Reads(log, r.value.replayed)
                      && final == R.Replay(p, log, Timeline(log, order), origins)
                      && r.value.divergences == final.divergences
  {
    hide Accepted, Buildable, Complaint, IsCanonical, LogEdges, ListsEdges, ListsSpacelike, Reads, R.SeedAll,
        R.StartAll, R.ReplayAll, R.Complete, R.ById, R.EmitsOf;
    var engine;
    engine, order, edges, pairs := ReplayLog(log);
    final := R.Start(p);
    if engine.Err? {
      return Err(engine.error), order, edges, pairs, final;
    }
    var index := new RecordedIndex(log);
    var sys := new ReplaySystem(p, index);
    assert R.Start(p).actors.Keys == p.names;
    R.SeedKeepsActors(R.Start(p), R.EmitsOf(log, WORLD), origins);
    sys.SeedOrigins(origins);
    sys.RunStarted();
    sys.Walk(engine.value.timeline);
    sys.CheckComplete();
    final := sys.View();
    r := Ok(Outcome(engine.value, sys.divergences));
  }
}
