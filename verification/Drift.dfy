/** Replaying a recorded log with other code: the replay is faithful exactly when local
    histories of that code explain the log, actor by actor. That the histories make up
    a run of the recorder is shown in `Lockstep`. */
module Drift {
  import opened Names
  import opened Clocks
  import opened Events
  import opened Logs
  import opened Recorder
  import opened Traces
  import opened Recordings
  import opened Posets
  import opened Extensions
  import opened Engine
  import opened Replays
  import opened Recall
  import opened Simulation
  import opened Fidelity
  import opened Verdict
  import opened Histories

  /** `past` explains `log` by local histories of `q`: every actor's history is one its
      code can have, with nothing left undone; it leaves exactly the actor's events; and
      every message received is one that was sent, payload included. */
  ghost predicate Explains(q: Program, log: seq<CausalEvent>, stim: seq<Envelope>, past: Past) {
    && past.Keys == q.names
    && (forall a | a in q.names ::
          EventsOf(a, past[a]) == Project(log, a) && Behave(q, a, past[a]).Some? && Behave(q, a, past[a]).value.1 == [])
    && (forall a, x: nat | a in q.names && x < |past[a]| && past[a][x].DidRecv? :: IsSent(past, stim, past[a][x].env))
  }

  // ------------------------------------------------------------- stimuli

  /** The stimuli of `w` with payloads of the caller's choosing. */
  ghost predicate Restimulates(w: World, stim: seq<Envelope>) {
    |stim| == |w.origins| && forall i | 0 <= i < |stim| :: stim[i] == w.origins[i].(msg := stim[i].msg)
  }

  function SuppliedAs(w: World, stim: seq<Envelope>): seq<(Name, Payload)> { Supplied(w.(origins := stim)) }

  lemma SeedsAs(p: Program, w: World, st: State, stim: seq<Envelope>)
    requires Recording(p, w) && |w.origins| == 1 && Restimulates(w, stim)
    ensures SeedOne(st, EmitEvent(WORLD, 1, w.origins[0]), SuppliedAs(w, stim), 0)
            == st.(produced := st.produced + {EventId(WORLD, 1)}, pending := st.pending[stim[0].msgId := stim[0]])
  {
    hide EventId, TasksOk, LogOk, WellStamped, Mid, ParseMid, MessagesOk, IdsOk, VclockFrom, FitsWidth;
    var env := w.origins[0];
    assert OriginMsgs(p, w) by { MessagesParts(p, w); }
    assert IsOrigin(p, env) && w.sentAt[env.msgId] == (WORLD, 0);
    SentFits(p, w, env);
    ParseMidRoundTrip(env.msgId);
    WireRoundTrip(env.vclock);
    assert Canonical(env.vclock);
  }

  lemma SeedsHistory(p: Program, w: World, q: Program, stim: seq<Envelope>)
    requires Recording(p, w) && Restimulates(w, stim)
    ensures Hist(q, stim, SeedAll(Start(q), EmitsOf(w.log, WORLD), SuppliedAs(w, stim)), NoPast(q), {})
  {
    hide EventId, Mid, ParseMid, EmitEvent, EmitsOf, Recording, SeedOne;
    WorldRecalled(p, w);
    var es := OriginEvents(w.origins);
    assert |w.origins| <= 1 by { FewOrigins(p, w); }
    if es != [] {
      assert es == [es[0]] && es[..0] == [];
      SeedsAs(p, w, Start(q), stim);
      assert SeedAll(Start(q), es[..0], SuppliedAs(w, stim)) == Start(q);
    }
  }

  lemma FewOrigins(p: Program, w: World)
    requires Recording(p, w)
    ensures |w.origins| <= 1
  {}

  // --------------------------------------- from a faithful replay to a history

  lemma RecordedHere(p: Program, w: World, past: Past, a: Name, x: nat)
    requires Recording(p, w) && a in p.names && a in past && x < |past[a]|
    requires IsRecorded(w.log, EventsOf(a, past[a])[x])
    ensures a in w.tasks && x < |Trace(w, a)| && EventsOf(a, past[a])[x] == EventsOf(a, Trace(w, a))[x]
  {
    hide ById, EventsOf, EventId, TasksOk, MessagesOk, LogOk, WellStamped, DistinctIds;
    var e := EventsOf(a, past[a])[x];
    EventsAt(a, past[a], x);
    var i := RecordedIn(w.log, e);
    var z := EntryOf(p, w, i);
  }

  /** What was re-executed without complaint is recorded. */
  lemma HistoryRecorded(q: Program, log: seq<CausalEvent>, r: State, past: Past, a: Name, x: nat)
    requires Judged(q, log, r) && ActorHist(q, r, past, a, []) && x < |past[a]|
    ensures IsRecorded(log, EventsOf(a, past[a])[x])
  {
    hide EventsOf, EventId, IsRecorded, EmitCount, SendsIn, Cut, Behave, Stamps, SendCount, Project;
    var e := EventsOf(a, past[a])[x];
    assert e in Project(r.made, a);
    var k :| 0 <= k < |r.made| && r.made[k] == e;
    assert MadeOk(q, log, r, r.made[k]);
  }

  lemma HistoryIsShare(p: Program, w: World, q: Program, r: State, past: Past, a: Name)
    requires Recording(p, w) && q.names == p.names && a in p.names && WORLD !in q.names
    requires Judged(q, w.log, r) && ActorHist(q, r, past, a, [])
    requires forall i | 0 <= i < |w.log| :: w.log[i].id in r.produced
    ensures EventsOf(a, past[a]) == Project(w.log, a)
  {
    hide IsRecorded, EventsOf, EventId, TasksOk, MessagesOk, WellStamped, DistinctIds, Behave, Stamps, Judged,
        IsStimulus, Project;
    forall x: nat | x < |past[a]|
      ensures x < |Trace(w, a)| && EventsOf(a, past[a])[x] == EventsOf(a, Trace(w, a))[x]
    {
      HistoryRecorded(q, w.log, r, past, a, x);
      RecordedHere(p, w, past, a, x);
    }
    var n := |past[a]|;
    if n > 0 {
      HistoryRecorded(q, w.log, r, past, a, n - 1);
      RecordedHere(p, w, past, a, n - 1);
    }
    if n < |Trace(w, a)| {
      var i := PositionOf(p, w, a, n);
      NotAStimulus(p, w, i);
      StampedIdsDistinct(w.log);
      RecordedIsMade(q, w.log, r, i);
      StampsCount(a, past[a]);
      MadeBounded(q, w.log, r, w.log[i]);
      assert false;
    }
    assert EventsOf(a, past[a]) == EventsOf(a, Trace(w, a));
  }

  lemma NotAStimulus(p: Program, w: World, i: nat)
    requires Recording(p, w) && i < |w.log| && w.log[i].actor in p.names
    ensures !IsStimulus(w.log[i])
  {
    hide Inv;
  }

  lemma MadeBounded(q: Program, log: seq<CausalEvent>, st: State, e: CausalEvent)
    requires Judged(q, log, st) && e in st.made
    ensures e.seqNo <= Cut(st, e.actor)
  {
    hide EventId, IsRecorded, EmitCount, SendsIn, Cut;
    var k :| 0 <= k < |st.made| && st.made[k] == e;
    assert MadeOk(q, log, st, st.made[k]);
  }

  /** A faithful replay by any code exhibits local histories of that code that explain
      the recorded log, whatever the timeline. */
  lemma FaithfulHasHistory(p: Program, w: World, q: Program, stim: seq<Envelope>, tl: seq<CausalEvent>)
          returns (past: Past)
    requires Recording(p, w) && Restimulates(w, stim) && q.names == p.names
    requires Replay(q, w.log, tl, SuppliedAs(w, stim)).divergences == []
    ensures Explains(q, w.log, stim, past)
  {
    hide Recording, Hist, SeedAll, StartAll, ReplayAll, EmitsOf, Judged, SuppliedAs;
    assert WORLD !in q.names by { Reserved(p, w); }
    var sup := SuppliedAs(w, stim);
    var wes := EmitsOf(w.log, WORLD);
    var st0 := SeedAll(Start(q), wes, sup);
    SeedKeepsActors(Start(q), wes, sup);
    var st1 := StartAll(q, w.log, st0, q.names);
    var st2 := ReplayAll(q, w.log, st1, tl);
    CompleteKeeps(st2, w.log);
    DeliverAllKeeps(q, w.log, st1, tl);
    StartAllKeeps(q, w.log, st0, q.names);
    assert Complete(st2, w.log) == st2;
    ReplaySound(q, w.log, tl, sup);
    SeedsHistory(p, w, q, stim);
    assert q.names - q.names == {};
    past := StartsHistory(q, w.log, stim, st0, NoPast(q), q.names);
    past := RecvsHistory(q, w.log, stim, st1, past, tl);
    HistoryExplains(p, w, q, stim, st2, past);
  }

  lemma Reserved(p: Program, w: World)
    requires Recording(p, w)
    ensures WORLD !in p.names
  {
    hide Inv;
  }

  lemma HistoryExplains(p: Program, w: World, q: Program, stim: seq<Envelope>, r: State, past: Past)
    requires Recording(p, w) && q.names == p.names && WORLD !in q.names
    requires Judged(q, w.log, r) && Hist(q, stim, r, past, q.names)
    requires forall i | 0 <= i < |w.log| :: w.log[i].id in r.produced
    ensures Explains(q, w.log, stim, past)
  {
    hide Recording, Judged, IsSent, EventsOf, Project, Behave, Stamps, IsRecorded;
    forall a | a in q.names
      ensures EventsOf(a, past[a]) == Project(w.log, a) && Behave(q, a, past[a]).Some?
          && Behave(q, a, past[a]).value.1 == []
    {
      assert StandsHist(q, r, past, q.names, a);
      HistoryIsShare(p, w, q, r, past, a);
    }
  }

  // --------------------------------------- from a history to a faithful replay

  /** The recording that the other code would have left, had it run that history. */
  function Retold(q: Program, w: World, stim: seq<Envelope>, past: Past): World
    requires forall a | a in q.names :: a in past && Behave(q, a, past[a]).Some?
  {
    World(map a | a in q.names :: Task(Behave(q, a, past[a]).value.0, Stamps(a, past[a]), Idle, [], false, past[a]),
          map a | a in q.names :: [],
          w.nextId, 0, false, w.log, Finished, w.place, w.sentAt, stim)
  }

  /** Equal events come from like entries. */
  lemma SameEntry(a: Name, past: seq<Done>, tr: seq<Done>, x: nat)
    requires EventsOf(a, past) == EventsOf(a, tr) && x < |past|
    ensures x < |tr|
    ensures match past[x]
            case DidWork => true
            case DidRecv(env) => tr[x].DidRecv? && tr[x].env.msgId == env.msgId
            case DidSend(env) => tr[x].DidSend? && tr[x].env.msgId == env.msgId && tr[x].env.dst == env.dst
  {
    hide EventId, Mid, Merge, Increment, Stamps;
    assert |past| == |EventsOf(a, past)| == |EventsOf(a, tr)| == |tr|;
    EventsAt(a, past, x);
    EventsAt(a, tr, x);
    if !past[x].DidWork? && !tr[x].DidWork? {
      if Mid(past[x].env.msgId) == Mid(tr[x].env.msgId) { MidInjective(past[x].env.msgId, tr[x].env.msgId); }
    }
  }

  lemma ShareOf(p: Program, w: World, q: Program, stim: seq<Envelope>, past: Past, a: Name)
    requires Recording(p, w) && q.names == p.names && Explains(q, w.log, stim, past) && a in q.names
    ensures a in past && a in w.tasks && EventsOf(a, past[a]) == EventsOf(a, Trace(w, a))
    ensures ActorMsgs(p, w, a)
  {
    hide TasksOk, MessagesOk, WellStamped, EventsOf, Project, ActorMsgs, IsSent;
    MessagesOf(p, w, a);
  }

  lemma RetoldSent(p: Program, w: World, q: Program, stim: seq<Envelope>, past: Past, env: Envelope)
    requires Recording(p, w) && q.names == p.names && Restimulates(w, stim) && Explains(q, w.log, stim, past)
    requires IsSent(past, stim, env)
    ensures Sent(Retold(q, w, stim, past), env)
  {
    hide Inv, EventsOf, Project, Behave, Stamps;
    if i: nat :| i < |stim| && stim[i] == env {
      StimulusSent(p, w, i);
    } else {
      var b, y: nat :| SentIn(past, b, y, env);
      ShareOf(p, w, q, stim, past, b);
      SameEntry(b, past[b], Trace(w, b), y);
      assert w.sentAt[env.msgId] == (b, y);
      Reserved(p, w);
    }
  }

  lemma StimulusSent(p: Program, w: World, i: nat)
    requires Recording(p, w) && i < |w.origins|
    ensures w.origins[i].msgId in w.sentAt && w.sentAt[w.origins[i].msgId] == (WORLD, i) && IsOrigin(p, w.origins[i])
  {
    hide TasksOk, LogOk, WellStamped, IdsOk;
  }

  /** The message a receive took is addressed to its taker in the retelling too. */
  lemma RetoldRecv(p: Program, w: World, q: Program, stim: seq<Envelope>, past: Past, a: Name, x: nat)
    requires Recording(p, w) && q.names == p.names && Restimulates(w, stim) && Explains(q, w.log, stim, past)
    requires a in q.names && x < |past[a]| && past[a][x].DidRecv?
    ensures var env := past[a][x].env;
      At(w, env, Received(a, x)) && Sent(Retold(q, w, stim, past), env) && env.dst == a
  {
    hide Inv, EventsOf, Project, Behave, Stamps, IsSent;
    var env := past[a][x].env;
    ShareOf(p, w, q, stim, past, a);
    SameEntry(a, past[a], Trace(w, a), x);
    RetoldSent(p, w, q, stim, past, env);
    var env0 := Trace(w, a)[x].env;
    assert At(w, env0, Received(a, x)) && Sent(w, env0) && env0.dst == a;
    var (b, y) := w.sentAt[env.msgId];
    if b != WORLD {
      ShareOf(p, w, q, stim, past, b);
      SameEntry(b, past[b], Trace(w, b), y);
    }
  }

  lemma RetoldMessages(p: Program, w: World, q: Program, stim: seq<Envelope>, past: Past)
    requires Recording(p, w) && q.names == p.names && Restimulates(w, stim) && Explains(q, w.log, stim, past)
    ensures MessagesOk(q, Retold(q, w, stim, past))
  {
    hide Recording, EventsOf, Project, Behave, Stamps, IsSent, Explains, Sent;
    var v := RetoldHere(q, w, stim, past);
    assert IdsOk(v) by { RecordingIds(p, w); }
    forall i: nat | i < |stim| ensures IsOrigin(q, stim[i]) && stim[i].msgId in v.sentAt
        && v.sentAt[stim[i].msgId] == (WORLD, i) {
      StimulusSent(p, w, i);
    }
    forall a | a in q.names ensures ActorMsgs(q, v, a) {
      forall x: nat | x < |past[a]| && past[a][x].DidRecv?
        ensures At(v, past[a][x].env, Received(a, x)) && Sent(v, past[a][x].env) && past[a][x].env.dst == a
      {
        RetoldRecv(p, w, q, stim, past, a, x);
      }
      forall x: nat | x < |past[a]| && past[a][x].DidSend?
        ensures past[a][x].env.msgId in v.sentAt && v.sentAt[past[a][x].env.msgId] == (a, x)
      {
        ShareOf(p, w, q, stim, past, a);
        SameEntry(a, past[a], Trace(w, a), x);
      }
    }
  }

  lemma RetoldHere(q: Program, w: World, stim: seq<Envelope>, past: Past) returns (v: World)
    requires Explains(q, w.log, stim, past)
    ensures forall a | a in q.names :: a in past && Behave(q, a, past[a]).Some?
    ensures v == Retold(q, w, stim, past)
    ensures v.tasks.Keys == v.boxes.Keys == q.names == past.Keys
    ensures forall a | a in q.names :: v.tasks[a].trace == past[a] && v.tasks[a].phase.Idle? && v.boxes[a] == []
  {
    hide EventsOf, Project, Behave, Stamps, IsSent;
    v := Retold(q, w, stim, past);
  }

  lemma RecordingIds(p: Program, w: World)
    requires Recording(p, w)
    ensures IdsOk(w)
  {
    hide TasksOk, LogOk, WellStamped;
  }

  lemma RetoldRecording(p: Program, w: World, q: Program, stim: seq<Envelope>, past: Past)
    requires Recording(p, w) && q.WellFormed() && q.names == p.names && Restimulates(w, stim)
        && Explains(q, w.log, stim, past)
    ensures Recording(q, Retold(q, w, stim, past)) && AllClear(q, Retold(q, w, stim, past))
  {
    hide Recording, MessagesOk, LogOk, WellStamped, Explains, TaskOk, Clear, Restimulates, Retold;
    var v := RetoldHere(q, w, stim, past);
    RetoldMessages(p, w, q, stim, past);
    forall a | a in q.names ensures TaskOk(q, a, v.tasks[a]) && Clear(q, v, a) { RetoldTask(q, w, stim, past, a); }
    RetoldLog(p, w, q, stim, past);
    RetoldRest(p, w, q, stim, past, v);
  }

  lemma RetoldRest(p: Program, w: World, q: Program, stim: seq<Envelope>, past: Past, v: World)
    requires Recording(p, w) && q.WellFormed() && q.names == p.names && Restimulates(w, stim)
    requires forall a | a in q.names :: a in past && Behave(q, a, past[a]).Some?
    requires v == Retold(q, w, stim, past) && MessagesOk(q, v) && LogOk(q, v)
    requires v.tasks.Keys == v.boxes.Keys == q.names && forall a | a in q.names :: TaskOk(q, a, v.tasks[a])
    ensures Recording(q, v)
  {
    hide MessagesOk, LogOk, WellStamped, TaskOk, Behave, Stamps, TasksOk;
    assert TasksOk(q, v) by { AllTasksOk(q, v); }
  }

  lemma AllTasksOk(q: Program, v: World)
    requires v.tasks.Keys == v.boxes.Keys == q.names && forall a | a in q.names :: TaskOk(q, a, v.tasks[a])
    ensures TasksOk(q, v)
  {
    hide TaskOk;
  }

  lemma RetoldTask(q: Program, w: World, stim: seq<Envelope>, past: Past, a: Name)
    requires Explains(q, w.log, stim, past) && a in q.names
    ensures forall b | b in q.names :: b in past && Behave(q, b, past[b]).Some?
    ensures var v := Retold(q, w, stim, past); a in v.tasks && TaskOk(q, a, v.tasks[a]) && Clear(q, v, a)
  {
    hide Behave, Stamps, EventsOf, Project, IsSent;
    var v := RetoldHere(q, w, stim, past);
  }

  lemma RetoldLog(p: Program, w: World, q: Program, stim: seq<Envelope>, past: Past)
    requires Recording(p, w) && q.names == p.names && Restimulates(w, stim) && Explains(q, w.log, stim, past)
    ensures forall b | b in q.names :: b in past && Behave(q, b, past[b]).Some?
    ensures LogOk(q, Retold(q, w, stim, past))
  {
    hide Behave, Stamps, EventsOf, Project, IsSent, EmitEvent, TasksOk, MessagesOk, WellStamped;
    var v := RetoldHere(q, w, stim, past);
    forall i | 0 <= i < |stim| ensures OriginEvents(stim)[i] == OriginEvents(w.origins)[i] {
      SameOriginEvent(w.origins[i], stim[i]);
    }
    assert OriginEvents(stim) == OriginEvents(w.origins);
  }

  lemma SameOriginEvent(env: Envelope, other: Envelope)
    requires other == env.(msg := other.msg)
    ensures EmitEvent(WORLD, 1, other) == EmitEvent(WORLD, 1, env)
  {
    hide EventId, Mid;
  }

  /** Conversely, a log that local histories of the code explain is replayed faithfully
      by it, in any order that respects the poset. */
  lemma ExplainedIsFaithful(p: Program, w: World, q: Program, stim: seq<Envelope>, past: Past, order: seq<nat>)
    requires Recording(p, w) && q.WellFormed() && q.names == p.names && Restimulates(w, stim)
        && Explains(q, w.log, stim, past)
    requires IsExtension(LogEdges(w.log), |w.log|, order) && Positions(w.log, order)
    ensures Replay(q, w.log, Timeline(w.log, order), SuppliedAs(w, stim)).divergences == []
  {
    hide Recording, LogEdges, IsExtension, Replay, AllClear, Explains, Restimulates;
    var v := RetoldHere(q, w, stim, past);
    RetoldRecording(p, w, q, stim, past);
    assert v.log == w.log && Supplied(v) == SuppliedAs(w, stim);
    FaithfulIff(q, v, order);
  }

  /** Drift, actor by actor: replaying a recording with other code, and with stimuli of
      other payload, is faithful exactly when local histories of that code on those
      stimuli explain the recorded log. */
  lemma DriftIff(p: Program, w: World, q: Program, stim: seq<Envelope>, order: seq<nat>)
    requires Recording(p, w) && q.WellFormed() && q.names == p.names && Restimulates(w, stim)
    requires IsExtension(LogEdges(w.log), |w.log|, order) && Positions(w.log, order)
    ensures Replay(q, w.log, Timeline(w.log, order), SuppliedAs(w, stim)).divergences == [] <==>
            exists past :: Explains(q, w.log, stim, past)
  {
    hide Recording, LogEdges, IsExtension, Replay, Explains, Restimulates;
    if Replay(q, w.log, Timeline(w.log, order), SuppliedAs(w, stim)).divergences == [] {
      var past := FaithfulHasHistory(p, w, q, stim, Timeline(w.log, order));
    }
    if past :| Explains(q, w.log, stim, past) {
      ExplainedIsFaithful(p, w, q, stim, past, order);
    }
  }
}