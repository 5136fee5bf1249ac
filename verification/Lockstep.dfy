/** Other code led through a recorded run: wherever the recorded program moves, the
    other one makes the same kind of move, until it has left the same log. */
module Lockstep {
  import opened Names
  import opened Events
  import opened Logs
  import opened Recorder
  import opened Traces
  import opened Recordings
  import opened Quiescence
  import opened Posets
  import opened Extensions
  import opened Engine
  import opened Replays
  import opened Recall
  import opened Simulation
  import opened Fidelity
  import opened Histories
  import opened Drift
  import opened Ownership
  import opened Runs
  import opened Runtime

  // ------------------------------------------------------- what lies ahead

  /** No message number is drawn whose emit is not yet logged. */
  ghost predicate NoDraws(w: World) {
    (forall a | a in w.tasks :: !w.tasks[a].phase.Identified?) && !w.main.Drawn?
  }

  /** `w` comes after `u`: histories have grown, and what was drawn has been logged next
      unless its thread has not moved. */
  ghost predicate Ahead(u: World, w: World) {
    && u.tasks.Keys == w.tasks.Keys && u.origins <= w.origins
    && (forall a | a in u.tasks :: TaskAhead(u.tasks[a], w.tasks[a]))
    && (u.main.Drawn? ==> (w.main == u.main && w.origins == u.origins)
                          || (|w.origins| > |u.origins| && w.origins[|u.origins|] == u.main.env))
  }

  ghost predicate TaskAhead(t: Task, s: Task) {
    && t.trace <= s.trace
    && (t.phase.Identified? ==> s == t || (|s.trace| > |t.trace| && s.trace[|t.trace|] == DidSend(t.phase.env)))
  }

  lemma AheadTask(p: Program, u: World, x: World, a: Name, y: World)
    requires Ahead(u, x) && a in x.tasks && StepTask(p, x, a) == Some(y)
    ensures Ahead(u, y)
  {
    hide StepTask;
    StepExtends(p, x, y, a);
    StepKeepsMain(p, x, y, a);
    forall b | b in u.tasks ensures TaskAhead(u.tasks[b], y.tasks[b]) {
      assert TaskAhead(u.tasks[b], x.tasks[b]);
    }
  }

  lemma StepKeepsMain(p: Program, x: World, y: World, a: Name)
    requires a in x.tasks && StepTask(p, x, a) == Some(y)
    ensures y.main == x.main
  {
    hide StepTask;
    TaskEffect(p, x, y, a);
  }

  lemma MainHistory(x: World, y: World)
    requires StepMain(x) == Some(y)
    ensures y.tasks == x.tasks
    ensures x.main.Drawn? ==> y.origins == x.origins + [x.main.env]
    ensures !x.main.Drawn? ==> y.origins == x.origins
  {
    hide LogOrigin, DeliverOrigin;
    match x.main
    case Drawn(env) => LoggedOrigin(x, env);
    case OriginCounted(env) => DeliveredOrigin(x, env);
    case _ =>
  }

  lemma LoggedOrigin(x: World, env: Envelope)
    ensures LogOrigin(x, env).tasks == x.tasks && LogOrigin(x, env).origins == x.origins + [env]
  {
    hide EmitEvent;
  }

  lemma DeliveredOrigin(x: World, env: Envelope)
    requires env.dst in x.boxes
    ensures DeliverOrigin(x, env).tasks == x.tasks && DeliverOrigin(x, env).origins == x.origins
  {}

  lemma AheadMain(u: World, x: World, y: World)
    requires Ahead(u, x) && StepMain(x) == Some(y)
    ensures Ahead(u, y)
  {
    hide TaskAhead, StepMain;
    MainHistory(x, y);
  }

  lemma AheadDraw(u: World, x: World, dst: Name, msg: Payload)
    requires Ahead(u, x) && x.main.Injecting?
    ensures Ahead(u, DrawOrigin(x, dst, msg))
  {
    hide TaskAhead, OnLocal;
  }

  lemma AheadAbort(u: World, x: World, a: Name)
    requires Ahead(u, x) && a in x.tasks && (x.tasks[a].phase.Idle? || x.tasks[a].phase.Fresh?)
    ensures Ahead(u, AbortTask(x, a, x.tasks[a]))
  {
    var y := AbortTask(x, a, x.tasks[a]);
    forall b | b in u.tasks ensures TaskAhead(u.tasks[b], y.tasks[b]) { assert TaskAhead(u.tasks[b], x.tasks[b]); }
  }

  lemma AheadNext(p: Program, u: World, x: World, l: Label, y: World)
    requires Ahead(u, x) && Next(p, x, l) == Some(y)
    ensures Ahead(u, y)
  {
    hide Ahead, StepTask, StepMain, DrawOrigin, AbortTask;
    match l
    case TaskMove(a) => AheadTask(p, u, x, a, y);
    case MainMove => AheadMain(u, x, y);
    case Origin(dst, msg) => AheadDraw(u, x, dst, msg);
    case Abort(a) => AheadAbort(u, x, a);
  }

  lemma {:induction false} AheadRun(p: Program, ls: seq<Label>, k: nat, u: World, w: World)
    requires k <= |ls| && Exec(p, Init(p), ls[..k]) == Some(u) && Exec(p, Init(p), ls) == Some(w)
    ensures Ahead(u, w)
  {
    hide Next, Ahead, Init;
    if k == |ls| {
      assert ls[..k] == ls;
      AheadSelf(u);
    } else {
      var x := Exec(p, Init(p), ls[..|ls| - 1]).value;
      assert ls[..|ls| - 1][..k] == ls[..k];
      AheadRun(p, ls[..|ls| - 1], k, u, x);
      AheadNext(p, u, x, ls[|ls| - 1], w);
    }
  }

  lemma AheadSelf(u: World)
    ensures Ahead(u, u)
  {}

  // ----------------------------------------------------------- the relation

  ghost predicate Like(e: Envelope, f: Envelope) { f == e.(msg := f.msg) }

  ghost predicate LikePhase(x: Phase, y: Phase) {
    match x
    case Popped(e) => y.Popped? && Like(e, y.env)
    case Identified(e) => y.Identified? && Like(e, y.env)
    case Recorded(e) => y.Recorded? && Like(e, y.env)
    case Counted(e) => y.Counted? && Like(e, y.env)
    case _ => y == x
  }

  ghost predicate LikeMain(x: Main, y: Main) {
    match x
    case Drawn(e) => y.Drawn? && Like(e, y.env)
    case OriginRecorded(e) => y.OriginRecorded? && Like(e, y.env)
    case OriginCounted(e) => y.OriginCounted? && Like(e, y.env)
    case _ => y == x
  }

  ghost predicate LikeTask(t: Task, s: Task, past: seq<Done>) {
    && s.stamp == t.stamp && s.counted == t.counted && LikePhase(t.phase, s.phase)
    && |s.trace| == |t.trace| && s.trace <= past
  }

  ghost predicate LikeBox(x: seq<Envelope>, y: seq<Envelope>) {
    |x| == |y| && forall k | 0 <= k < |x| :: Like(x[k], y[k])
  }

  ghost predicate LikeShared(u: World, v: World) {
    && v.nextId == u.nextId && v.inFlight == u.inFlight && v.permit == u.permit && v.log == u.log
    && v.place == u.place && v.sentAt == u.sentAt
  }

  ghost predicate LikeOrigins(u: World, v: World, stim: seq<Envelope>) {
    && |v.origins| == |u.origins| && v.origins <= stim && LikeMain(u.main, v.main)
    && (v.main.Drawn? ==> |v.origins| < |stim| && v.main.env == stim[|v.origins|])
  }

  /** State `v` of the other code stands where `u` stands, along histories `past`. */
  ghost predicate Shadow(u: World, v: World, stim: seq<Envelope>, past: Past) {
    && u.tasks.Keys == u.boxes.Keys == v.tasks.Keys == v.boxes.Keys == past.Keys
    && (forall a | a in past :: LikeTask(u.tasks[a], v.tasks[a], past[a]))
    && (forall a | a in past :: LikeBox(u.boxes[a], v.boxes[a]))
    && LikeShared(u, v) && LikeOrigins(u, v, stim)
  }

  /** One task and one box move, alike on both sides. */
  lemma ShadowMove(u: World, v: World, u2: World, v2: World, stim: seq<Envelope>, past: Past, a: Name, c: Name)
    requires Shadow(u, v, stim, past) && a in past && c in past
    requires a in u2.tasks && a in v2.tasks && c in u2.boxes && c in v2.boxes
    requires u2.tasks == u.tasks[a := u2.tasks[a]] && v2.tasks == v.tasks[a := v2.tasks[a]]
    requires u2.boxes == u.boxes[c := u2.boxes[c]] && v2.boxes == v.boxes[c := v2.boxes[c]]
    requires LikeTask(u2.tasks[a], v2.tasks[a], past[a]) && LikeBox(u2.boxes[c], v2.boxes[c]) && LikeShared(u2, v2)
    requires u2.main == u.main && v2.main == v.main && u2.origins == u.origins && v2.origins == v.origins
    ensures Shadow(u2, v2, stim, past)
  {
    hide LikeTask, LikeBox, LikeMain, LikeShared;
  }

  /** A task moves, and no box. */
  lemma ShadowTask(u: World, v: World, u2: World, v2: World, stim: seq<Envelope>, past: Past, a: Name)
    requires Shadow(u, v, stim, past) && a in past && a in u2.tasks && a in v2.tasks
    requires u2.tasks == u.tasks[a := u2.tasks[a]] && v2.tasks == v.tasks[a := v2.tasks[a]]
    requires LikeTask(u2.tasks[a], v2.tasks[a], past[a]) && u2.boxes == u.boxes && v2.boxes == v.boxes
    requires LikeShared(u2, v2)
    requires u2.main == u.main && v2.main == v.main && u2.origins == u.origins && v2.origins == v.origins
    ensures Shadow(u2, v2, stim, past)
  {
    hide LikeTask, LikeBox, LikeMain, LikeShared;
  }

  lemma ShadowOf(u: World, v: World, stim: seq<Envelope>, past: Past, a: Name)
    requires Shadow(u, v, stim, past) && a in past
    ensures a in u.tasks && a in v.tasks && a in u.boxes && a in v.boxes
    ensures LikeTask(u.tasks[a], v.tasks[a], past[a]) && LikeBox(u.boxes[a], v.boxes[a]) && LikeShared(u, v)
    ensures u.tasks.Keys == v.tasks.Keys == past.Keys
  {
    hide LikeTask, LikeBox, LikeShared, LikeOrigins;
  }

  // ------------------------------------------------------ what comes next

  /** What the next history entry says about the actions still to do. */
  lemma NextEntry(q: Program, a: Name, past: seq<Done>, c: nat, s: UserState, todo: seq<Action>)
    requires c <= |past| && Behave(q, a, past).Some? && Behave(q, a, past[..c]) == Some((s, todo))
    ensures c == |past| ==> Behave(q, a, past) == Some((s, todo))
    ensures c < |past| ==> Stamps(a, past[..c + 1]) == StampAfter(a, Stamps(a, past[..c]), past[c])
    ensures c < |past| ==>
              match past[c]
              case DidRecv(_) => todo == []
              case DidWork => todo != [] && todo[0].Work?
              case DidSend(env) =>
                todo != [] && todo[0].Send?
                && env == Outgoing(a, Stamps(a, past[..c + 1]), env.msgId, todo[0].dst, todo[0].msg)
  {
    hide Behave, Stamps, StampAfter;
    if c == |past| {
      assert past[..c] == past;
    } else {
      BehavePrefix(q, a, past, c + 1);
      assert past[..c + 1] == past[..c] + [past[c]];
      TraceAppend(q, a, past[..c], past[c]);
    }
  }

  /** The two programs, the recording, and a history that explains it. */
  ghost predicate Setting(p: Program, w: World, q: Program, stim: seq<Envelope>, past: Past) {
    && Recording(p, w) && q.WellFormed() && q.names == p.names && Restimulates(w, stim)
        && Explains(q, w.log, stim, past)
  }

  /** Both programs' recorded histories of `a` leave the same events; the other code's
      is complete. */
  lemma Shares(p: Program, w: World, q: Program, stim: seq<Envelope>, past: Past, a: Name)
    requires Setting(p, w, q, stim, past) && a in q.names
    ensures a in past && a in w.tasks && |past[a]| == |w.tasks[a].trace|
    ensures EventsOf(a, past[a]) == EventsOf(a, w.tasks[a].trace)
    ensures Behave(p, a, w.tasks[a].trace).Some? && Behave(q, a, past[a]).Some? && Behave(q, a, past[a]).value.1 == []
  {
    hide MessagesOk, LogOk, WellStamped, FitsWidth, Behave, Stamps, EventsOf, Project, IsSent, PhaseOk, Restimulates,
        Program.Addressed;
    ShareOf(p, w, q, stim, past, a);
    assert TaskOk(p, a, w.tasks[a]);
    assert |past[a]| == |EventsOf(a, past[a])|;
  }

  lemma TaskOf(p: Program, u: World, a: Name)
    requires Inv(p, u) && a in p.names
    ensures a in u.tasks && a in u.boxes && TaskOk(p, a, u.tasks[a])
  {
    hide MessagesOk, LogOk, WellStamped, TaskOk;
  }

  /** Entries of the two histories are of one kind. */
  lemma SameKind(p: Program, w: World, q: Program, stim: seq<Envelope>, past: Past, a: Name, c: nat)
    requires Setting(p, w, q, stim, past) && a in q.names && a in past && c < |past[a]|
    ensures a in w.tasks && c < |w.tasks[a].trace|
    ensures match past[a][c]
            case DidWork => w.tasks[a].trace[c].DidWork?
            case DidRecv(env) => w.tasks[a].trace[c].DidRecv? && w.tasks[a].trace[c].env.msgId == env.msgId
            case DidSend(env) => w.tasks[a].trace[c].DidSend? && w.tasks[a].trace[c].env.msgId == env.msgId
                                 && w.tasks[a].trace[c].env.dst == env.dst
  {
    hide Setting, EventsOf, Behave;
    Shares(p, w, q, stim, past, a);
    SameEntry(a, past[a], w.tasks[a].trace, c);
    SameEntry(a, w.tasks[a].trace, past[a], c);
  }

  /** With nothing left to do in the one, nothing is left in the other. */
  lemma BothDone(p: Program, w: World, q: Program, stim: seq<Envelope>, past: Past, t: Task, s: Task, a: Name)
    requires Setting(p, w, q, stim, past) && a in q.names && a in past && a in w.tasks
    requires TaskOk(p, a, t) && TaskOk(q, a, s) && t.trace <= w.tasks[a].trace && LikeTask(t, s, past[a])
    requires Owed(p, a, t) == []
    ensures Owed(q, a, s) == []
  {
    hide Setting, EventsOf, Behave, Stamps, StampAfter, PhaseOk, Owed, Settled, LikePhase, Program.Addressed;
    var c := |t.trace|;
    Shares(p, w, q, stim, past, a);
    assert t.trace == w.tasks[a].trace[..c] && s.trace == past[a][..c];
    NextEntry(p, a, w.tasks[a].trace, c, Settled(p, a, t), Owed(p, a, t));
    NextEntry(q, a, past[a], c, Settled(q, a, s), Owed(q, a, s));
    if c < |past[a]| { SameKind(p, w, q, stim, past, a, c); }
  }

  /** Where the one computes next, so does the other. */
  lemma BothWork(p: Program, w: World, q: Program, stim: seq<Envelope>, past: Past, t: Task, s: Task, a: Name)
    requires Setting(p, w, q, stim, past) && a in q.names && a in past && a in w.tasks
    requires TaskOk(q, a, s) && LikeTask(t, s, past[a]) && t.trace + [DidWork] <= w.tasks[a].trace
    ensures |s.trace| < |past[a]| && past[a][|s.trace|] == DidWork
    ensures Owed(q, a, s) != [] && Owed(q, a, s)[0] == Work
  {
    hide Setting, EventsOf, Behave, Stamps, StampAfter, PhaseOk, Owed, Settled, LikePhase, Program.Addressed;
    var c := |t.trace|;
    Shares(p, w, q, stim, past, a);
    assert s.trace == past[a][..c] && w.tasks[a].trace[c] == DidWork;
    NextEntry(q, a, past[a], c, Settled(q, a, s), Owed(q, a, s));
    SameKind(p, w, q, stim, past, a, c);
  }

  /** Where the one sends next, the other sends to the same actor, under the same number. */
  lemma BothSend(p: Program, w: World, q: Program, stim: seq<Envelope>, past: Past, t: Task, s: Task, a: Name,
          env: Envelope)
    requires Setting(p, w, q, stim, past) && a in q.names && a in past && a in w.tasks
    requires TaskOk(q, a, s) && LikeTask(t, s, past[a]) && t.trace + [DidSend(env)] <= w.tasks[a].trace
    ensures |s.trace| < |past[a]| && past[a][|s.trace|].DidSend?
    ensures var d, todo := past[a][|s.trace|].env, Owed(q, a, s);
      && todo != [] && todo[0].Send? && todo[0].dst == env.dst == d.dst && d.msgId == env.msgId
      && d == Outgoing(a, OnLocal(Stamps(a, s.trace), a), env.msgId, todo[0].dst, todo[0].msg)
  {
    hide Setting, EventsOf, Behave, Stamps, PhaseOk, Owed, Settled, LikePhase, Program.Addressed, OnLocal;
    var c := |t.trace|;
    Shares(p, w, q, stim, past, a);
    assert s.trace == past[a][..c] && w.tasks[a].trace[c] == DidSend(env);
    NextEntry(q, a, past[a], c, Settled(q, a, s), Owed(q, a, s));
    SameKind(p, w, q, stim, past, a, c);
  }

  // ------------------------------------------------------- following a task

  ghost predicate Pair(p: Program, w: World, q: Program, stim: seq<Envelope>, past: Past, u: World, v: World) {
    Setting(p, w, q, stim, past) && Inv(p, u) && Inv(q, v) && Ahead(u, w) && Shadow(u, v, stim, past)
  }

  /** What a pair says of one actor. */
  lemma PairAt(p: Program, w: World, q: Program, stim: seq<Envelope>, past: Past, u: World, v: World, a: Name)
    requires Pair(p, w, q, stim, past, u, v) && a in u.tasks
    ensures a in p.names && a in q.names && a in past && a in v.tasks && a in u.boxes && a in v.boxes && a in w.tasks
    ensures TaskOk(p, a, u.tasks[a]) && TaskOk(q, a, v.tasks[a]) && TaskAhead(u.tasks[a], w.tasks[a])
    ensures LikeTask(u.tasks[a], v.tasks[a], past[a]) && LikeBox(u.boxes[a], v.boxes[a]) && LikeShared(u, v)
    ensures u.tasks.Keys == v.tasks.Keys == past.Keys
  {
    hide Setting, Inv, TaskAhead, TaskOk, LikeTask, LikeBox, LikeShared, Shadow;
    ShadowOf(u, v, stim, past, a) by { hide Ahead; ShadowHas(u, v, stim, past, a); }
    assert a in p.names && q.names == p.names by { SettingNames(p, w, q, stim, past); InvPeopled(p, u); }
    TaskOf(p, u, a);
    TaskOf(q, v, a);
  }

  lemma ShadowHas(u: World, v: World, stim: seq<Envelope>, past: Past, a: Name)
    requires Shadow(u, v, stim, past) && a in u.tasks
    ensures a in past
  {
    hide LikeTask, LikeBox, LikeShared, LikeOrigins;
  }

  lemma SettingNames(p: Program, w: World, q: Program, stim: seq<Envelope>, past: Past)
    requires Setting(p, w, q, stim, past)
    ensures q.names == p.names && q.WellFormed() && p.WellFormed()
  {
    hide Inv, Explains, Restimulates, FitsWidth;
  }

  lemma FollowBegin(p: Program, w: World, q: Program, stim: seq<Envelope>, past: Past, u: World, v: World,
                    a: Name, u2: World) returns (v2: World)
    requires Pair(p, w, q, stim, past, u, v) && a in u.tasks && StepTask(p, u, a) == Some(u2)
    requires u.tasks[a].phase.Fresh?
    ensures a in v.tasks && StepTask(q, v, a) == Some(v2) && Shadow(u2, v2, stim, past)
  {
    hide Pair, StepTask, TaskOk, Shadow, Begin;
    PairAt(p, w, q, stim, past, u, v, a);
    BeginsWith(p, u, a);
    BeginsWith(q, v, a);
    v2 := Begin(q, v, a, v.tasks[a]);
    PairShadow(p, w, q, stim, past, u, v);
    BeginAlike(p, q, u, v, stim, past, a);
  }

  lemma BeginAlike(p: Program, q: Program, u: World, v: World, stim: seq<Envelope>, past: Past, a: Name)
    requires Shadow(u, v, stim, past) && a in past && a in u.tasks && a in v.tasks
    requires LikeTask(u.tasks[a], v.tasks[a], past[a]) && LikeShared(u, v)
    ensures Shadow(Begin(p, u, a, u.tasks[a]), Begin(q, v, a, v.tasks[a]), stim, past)
  {
    hide Shadow;
    ShadowTask(u, v, Begin(p, u, a, u.tasks[a]), Begin(q, v, a, v.tasks[a]), stim, past, a);
  }

  lemma PairShadow(p: Program, w: World, q: Program, stim: seq<Envelope>, past: Past, u: World, v: World)
    requires Pair(p, w, q, stim, past, u, v)
    ensures Shadow(u, v, stim, past) && Setting(p, w, q, stim, past)
  {
    hide Shadow, Setting, Inv, Ahead;
  }

  lemma FollowPop(p: Program, w: World, q: Program, stim: seq<Envelope>, past: Past, u: World, v: World, a: Name,
          u2: World)
    returns (v2: World)
    requires Pair(p, w, q, stim, past, u, v) && a in u.tasks && StepTask(p, u, a) == Some(u2) && u.tasks[a].phase.Idle?
    ensures a in v.tasks && StepTask(q, v, a) == Some(v2) && Shadow(u2, v2, stim, past)
  {
    hide Pair, TaskOk, Shadow, OnRecv, Pop;
    PairAt(p, w, q, stim, past, u, v, a);
    v2 := Pop(v, a, v.tasks[a]);
    PairShadow(p, w, q, stim, past, u, v);
    PopAlike(u, v, stim, past, a);
  }

  lemma PopAlike(u: World, v: World, stim: seq<Envelope>, past: Past, a: Name)
    requires Shadow(u, v, stim, past) && a in past && a in u.tasks && a in v.tasks && a in u.boxes && a in v.boxes
    requires LikeTask(u.tasks[a], v.tasks[a], past[a]) && LikeBox(u.boxes[a], v.boxes[a]) && LikeShared(u, v)
    requires u.boxes[a] != []
    ensures v.boxes[a] != [] && Shadow(Pop(u, a, u.tasks[a]), Pop(v, a, v.tasks[a]), stim, past)
  {
    hide Shadow, OnRecv;
    var u2, v2 := Pop(u, a, u.tasks[a]), Pop(v, a, v.tasks[a]);
    assert Like(u.boxes[a][0], v.boxes[a][0]);
    ShadowMove(u, v, u2, v2, stim, past, a, a);
  }

  /** A message is received in the other run exactly as its history says. */
  lemma SameLetter(p: Program, w: World, q: Program, stim: seq<Envelope>, past: Past, v: World, e: Envelope,
          f: Envelope)
    requires Setting(p, w, q, stim, past) && IsSent(past, stim, e) && Sent(v, f) && f.msgId == e.msgId
    requires v.tasks.Keys == past.Keys && v.origins <= stim && forall a | a in past :: v.tasks[a].trace <= past[a]
    ensures f == e
  {
    hide Recording, EventsOf, Project, Behave;
    var (b, x) := v.sentAt[f.msgId];
    if b == WORLD {
      assert stim[x] == f;
    } else {
      assert SentIn(past, b, x, f);
    }
    assert IsSent(past, stim, f);
    RetoldSent(p, w, q, stim, past, e);
    RetoldSent(p, w, q, stim, past, f);
    SentOnce(Retold(q, w, stim, past), e, f);
  }

  lemma FollowRecv(p: Program, w: World, q: Program, stim: seq<Envelope>, past: Past, u: World, v: World, a: Name,
          u2: World)
    returns (v2: World)
    requires Pair(p, w, q, stim, past, u, v) && a in u.tasks && StepTask(p, u, a) == Some(u2)
        && u.tasks[a].phase.Popped?
    requires Ahead(u2, w)
    ensures a in v.tasks && StepTask(q, v, a) == Some(v2) && Shadow(u2, v2, stim, past)
  {
    hide Pair, TaskOk, Shadow, RecvEvent, StepTask, LogRecv;
    PairAt(p, w, q, stim, past, u, v, a);
    StepOf(p, u, a);
    StepOf(q, v, a);
    var env, fnv := u.tasks[a].phase.env, v.tasks[a].phase.env;
    v2 := LogRecv(q, v, a, v.tasks[a], fnv);
    assert u.tasks[a].trace + [DidRecv(env)] <= w.tasks[a].trace by { LoggedNext(p, u, u2, w, a, DidRecv(env)); }
    RecvEntry(p, w, q, stim, past, u, v, a);
    PairShadow(p, w, q, stim, past, u, v);
    RecvAlike(p, q, u, v, stim, past, a, env, fnv);
  }

  lemma LoggedNext(p: Program, u: World, u2: World, w: World, a: Name, d: Done)
    requires a in u.tasks && StepTask(p, u, a) == Some(u2) && Entry(u.tasks[a]) == Some(d) && Ahead(u2, w)
    ensures a in w.tasks && u.tasks[a].trace + [d] <= w.tasks[a].trace
  {
    hide StepTask, Entry;
    StepExtends(p, u, u2, a);
    assert TaskAhead(u2.tasks[a], w.tasks[a]);
  }

  lemma RecvEntry(p: Program, w: World, q: Program, stim: seq<Envelope>, past: Past, u: World, v: World, a: Name)
    requires Pair(p, w, q, stim, past, u, v) && a in u.tasks && a in v.tasks && a in w.tasks && a in past
    requires u.tasks[a].phase.Popped? && LikeTask(u.tasks[a], v.tasks[a], past[a])
    requires u.tasks[a].trace + [DidRecv(u.tasks[a].phase.env)] <= w.tasks[a].trace
    ensures |v.tasks[a].trace| < |past[a]| && past[a][|v.tasks[a].trace|] == DidRecv(v.tasks[a].phase.env)
  {
    hide Pair, Setting, TaskOk, Shadow, EventsOf, IsSent;
    var c := |u.tasks[a].trace|;
    PairShadow(p, w, q, stim, past, u, v);
    assert a in q.names by { PairAt(p, w, q, stim, past, u, v, a); }
    Shares(p, w, q, stim, past, a);
    assert w.tasks[a].trace[c] == DidRecv(u.tasks[a].phase.env);
    SameEntry(a, w.tasks[a].trace, past[a], c);
    var e := past[a][c].env;
    assert IsSent(past, stim, e) by { LetterSent(p, w, q, stim, past, a, c); }
    PoppedSent(q, v, a) by { PairInv(p, w, q, stim, past, u, v); }
    ShadowPrefixes(u, v, stim, past);
    SameLetter(p, w, q, stim, past, v, e, v.tasks[a].phase.env);
  }

  lemma PairInv(p: Program, w: World, q: Program, stim: seq<Envelope>, past: Past, u: World, v: World)
    requires Pair(p, w, q, stim, past, u, v)
    ensures Inv(p, u) && Inv(q, v)
  {
    hide Shadow, Setting, Inv, Ahead;
  }

  lemma LetterSent(p: Program, w: World, q: Program, stim: seq<Envelope>, past: Past, a: Name, x: nat)
    requires Setting(p, w, q, stim, past) && a in q.names && a in past && x < |past[a]| && past[a][x].DidRecv?
    ensures IsSent(past, stim, past[a][x].env)
  {
    hide Recording, EventsOf, Project, Behave, IsSent, Restimulates;
  }

  lemma ShadowPrefixes(u: World, v: World, stim: seq<Envelope>, past: Past)
    requires Shadow(u, v, stim, past)
    ensures v.tasks.Keys == past.Keys && v.origins <= stim && forall a | a in past :: v.tasks[a].trace <= past[a]
  {
    hide LikeBox, LikeShared, LikePhase, LikeMain;
    forall a | a in past ensures v.tasks[a].trace <= past[a] { assert LikeTask(u.tasks[a], v.tasks[a], past[a]); }
  }

  lemma RecvAlike(p: Program, q: Program, u: World, v: World, stim: seq<Envelope>, past: Past, a: Name, env: Envelope,
          fnv: Envelope)
    requires Shadow(u, v, stim, past) && a in past && a in u.tasks && a in v.tasks
    requires LikeTask(u.tasks[a], v.tasks[a], past[a]) && LikeShared(u, v) && Like(env, fnv)
    requires |v.tasks[a].trace| < |past[a]| && past[a][|v.tasks[a].trace|] == DidRecv(fnv)
    ensures Shadow(LogRecv(p, u, a, u.tasks[a], env), LogRecv(q, v, a, v.tasks[a], fnv), stim, past)
  {
    hide Shadow, EventId, Mid;
    var u2, v2 := LogRecv(p, u, a, u.tasks[a], env), LogRecv(q, v, a, v.tasks[a], fnv);
    PrefixGrows(v.tasks[a].trace, past[a]);
    ShadowTask(u, v, u2, v2, stim, past, a);
  }

  lemma PrefixGrows(s: seq<Done>, past: seq<Done>)
    requires s <= past && |s| < |past|
    ensures s + [past[|s|]] <= past
  {}

  // -------------------------------------------------------- inside a handler

  lemma FollowEnd(p: Program, w: World, q: Program, stim: seq<Envelope>, past: Past, u: World, v: World,
                    a: Name, u2: World) returns (v2: World)
    requires Pair(p, w, q, stim, past, u, v) && a in u.tasks && StepTask(p, u, a) == Some(u2)
    requires u.tasks[a].phase.Acting? && u.tasks[a].todo == []
    ensures a in v.tasks && StepTask(q, v, a) == Some(v2) && Shadow(u2, v2, stim, past)
  {
    hide Pair, StepTask, TaskOk, Shadow, CountDown, EndStarted, Setting, LikeTask;
    PairAt(p, w, q, stim, past, u, v, a);
    PairShadow(p, w, q, stim, past, u, v);
    var t, s := u.tasks[a], v.tasks[a];
    assert t.trace <= w.tasks[a].trace;
    ActingOwes(p, a, t);
    BothDone(p, w, q, stim, past, t, s, a);
    LikeActing(t, s, past[a]);
    ActingOwes(q, a, s);
    StepOf(p, u, a);
    StepOf(q, v, a);
    v2 := if s.counted then CountDown(v, a, s, false) else EndStarted(v, a, s);
    EndAlike(u, v, stim, past, a);
  }

  lemma ActingOwes(p: Program, a: Name, t: Task)
    ensures t.phase.Acting? ==> Owed(p, a, t) == t.todo && Settled(p, a, t) == t.user
  {}

  lemma LikeActing(t: Task, s: Task, past: seq<Done>)
    requires LikeTask(t, s, past) && t.phase.Acting?
    ensures s.phase.Acting? && s.counted == t.counted && s.stamp == t.stamp
  {}

  lemma EndAlike(u: World, v: World, stim: seq<Envelope>, past: Past, a: Name)
    requires Shadow(u, v, stim, past) && a in past && a in u.tasks && a in v.tasks
    requires LikeTask(u.tasks[a], v.tasks[a], past[a]) && LikeShared(u, v)
    ensures Shadow(EndStarted(u, a, u.tasks[a]), EndStarted(v, a, v.tasks[a]), stim, past)
    ensures Shadow(CountDown(u, a, u.tasks[a], false), CountDown(v, a, v.tasks[a], false), stim, past)
  {
    hide Shadow;
    ShadowTask(u, v, EndStarted(u, a, u.tasks[a]), EndStarted(v, a, v.tasks[a]), stim, past, a);
    CountDownAlike(u, v, stim, past, a, false);
  }

  lemma CountDownAlike(u: World, v: World, stim: seq<Envelope>, past: Past, a: Name, back: bool)
    requires Shadow(u, v, stim, past) && a in past && a in u.tasks && a in v.tasks
    requires LikeTask(u.tasks[a], v.tasks[a], past[a]) && LikeShared(u, v)
    ensures Shadow(CountDown(u, a, u.tasks[a], back), CountDown(v, a, v.tasks[a], back), stim, past)
  {
    hide Shadow;
    ShadowTask(u, v, CountDown(u, a, u.tasks[a], back), CountDown(v, a, v.tasks[a], back), stim, past, a);
  }

  lemma FollowWork(p: Program, w: World, q: Program, stim: seq<Envelope>, past: Past, u: World, v: World,
                    a: Name, u2: World) returns (v2: World)
    requires Pair(p, w, q, stim, past, u, v) && a in u.tasks && StepTask(p, u, a) == Some(u2)
    requires u.tasks[a].phase.Acting? && u.tasks[a].todo != [] && u.tasks[a].todo[0].Work? && Ahead(u2, w)
    ensures a in v.tasks && StepTask(q, v, a) == Some(v2) && Shadow(u2, v2, stim, past)
  {
    hide Pair, StepTask, TaskOk, Shadow, LogWork, Setting, LikeTask;
    PairAt(p, w, q, stim, past, u, v, a);
    PairShadow(p, w, q, stim, past, u, v);
    var t, s := u.tasks[a], v.tasks[a];
    LoggedNext(p, u, u2, w, a, DidWork);
    BothWork(p, w, q, stim, past, t, s, a);
    LikeActing(t, s, past[a]);
    ActingOwes(q, a, s);
    StepOf(p, u, a);
    StepOf(q, v, a);
    v2 := LogWork(v, a, s);
    WorkAlike(u, v, stim, past, a);
  }

  lemma WorkAlike(u: World, v: World, stim: seq<Envelope>, past: Past, a: Name)
    requires Shadow(u, v, stim, past) && a in past && a in u.tasks && a in v.tasks
    requires LikeTask(u.tasks[a], v.tasks[a], past[a]) && LikeShared(u, v) && u.tasks[a].phase.Acting?
    requires u.tasks[a].todo != [] && v.tasks[a].todo != []
    requires |v.tasks[a].trace| < |past[a]| && past[a][|v.tasks[a].trace|] == DidWork
    ensures Shadow(LogWork(u, a, u.tasks[a]), LogWork(v, a, v.tasks[a]), stim, past)
  {
    hide Shadow, OnLocal, ComputeEvent;
    PrefixGrows(v.tasks[a].trace, past[a]);
    ShadowTask(u, v, LogWork(u, a, u.tasks[a]), LogWork(v, a, v.tasks[a]), stim, past, a);
  }

  lemma FollowDraw(p: Program, w: World, q: Program, stim: seq<Envelope>, past: Past, u: World, v: World,
                    a: Name, u2: World) returns (v2: World)
    requires Pair(p, w, q, stim, past, u, v) && a in u.tasks && StepTask(p, u, a) == Some(u2)
    requires u.tasks[a].phase.Acting? && u.tasks[a].todo != [] && u.tasks[a].todo[0].Send? && Ahead(u2, w) && NoDraws(w)
    ensures a in v.tasks && StepTask(q, v, a) == Some(v2) && Shadow(u2, v2, stim, past)
  {
    hide Pair, StepTask, TaskOk, Shadow, DrawId, Setting, LikeTask;
    PairAt(p, w, q, stim, past, u, v, a);
    PairShadow(p, w, q, stim, past, u, v);
    var t, s := u.tasks[a], v.tasks[a];
    StepOf(p, u, a);
    var env := DrawnNext(u, w, a, u2);
    BothSend(p, w, q, stim, past, t, s, a, env);
    LikeActing(t, s, past[a]);
    ActingOwes(q, a, s);
    StepOf(q, v, a);
    v2 := DrawId(v, a, s, s.todo[0].dst, s.todo[0].msg);
    DrawAlike(u, v, stim, past, a);
  }

  /** A drawn id is logged next, since none is left drawn at the end. */
  lemma DrawnNext(u: World, w: World, a: Name, u2: World) returns (env: Envelope)
    requires a in u.tasks && u.tasks[a].todo != [] && u.tasks[a].todo[0].Send?
    requires u2 == DrawId(u, a, u.tasks[a], u.tasks[a].todo[0].dst, u.tasks[a].todo[0].msg) && Ahead(u2, w)
        && NoDraws(w)
    ensures a in w.tasks && u.tasks[a].trace + [DidSend(env)] <= w.tasks[a].trace
    ensures env.dst == u.tasks[a].todo[0].dst
  {
    hide OnLocal;
    env := u2.tasks[a].phase.env;
    assert TaskAhead(u2.tasks[a], w.tasks[a]);
  }

  lemma DrawAlike(u: World, v: World, stim: seq<Envelope>, past: Past, a: Name)
    requires Shadow(u, v, stim, past) && a in past && a in u.tasks && a in v.tasks
    requires LikeTask(u.tasks[a], v.tasks[a], past[a]) && LikeShared(u, v)
    requires u.tasks[a].todo != [] && v.tasks[a].todo != [] && u.tasks[a].todo[0].Send? && v.tasks[a].todo[0].Send?
    requires v.tasks[a].todo[0].dst == u.tasks[a].todo[0].dst
    ensures var (x, y) := (u.tasks[a].todo[0], v.tasks[a].todo[0]);
      Shadow(DrawId(u, a, u.tasks[a], x.dst, x.msg), DrawId(v, a, v.tasks[a], y.dst, y.msg), stim, past)
  {
    hide Shadow, OnLocal;
    var (x, y) := (u.tasks[a].todo[0], v.tasks[a].todo[0]);
    ShadowTask(u, v, DrawId(u, a, u.tasks[a], x.dst, x.msg), DrawId(v, a, v.tasks[a], y.dst, y.msg), stim, past, a);
  }

  lemma FollowEmit(p: Program, w: World, q: Program, stim: seq<Envelope>, past: Past, u: World, v: World,
                    a: Name, u2: World) returns (v2: World)
    requires Pair(p, w, q, stim, past, u, v) && a in u.tasks && StepTask(p, u, a) == Some(u2)
    requires u.tasks[a].phase.Identified? && Ahead(u2, w)
    ensures a in v.tasks && StepTask(q, v, a) == Some(v2) && Shadow(u2, v2, stim, past)
  {
    hide Pair, StepTask, TaskOk, Shadow, LogEmit, Setting;
    PairAt(p, w, q, stim, past, u, v, a);
    PairShadow(p, w, q, stim, past, u, v);
    var t, s := u.tasks[a], v.tasks[a];
    LoggedNext(p, u, u2, w, a, DidSend(t.phase.env));
    BothSend(p, w, q, stim, past, t, s, a, t.phase.env);
    EmitEntry(q, a, s, past[a], t.phase.env);
    StepOf(p, u, a);
    StepOf(q, v, a);
    v2 := LogEmit(v, a, s, s.phase.env);
    EmitAlike(u, v, stim, past, a, t.phase.env, s.phase.env);
  }

  /** The envelope drawn is the one the history sends. */
  lemma EmitEntry(q: Program, a: Name, s: Task, past: seq<Done>, env: Envelope)
    requires TaskOk(q, a, s) && s.phase.Identified? && s.phase.env.msgId == env.msgId
    requires |s.trace| < |past| && past[|s.trace|].DidSend?
    requires var d, todo := past[|s.trace|].env, Owed(q, a, s);
      && todo != [] && todo[0].Send? && d.msgId == env.msgId
      && d == Outgoing(a, OnLocal(Stamps(a, s.trace), a), env.msgId, todo[0].dst, todo[0].msg)
    ensures past[|s.trace|] == DidSend(s.phase.env)
  {
    hide OnLocal, Stamps, Behave;
  }

  lemma EmitAlike(u: World, v: World, stim: seq<Envelope>, past: Past, a: Name, env: Envelope, fnv: Envelope)
    requires Shadow(u, v, stim, past) && a in past && a in u.tasks && a in v.tasks
    requires LikeTask(u.tasks[a], v.tasks[a], past[a]) && LikeShared(u, v) && Like(env, fnv)
    requires |v.tasks[a].trace| < |past[a]| && past[a][|v.tasks[a].trace|] == DidSend(fnv)
    ensures Shadow(LogEmit(u, a, u.tasks[a], env), LogEmit(v, a, v.tasks[a], fnv), stim, past)
  {
    hide Shadow, EventId, Mid;
    PrefixGrows(v.tasks[a].trace, past[a]);
    ShadowTask(u, v, LogEmit(u, a, u.tasks[a], env), LogEmit(v, a, v.tasks[a], fnv), stim, past, a);
  }

  // --------------------------------------------------- counting and delivery

  lemma FollowDelivery(p: Program, w: World, q: Program, stim: seq<Envelope>, past: Past, u: World, v: World,
                    a: Name, u2: World) returns (v2: World)
    requires Pair(p, w, q, stim, past, u, v) && a in u.tasks && StepTask(p, u, a) == Some(u2)
    requires u.tasks[a].phase.Counted?
    ensures a in v.tasks && StepTask(q, v, a) == Some(v2) && Shadow(u2, v2, stim, past)
  {
    hide Pair, StepTask, TaskOk, Shadow, Deliver, Refuse, Setting;
    PairAt(p, w, q, stim, past, u, v, a);
    PairShadow(p, w, q, stim, past, u, v);
    var env, fnv := u.tasks[a].phase.env, v.tasks[a].phase.env;
    assert env.dst in u.tasks && env.dst in u.boxes by { HasReceiver(p, u, a, u2); }
    PairAt(p, w, q, stim, past, u, v, env.dst);
    StepOf(p, u, a);
    StepOf(q, v, a);
    if u.tasks[env.dst].phase.Aborted? {
      v2 := Refuse(v, a, v.tasks[a]);
      RefuseAlike(u, v, stim, past, a);
    } else {
      v2 := Deliver(v, a, v.tasks[a], fnv);
      DeliverAlike(u, v, stim, past, a, env, fnv);
    }
  }

  lemma HasReceiver(p: Program, u: World, a: Name, u2: World)
    requires a in u.tasks && u.tasks[a].phase.Counted? && StepTask(p, u, a) == Some(u2)
    ensures u.tasks[a].phase.env.dst in u.tasks && u.tasks[a].phase.env.dst in u.boxes
  {}

  lemma RefuseAlike(u: World, v: World, stim: seq<Envelope>, past: Past, a: Name)
    requires Shadow(u, v, stim, past) && a in past && a in u.tasks && a in v.tasks
    requires LikeTask(u.tasks[a], v.tasks[a], past[a]) && LikeShared(u, v)
    ensures Shadow(Refuse(u, a, u.tasks[a]), Refuse(v, a, v.tasks[a]), stim, past)
  {
    hide Shadow;
    ShadowTask(u, v, Refuse(u, a, u.tasks[a]), Refuse(v, a, v.tasks[a]), stim, past, a);
  }

  lemma DeliverAlike(u: World, v: World, stim: seq<Envelope>, past: Past, a: Name, env: Envelope, fnv: Envelope)
    requires Shadow(u, v, stim, past) && a in past && a in u.tasks && a in v.tasks
    requires LikeTask(u.tasks[a], v.tasks[a], past[a]) && LikeShared(u, v) && Like(env, fnv)
    requires env.dst in past && env.dst in u.boxes && env.dst in v.boxes && LikeBox(u.boxes[env.dst], v.boxes[env.dst])
    ensures Shadow(Deliver(u, a, u.tasks[a], env), Deliver(v, a, v.tasks[a], fnv), stim, past)
  {
    hide Shadow;
    ShadowMove(u, v, Deliver(u, a, u.tasks[a], env), Deliver(v, a, v.tasks[a], fnv), stim, past, a, env.dst);
  }

  lemma FollowCount(p: Program, w: World, q: Program, stim: seq<Envelope>, past: Past, u: World, v: World,
                    a: Name, u2: World) returns (v2: World)
    requires Pair(p, w, q, stim, past, u, v) && a in u.tasks && StepTask(p, u, a) == Some(u2)
    requires u.tasks[a].phase.Recorded? || u.tasks[a].phase.Undoing? || u.tasks[a].phase.Waking?
    ensures a in v.tasks && StepTask(q, v, a) == Some(v2) && Shadow(u2, v2, stim, past)
  {
    hide Pair, StepTask, TaskOk, Shadow, CountUp, CountDown, Notify, Setting;
    PairAt(p, w, q, stim, past, u, v, a);
    PairShadow(p, w, q, stim, past, u, v);
    StepOf(p, u, a);
    StepOf(q, v, a);
    match u.tasks[a].phase {
      case Recorded(env) =>
        v2 := CountUp(v, a, v.tasks[a], v.tasks[a].phase.env);
        CountUpAlike(u, v, stim, past, a, env, v.tasks[a].phase.env);
      case Undoing =>
        v2 := CountDown(v, a, v.tasks[a], true);
        CountDownAlike(u, v, stim, past, a, true);
      case Waking(back) =>
        v2 := Notify(v, a, v.tasks[a], back);
        NotifyAlike(u, v, stim, past, a, back);
    }
  }

  lemma CountUpAlike(u: World, v: World, stim: seq<Envelope>, past: Past, a: Name, env: Envelope, fnv: Envelope)
    requires Shadow(u, v, stim, past) && a in past && a in u.tasks && a in v.tasks
    requires LikeTask(u.tasks[a], v.tasks[a], past[a]) && LikeShared(u, v) && Like(env, fnv)
    ensures Shadow(CountUp(u, a, u.tasks[a], env), CountUp(v, a, v.tasks[a], fnv), stim, past)
  {
    hide Shadow;
    ShadowTask(u, v, CountUp(u, a, u.tasks[a], env), CountUp(v, a, v.tasks[a], fnv), stim, past, a);
  }

  lemma NotifyAlike(u: World, v: World, stim: seq<Envelope>, past: Past, a: Name, back: bool)
    requires Shadow(u, v, stim, past) && a in past && a in u.tasks && a in v.tasks
    requires LikeTask(u.tasks[a], v.tasks[a], past[a]) && LikeShared(u, v)
    ensures Shadow(Notify(u, a, u.tasks[a], back), Notify(v, a, v.tasks[a], back), stim, past)
  {
    hide Shadow;
    ShadowTask(u, v, Notify(u, a, u.tasks[a], back), Notify(v, a, v.tasks[a], back), stim, past, a);
  }

  lemma FollowTask(p: Program, w: World, q: Program, stim: seq<Envelope>, past: Past, u: World, v: World,
                    a: Name, u2: World) returns (v2: World)
    requires Pair(p, w, q, stim, past, u, v) && a in u.tasks && StepTask(p, u, a) == Some(u2)
    requires Ahead(u2, w) && NoDraws(w)
    ensures a in v.tasks && StepTask(q, v, a) == Some(v2) && Shadow(u2, v2, stim, past)
  {
    hide Pair, StepTask, Shadow, Ahead, NoDraws;
    match u.tasks[a].phase {
      case Fresh => v2 := FollowBegin(p, w, q, stim, past, u, v, a, u2);
      case Idle => v2 := FollowPop(p, w, q, stim, past, u, v, a, u2);
      case Popped(_) => v2 := FollowRecv(p, w, q, stim, past, u, v, a, u2);
      case Identified(_) => v2 := FollowEmit(p, w, q, stim, past, u, v, a, u2);
      case Counted(_) => v2 := FollowDelivery(p, w, q, stim, past, u, v, a, u2);
      case Acting =>
        if u.tasks[a].todo == [] {
          v2 := FollowEnd(p, w, q, stim, past, u, v, a, u2);
        } else if u.tasks[a].todo[0].Work? {
          v2 := FollowWork(p, w, q, stim, past, u, v, a, u2);
        } else {
          v2 := FollowDraw(p, w, q, stim, past, u, v, a, u2);
        }
      case Aborted(_) =>
        v2 := v;
        AbortedIsStuck(p, u, a);
      case _ => v2 := FollowCount(p, w, q, stim, past, u, v, a, u2);
    }
  }

  // ------------------------------------------------- the main thread, aborts

  /** Only the main thread's side of the state moves, alike on both sides. */
  lemma ShadowMain(u: World, v: World, u2: World, v2: World, stim: seq<Envelope>, past: Past)
    requires Shadow(u, v, stim, past) && u2.tasks == u.tasks && v2.tasks == v.tasks
    requires u2.boxes == u.boxes && v2.boxes == v.boxes && LikeShared(u2, v2) && LikeOrigins(u2, v2, stim)
    ensures Shadow(u2, v2, stim, past)
  {
    hide LikeTask, LikeBox, LikeMain, LikeShared, LikeOrigins;
  }

  lemma ShadowShared(u: World, v: World, stim: seq<Envelope>, past: Past)
    requires Shadow(u, v, stim, past)
    ensures LikeShared(u, v) && LikeOrigins(u, v, stim)
  {
    hide LikeTask, LikeBox, LikeMain, LikeShared, LikeOrigins;
  }

  lemma FollowOrigin(p: Program, w: World, q: Program, stim: seq<Envelope>, past: Past, u: World, v: World,
                     dst: Name, msg: Payload) returns (other: Payload)
    requires Pair(p, w, q, stim, past, u, v) && u.main.Injecting? && dst in p.names
    requires Ahead(DrawOrigin(u, dst, msg), w) && NoDraws(w)
    ensures v.main.Injecting? && dst in q.names && Shadow(DrawOrigin(u, dst, msg), DrawOrigin(v, dst, other), stim,
        past)
  {
    hide Pair, Shadow, Setting, OnLocal;
    PairShadow(p, w, q, stim, past, u, v);
    ShadowShared(u, v, stim, past);
    SettingNames(p, w, q, stim, past);
    var k := |u.origins|;
    var env := Outgoing(WORLD, OnLocal(ZERO, WORLD), u.nextId + 1, dst, msg);
    assert k < |w.origins| && w.origins[k] == env;
    StimulusAt(p, w, q, stim, past, k);
    other := stim[k].msg;
    ShadowMain(u, v, DrawOrigin(u, dst, msg), DrawOrigin(v, dst, other), stim, past);
  }

  lemma StimulusAt(p: Program, w: World, q: Program, stim: seq<Envelope>, past: Past, k: nat)
    requires Setting(p, w, q, stim, past) && k < |w.origins|
    ensures k < |stim| == |w.origins| && stim[k] == w.origins[k].(msg := stim[k].msg)
  {
    hide Recording, Explains;
  }

  lemma FollowMain(u: World, v: World, stim: seq<Envelope>, past: Past, u2: World) returns (v2: World)
    requires Shadow(u, v, stim, past) && StepMain(u) == Some(u2)
    ensures StepMain(v) == Some(v2) && Shadow(u2, v2, stim, past)
  {
    hide Shadow, LogOrigin, DeliverOrigin;
    ShadowShared(u, v, stim, past);
    match u.main {
      case Drawn(env) =>
        v2 := LogOrigin(v, v.main.env);
        LogOriginAlike(u, v, stim, past, env, v.main.env);
      case OriginCounted(env) =>
        OriginBox(u, v, stim, past, env.dst);
        v2 := DeliverOrigin(v, v.main.env);
        DeliverOriginAlike(u, v, stim, past, env, v.main.env);
      case _ =>
        v2 := FollowWait(u, v, stim, past, u2);
    }
  }

  lemma FollowWait(u: World, v: World, stim: seq<Envelope>, past: Past, u2: World) returns (v2: World)
    requires Shadow(u, v, stim, past) && LikeShared(u, v) && LikeOrigins(u, v, stim)
    requires StepMain(u) == Some(u2) && !u.main.Drawn? && !u.main.OriginCounted?
    ensures StepMain(v) == Some(v2) && Shadow(u2, v2, stim, past)
  {
    hide Shadow, LikeShared;
    match u.main {
      case Injecting =>
        v2 := v.(main := Checking);
        MainTo(u, v, stim, past, Checking, Checking, 0, u.permit);
      case OriginRecorded(env) =>
        v2 := v.(main := OriginCounted(v.main.env), inFlight := v.inFlight + 1);
        MainTo(u, v, stim, past, OriginCounted(env), OriginCounted(v.main.env), 1, u.permit);
      case Checking =>
        v2 := v.(main := if v.inFlight == 0 then Finished else Waiting);
        MainTo(u, v, stim, past, u2.main, u2.main, 0, u.permit) by { SharedCounter(u, v); }
        SharedCounter(u, v);
      case Waiting =>
        v2 := v.(main := Checking, permit := false);
        MainTo(u, v, stim, past, Checking, Checking, 0, false);
        SharedCounter(u, v);
    }
    SharedCounter(u, v);
  }

  lemma SharedCounter(u: World, v: World)
    requires LikeShared(u, v)
    ensures v.inFlight == u.inFlight && v.permit == u.permit
  {}

  lemma MainTo(u: World, v: World, stim: seq<Envelope>, past: Past, x: Main, y: Main, d: int, permit: bool)
    requires Shadow(u, v, stim, past) && LikeShared(u, v) && LikeOrigins(u, v, stim) && LikeMain(x, y) && !x.Drawn?
    ensures Shadow(u.(main := x, inFlight := u.inFlight + d, permit := permit),
                   v.(main := y, inFlight := v.inFlight + d, permit := permit), stim, past)
  {
    hide Shadow;
    ShadowMain(u, v, u.(main := x, inFlight := u.inFlight + d, permit := permit),
               v.(main := y, inFlight := v.inFlight + d, permit := permit), stim, past);
  }

  lemma OriginBox(u: World, v: World, stim: seq<Envelope>, past: Past, c: Name)
    requires Shadow(u, v, stim, past) && c in u.boxes
    ensures c in v.boxes && c in past && LikeBox(u.boxes[c], v.boxes[c])
  {
    hide LikeTask, LikeBox, LikeMain, LikeShared, LikeOrigins;
  }

  lemma LogOriginAlike(u: World, v: World, stim: seq<Envelope>, past: Past, env: Envelope, fnv: Envelope)
    requires Shadow(u, v, stim, past) && LikeShared(u, v) && LikeOrigins(u, v, stim)
    requires u.main == Drawn(env) && v.main == Drawn(fnv)
    ensures Shadow(LogOrigin(u, env), LogOrigin(v, fnv), stim, past)
  {
    hide Shadow, EventId, Mid;
    ShadowMain(u, v, LogOrigin(u, env), LogOrigin(v, fnv), stim, past);
  }

  lemma DeliverOriginAlike(u: World, v: World, stim: seq<Envelope>, past: Past, env: Envelope, fnv: Envelope)
    requires Shadow(u, v, stim, past) && LikeShared(u, v) && LikeOrigins(u, v, stim)
    requires u.main == OriginCounted(env) && v.main == OriginCounted(fnv)
    requires env.dst in past && env.dst in u.boxes && env.dst in v.boxes && LikeBox(u.boxes[env.dst], v.boxes[env.dst])
    ensures Shadow(DeliverOrigin(u, env), DeliverOrigin(v, fnv), stim, past)
  {
    hide Shadow;
    ShadowBox(u, v, DeliverOrigin(u, env), DeliverOrigin(v, fnv), stim, past, env.dst);
  }

  /** A box and the main thread move, alike on both sides. */
  lemma ShadowBox(u: World, v: World, u2: World, v2: World, stim: seq<Envelope>, past: Past, c: Name)
    requires Shadow(u, v, stim, past) && c in past && c in u2.boxes && c in v2.boxes
    requires u2.boxes == u.boxes[c := u2.boxes[c]] && v2.boxes == v.boxes[c := v2.boxes[c]]
    requires LikeBox(u2.boxes[c], v2.boxes[c]) && u2.tasks == u.tasks && v2.tasks == v.tasks
    requires LikeShared(u2, v2) && LikeOrigins(u2, v2, stim)
    ensures Shadow(u2, v2, stim, past)
  {
    hide LikeTask, LikeBox, LikeMain, LikeShared, LikeOrigins;
  }

  lemma AbortAlike(u: World, v: World, stim: seq<Envelope>, past: Past, a: Name)
    requires Shadow(u, v, stim, past) && a in past && a in u.tasks && a in v.tasks && a in u.boxes && a in v.boxes
    requires LikeTask(u.tasks[a], v.tasks[a], past[a]) && LikeShared(u, v)
    requires u.tasks[a].phase.Idle? || u.tasks[a].phase.Fresh?
    ensures v.tasks[a].phase == u.tasks[a].phase
    ensures Shadow(AbortTask(u, a, u.tasks[a]), AbortTask(v, a, v.tasks[a]), stim, past)
  {
    hide Shadow;
    ShadowMove(u, v, AbortTask(u, a, u.tasks[a]), AbortTask(v, a, v.tasks[a]), stim, past, a, a);
  }

  // ------------------------------------------------------------ the whole run

  /** Whatever the recorded program does next, the other can do the like. */
  lemma FollowNext(p: Program, w: World, q: Program, stim: seq<Envelope>, past: Past, u: World, v: World,
                   l: Label, u2: World) returns (m: Label, v2: World)
    requires Pair(p, w, q, stim, past, u, v) && Next(p, u, l) == Some(u2) && Ahead(u2, w) && NoDraws(w)
    ensures Next(q, v, m) == Some(v2) && Shadow(u2, v2, stim, past)
  {
    hide Pair, Shadow, Ahead, NoDraws, StepTask, StepMain, AbortTask, DrawOrigin;
    PairShadow(p, w, q, stim, past, u, v);
    match l {
      case TaskMove(a) =>
        v2 := FollowTask(p, w, q, stim, past, u, v, a, u2);
        m := l;
      case MainMove =>
        v2 := FollowMain(u, v, stim, past, u2);
        m := l;
      case Origin(dst, msg) =>
        var other := FollowOrigin(p, w, q, stim, past, u, v, dst, msg);
        m := Origin(dst, other);
        v2 := DrawOrigin(v, dst, other);
      case Abort(a) =>
        PairAt(p, w, q, stim, past, u, v, a);
        AbortAlike(u, v, stim, past, a);
        FinishedAlike(u, v, stim, past);
        m := l;
        v2 := AbortTask(v, a, v.tasks[a]);
    }
  }

  lemma FinishedAlike(u: World, v: World, stim: seq<Envelope>, past: Past)
    requires Shadow(u, v, stim, past) && u.main.Finished?
    ensures v.main.Finished?
  {
    hide LikeTask, LikeBox, LikeShared;
  }

  lemma ShadowInit(p: Program, w: World, q: Program, stim: seq<Envelope>, past: Past)
    requires Setting(p, w, q, stim, past)
    ensures Shadow(Init(p), Init(q), stim, past)
  {
    hide Recording, EventsOf, Project, Behave, IsSent, Restimulates;
  }

  lemma {:induction false} FollowRun(p: Program, w: World, q: Program, stim: seq<Envelope>, past: Past,
                                     ls: seq<Label>, k: nat, u: World) returns (ms: seq<Label>, v: World)
    requires Setting(p, w, q, stim, past) && NoDraws(w) && Exec(p, Init(p), ls) == Some(w)
    requires k <= |ls| && Exec(p, Init(p), ls[..k]) == Some(u)
    ensures Exec(q, Init(q), ms) == Some(v) && Shadow(u, v, stim, past)
  {
    hide Setting, Next, Init, Shadow, NoDraws, Inv, Ahead, Program.Addressed;
    if k == 0 {
      ShadowInit(p, w, q, stim, past);
      ms, v := [], Init(q);
    } else {
      assert ls[..k][..k - 1] == ls[..k - 1];
      var x := Exec(p, Init(p), ls[..k - 1]).value;
      var before, y := FollowRun(p, w, q, stim, past, ls, k - 1, x);
      SettingNames(p, w, q, stim, past);
      InvExec(p, ls[..k - 1], x);
      InvExec(q, before, y);
      AheadRun(p, ls, k - 1, x, w);
      AheadRun(p, ls, k, u, w);
      var m;
      m, v := FollowNext(p, w, q, stim, past, x, y, ls[k - 1], u);
      ms := before + [m];
      assert ms[..|before|] == before;
    }
  }

  /** A run of `q` on the stimuli `stim` that leaves `log` and owes it nothing. */
  ghost predicate CompleteRun(q: Program, v: World, log: seq<CausalEvent>, stim: seq<Envelope>) {
    Reachable(q, v) && v.log == log && v.origins == stim && AllClear(q, v)
  }

  /** At the end of the followed run nothing is left to do. */
  lemma FollowedIsComplete(p: Program, w: World, q: Program, stim: seq<Envelope>, past: Past, v: World)
    requires Setting(p, w, q, stim, past) && Inv(q, v) && Shadow(w, v, stim, past)
    ensures v.log == w.log && v.origins == stim && AllClear(q, v)
  {
    hide Setting, Inv, TaskOk, LikeBox;
    SettingNames(p, w, q, stim, past);
    SameStimuli(p, w, q, stim, past);
    forall a | a in q.names ensures Clear(q, v, a) {
      Shares(p, w, q, stim, past, a);
      TaskOf(q, v, a);
      ShadowOf(w, v, stim, past, a);
      EndIsClear(q, a, w.tasks[a], v.tasks[a], past[a]);
    }
  }

  lemma SameStimuli(p: Program, w: World, q: Program, stim: seq<Envelope>, past: Past)
    requires Setting(p, w, q, stim, past)
    ensures |stim| == |w.origins|
  {
    hide Recording, Explains;
  }

  lemma EndIsClear(q: Program, a: Name, t: Task, s: Task, past: seq<Done>)
    requires TaskOk(q, a, s) && LikeTask(t, s, past) && |past| == |t.trace|
    requires Behave(q, a, past).Some? && Behave(q, a, past).value.1 == []
    ensures Owed(q, a, s) == []
  {
    hide PhaseOk, Behave, LikePhase;
    assert s.trace == past;
  }

  /** Whatever log a complete run of the code leaves, that code replays faithfully, in
      any order that respects the poset. */
  lemma CompleteRunReplays(q: Program, v: World, order: seq<nat>)
    requires q.WellFormed() && CompleteRun(q, v, v.log, v.origins) && |v.origins| <= 1 && FitsWidth(v.log)
    requires IsExtension(LogEdges(v.log), |v.log|, order) && Positions(v.log, order)
    ensures Replay(q, v.log, Timeline(v.log, order), Supplied(v)).divergences == []
  {
    hide Inv, Reachable, LogEdges, IsExtension, Replay, AllClear, FitsWidth, Program.Addressed;
    ReachableInv(q, v);
    FaithfulIff(q, v, order);
  }

  /** The other code can be led to exactly the recorded log. */
  lemma ExplainedIsRun(p: Program, w: World, q: Program, stim: seq<Envelope>, past: Past) returns (v: World)
    requires OneOrigin(p, w) && FitsWidth(w.log) && NoDraws(w)
    requires q.WellFormed() && q.names == p.names && Restimulates(w, stim) && Explains(q, w.log, stim, past)
    ensures CompleteRun(q, v, w.log, stim)
  {
    hide Inv, Shadow, NoDraws, Restimulates, Explains, FitsWidth, AllClear, Program.Addressed, Init;
    RunStamped(p, w);
    var ls: seq<Label> :| Exec(p, Init(p), ls) == Some(w);
    assert ls[..|ls|] == ls;
    var ms;
    ms, v := FollowRun(p, w, q, stim, past, ls, |ls|, w);
    InvExec(q, ms, v);
    FollowedIsComplete(p, w, q, stim, past, v);
  }

  /** Drift, over runs: other code replays a run's log faithfully exactly when it has a
      run of its own, on the stimuli it is given, that leaves that very log and nothing
      undone. A snapshot taken between the drawing of a number and the logging of its
      send is left out, and has to be: see `Gaps.GapInNumbers`. */
  lemma RunDriftIff(p: Program, w: World, q: Program, stim: seq<Envelope>, order: seq<nat>)
    requires OneOrigin(p, w) && NoDraws(w) && q.WellFormed() && q.names == p.names && Restimulates(w, stim)
    requires IsExtension(LogEdges(w.log), |w.log|, order) && Positions(w.log, order)
    ensures Replay(q, w.log, Timeline(w.log, order), SuppliedAs(w, stim)).divergences == [] <==>
            FitsWidth(w.log) && exists v :: CompleteRun(q, v, w.log, stim)
  {
    hide Inv, Reachable, LogEdges, IsExtension, Replay, Explains, Restimulates, NoDraws, CompleteRun, FitsWidth,
        SuppliedAs,
        Program.Addressed;
    RunStamped(p, w);
    if Replay(q, w.log, Timeline(w.log, order), SuppliedAs(w, stim)).divergences == [] {
      RunFits(p, w, q, Timeline(w.log, order), SuppliedAs(w, stim));
      var past := FaithfulHasHistory(p, w, q, stim, Timeline(w.log, order));
      var v := ExplainedIsRun(p, w, q, stim, past);
    }
    if FitsWidth(w.log) {
      if v :| CompleteRun(q, v, w.log, stim) { RunReplays(p, w, q, stim, v, order); }
    }
  }

  lemma RunReplays(p: Program, w: World, q: Program, stim: seq<Envelope>, v: World, order: seq<nat>)
    requires |w.origins| <= 1 && FitsWidth(w.log) && q.WellFormed() && Restimulates(w, stim)
    requires IsExtension(LogEdges(w.log), |w.log|, order) && Positions(w.log, order)
    requires CompleteRun(q, v, w.log, stim)
    ensures Replay(q, w.log, Timeline(w.log, order), SuppliedAs(w, stim)).divergences == []
  {
    hide Inv, Reachable, LogEdges, IsExtension, Replay, AllClear, FitsWidth, Program.Addressed;
    assert SuppliedAs(w, stim) == Supplied(v);
    CompleteRunReplays(q, v, order);
  }

  /** A snapshot whose drawn numbers have all been logged; a quiet one; and one in which
      every task has finished what it had to do while the main thread is between
      injections. */
  lemma NoDrawsWhen(p: Program, w: World)
    requires Inv(p, w)
    ensures (forall id | id in w.place :: id in w.sentAt) ==> NoDraws(w)
    ensures Quiet(w) ==> NoDraws(w)
    ensures AllClear(p, w) && !w.main.Drawn? ==> NoDraws(w)
  {
    hide TasksOk, LogOk, WellStamped, IdsOk, OriginMsgs, TraceMsgs, BoxMsgs;
    if forall id | id in w.place :: id in w.sentAt {
      forall a | a in w.tasks ensures !w.tasks[a].phase.Identified? { assert ActorMsgs(p, w, a); }
    }
    if AllClear(p, w) {
      forall a | a in w.tasks ensures !w.tasks[a].phase.Identified? { assert Clear(p, w, a); }
    }
  }
}
