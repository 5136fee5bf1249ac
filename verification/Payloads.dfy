/** Replay never looks at payloads: code that differs in the values it computes and
    sends, but asks its context for the same things, gets the same verdict on every
    log. Where a stimulus is addressed is not looked at either. */
module Payloads {
  import opened Names
  import opened Clocks
  import opened Events
  import opened Replays

  type PayloadRel = (Payload, Payload) -> bool
  type StateRel = (Name, UserState, UserState) -> bool

  ghost predicate ActRel(R: PayloadRel, x: Action, y: Action) {
    match (x, y)
    case (Work, Work) => true
    case (Send(d, m), Send(e, n)) => d == e && R(m, n)
    case _ => false
  }

  ghost predicate ActsRel(R: PayloadRel, xs: seq<Action>, ys: seq<Action>) {
    |xs| == |ys| && forall i | 0 <= i < |xs| :: ActRel(R, xs[i], ys[i])
  }

  /** Related inputs give related states, and the same actions up to payloads. */
  ghost predicate Related(p: Program, q: Program, R: PayloadRel, H: StateRel) {
    && q.names == p.names
    && (forall a | a in p.names :: H(a, p.init(a), q.init(a)))
    && (forall a, s, t | a in p.names && H(a, s, t) ::
          H(a, p.start(a, s).0, q.start(a, t).0) && ActsRel(R, p.start(a, s).1, q.start(a, t).1))
    && (forall a, s, t, m, n | a in p.names && H(a, s, t) && R(m, n) ::
          H(a, p.handle(a, s, m).0, q.handle(a, t, n).0) && ActsRel(R, p.handle(a, s, m).1, q.handle(a, t, n).1))
  }

  /** The same stimuli up to payloads, sent wherever. */
  ghost predicate StimuliRel(R: PayloadRel, xs: seq<(Name, Payload)>, ys: seq<(Name, Payload)>) {
    |xs| == |ys| && forall i | 0 <= i < |xs| :: R(xs[i].1, ys[i].1)
  }

  ghost predicate EnvRel(R: PayloadRel, e: Envelope, f: Envelope) {
    f == e.(msg := f.msg, dst := f.dst) && R(e.msg, f.msg)
  }

  ghost predicate PendingRel(R: PayloadRel, x: map<nat, Envelope>, y: map<nat, Envelope>) {
    x.Keys == y.Keys && forall m | m in x :: EnvRel(R, x[m], y[m])
  }

  ghost predicate ActorsRel(p: Program, H: StateRel, x: map<Name, UserState>, y: map<Name, UserState>) {
    x.Keys == y.Keys == p.names && forall a | a in x :: H(a, x[a], y[a])
  }

  /** Two replay states in step: everything a verdict can depend on is equal. */
  ghost predicate InStep(p: Program, R: PayloadRel, H: StateRel, x: State, y: State) {
    && ActorsRel(p, H, x.actors, y.actors) && PendingRel(R, x.pending, y.pending)
    && y.clocks == x.clocks && y.sends == x.sends && y.divergences == x.divergences
    && y.produced == x.produced && y.made == x.made
  }

  lemma VerdictsAgree(log: seq<CausalEvent>, x: State, y: State, e: CausalEvent)
    requires y.divergences == x.divergences && y.produced == x.produced && y.made == x.made
    ensures Verify(log, y, e).divergences == Verify(log, x, e).divergences
    ensures Verify(log, y, e).produced == Verify(log, x, e).produced
    ensures Verify(log, y, e).made == Verify(log, x, e).made
  {
    hide Mismatch;
    var verdict := Mismatch(log, e);
    if verdict.None? {
      assert Verify(log, y, e) == y.(produced := y.produced + {e.id}, made := y.made + [e]);
    } else {
      assert Verify(log, y, e).made == y.made + [e] && Verify(log, x, e).made == x.made + [e];
    }
  }

  lemma VerifyInStep(p: Program, R: PayloadRel, H: StateRel, log: seq<CausalEvent>, x: State, y: State, e: CausalEvent)
    requires InStep(p, R, H, x, y)
    ensures InStep(p, R, H, Verify(log, x, e), Verify(log, y, e))
  {
    hide Verify, ActorsRel, PendingRel;
    VerifyKeeps(log, x, e);
    VerifyKeeps(log, y, e);
    VerdictsAgree(log, x, y, e);
  }

  lemma NextMsgIdInStep(p: Program, R: PayloadRel, H: StateRel, log: seq<CausalEvent>, x: State, y: State, a: Name)
    requires InStep(p, R, H, x, y)
    ensures InStep(p, R, H, NextMsgId(log, x, a).0, NextMsgId(log, y, a).0)
    ensures NextMsgId(log, x, a).1 == NextMsgId(log, y, a).1
  {
    hide RecordedId, SendLabel, ActorsRel, PendingRel;
  }

  lemma StashInStep(p: Program, R: PayloadRel, H: StateRel, x: State, y: State, e: Envelope, f: Envelope)
    requires InStep(p, R, H, x, y) && EnvRel(R, e, f)
    ensures InStep(p, R, H, Stash(x, e), Stash(y, f))
  {
    hide ActorsRel;
  }

  lemma ActInStep(p: Program, R: PayloadRel, H: StateRel, log: seq<CausalEvent>, x: State, y: State, a: Name,
                  act: Action, bct: Action)
    requires InStep(p, R, H, x, y) && ActRel(R, act, bct)
    ensures InStep(p, R, H, Act(log, x, a, act), Act(log, y, a, bct))
  {
    hide Verify, NextMsgId, Stash, EventId, Mid, Increment, ActorsRel, PendingRel;
    var s := OnLocal(StampIn(x, a), a);
    match act
    case Work =>
      VerifyInStep(p, R, H, log, x, y, ComputeEvent(a, s));
    case Send(dst, msg) =>
      NextMsgIdInStep(p, R, H, log, x, y, a);
      var (named, id) := NextMsgId(log, x, a);
      var (other, _) := NextMsgId(log, y, a);
      var env, fnv := Outgoing(a, s, id, dst, msg), Outgoing(a, s, id, dst, bct.msg);
      var e := EmitEvent(a, s.seqNo, env);
      assert EmitEvent(a, s.seqNo, fnv) == e;
      VerifyInStep(p, R, H, log, named, other, e);
      StashInStep(p, R, H, Verify(log, named, e), Verify(log, other, e), env, fnv);
  }

  lemma {:induction false} ActAllInStep(p: Program, R: PayloadRel, H: StateRel, log: seq<CausalEvent>, x: State,
          y: State,
                                        a: Name, acts: seq<Action>, bcts: seq<Action>)
    requires InStep(p, R, H, x, y) && ActsRel(R, acts, bcts)
    ensures InStep(p, R, H, ActAll(log, x, a, acts), ActAll(log, y, a, bcts))
    decreases |acts|
  {
    hide Act, InStep, ActRel;
    if acts != [] {
      ActInStep(p, R, H, log, x, y, a, acts[0], bcts[0]);
      ActAllInStep(p, R, H, log, Act(log, x, a, acts[0]), Act(log, y, a, bcts[0]), a, acts[1..], bcts[1..]);
    }
  }

  lemma RelatedRun(p: Program, q: Program, R: PayloadRel, H: StateRel, a: Name, s: UserState, t: UserState,
                   msg: Option<Payload>, nsg: Option<Payload>)
    requires Related(p, q, R, H) && a in p.names && H(a, s, t)
    requires msg.Some? <==> nsg.Some?
    requires msg.Some? ==> R(msg.value, nsg.value)
    ensures var (u, acts) := match msg case None => p.start(a, s) case Some(m) => p.handle(a, s, m);
      var (v, bcts) := match nsg case None => q.start(a, t) case Some(n) => q.handle(a, t, n);
      H(a, u, v) && ActsRel(R, acts, bcts)
  {
    hide ActsRel;
  }

  lemma ActorInStep(p: Program, R: PayloadRel, H: StateRel, x: State, y: State, a: Name, u: UserState, v: UserState)
    requires InStep(p, R, H, x, y) && a in p.names && H(a, u, v)
    ensures InStep(p, R, H, x.(actors := x.actors[a := u]), y.(actors := y.actors[a := v]))
  {
    hide PendingRel;
  }

  lemma DriveInStep(p: Program, q: Program, R: PayloadRel, H: StateRel, log: seq<CausalEvent>, x: State, y: State,
                    a: Name, msg: Option<Payload>, nsg: Option<Payload>)
    requires Related(p, q, R, H) && InStep(p, R, H, x, y) && a in x.actors
    requires msg.Some? <==> nsg.Some?
    requires msg.Some? ==> R(msg.value, nsg.value)
    ensures a in y.actors && InStep(p, R, H, Drive(p, log, x, a, msg), Drive(q, log, y, a, nsg))
  {
    hide ActAll, ActsRel, InStep, Related;
    ActorHere(p, R, H, x, y, a);
    var (s, t) := (x.actors[a], y.actors[a]);
    var (u, acts) := match msg case None => p.start(a, s) case Some(m) => p.handle(a, s, m);
    var (v, bcts) := match nsg case None => q.start(a, t) case Some(n) => q.handle(a, t, n);
    RelatedRun(p, q, R, H, a, s, t, msg, nsg);
    ActorInStep(p, R, H, x, y, a, u, v);
    ActAllInStep(p, R, H, log, x.(actors := x.actors[a := u]), y.(actors := y.actors[a := v]), a, acts, bcts);
  }

  lemma ActorHere(p: Program, R: PayloadRel, H: StateRel, x: State, y: State, a: Name)
    requires InStep(p, R, H, x, y) && a in x.actors
    ensures a in p.names && a in y.actors && H(a, x.actors[a], y.actors[a])
  {}

  lemma {:induction false} StartsInStep(p: Program, q: Program, R: PayloadRel, H: StateRel, log: seq<CausalEvent>,
                                        x: State, y: State, rest: set<Name>)
    requires Related(p, q, R, H) && InStep(p, R, H, x, y) && rest <= x.actors.Keys
    ensures rest <= y.actors.Keys && InStep(p, R, H, StartAll(p, log, x, rest), StartAll(q, log, y, rest))
    decreases |rest|
  {
    hide Drive, Related, PendingRel;
    if rest != {} {
      var a := LeastName(rest);
      ActorsKept(p, log, x, a, None);
      ActorsKept(q, log, y, a, None);
      DriveInStep(p, q, R, H, log, x, y, a, None, None);
      StartsInStep(p, q, R, H, log, Drive(p, log, x, a, None), Drive(q, log, y, a, None), rest - {a});
    }
  }

  lemma RecvInStep(p: Program, q: Program, R: PayloadRel, H: StateRel, log: seq<CausalEvent>, x: State, y: State,
                   ev: CausalEvent)
    requires Related(p, q, R, H) && InStep(p, R, H, x, y)
    ensures InStep(p, R, H, ReplayRecv(p, log, x, ev), ReplayRecv(q, log, y, ev))
  {
    hide Drive, Verify, Related, ParseMid, OnRecv, EventId, Mid;
    var m := if ev.msgId.Some? then ParseMid(ev.msgId.value) else None;
    if ev.op == Recv && m.Some? && m.value in x.pending {
      var a, e, f := ev.actor, x.pending[m.value], y.pending[m.value];
      assert EnvRel(R, e, f);
      var s := OnRecv(StampIn(x, a), a, e.vclock, e.lamport);
      var open := x.(pending := x.pending - {m.value}, clocks := x.clocks[a := s]);
      var oben := y.(pending := y.pending - {m.value}, clocks := y.clocks[a := s]);
      VerifyInStep(p, R, H, log, open, oben, RecvEvent(a, s, e));
      var taken, laken := Verify(log, open, RecvEvent(a, s, e)), Verify(log, oben, RecvEvent(a, s, e));
      if a in taken.actors { DriveInStep(p, q, R, H, log, taken, laken, a, Some(e.msg), Some(f.msg)); }
    }
  }

  lemma {:induction false} RecvsInStep(p: Program, q: Program, R: PayloadRel, H: StateRel, log: seq<CausalEvent>,
                                       x: State, y: State, tl: seq<CausalEvent>)
    requires Related(p, q, R, H) && InStep(p, R, H, x, y)
    ensures InStep(p, R, H, ReplayAll(p, log, x, tl), ReplayAll(q, log, y, tl))
  {
    hide ReplayRecv, Related, InStep;
    if tl != [] {
      RecvsInStep(p, q, R, H, log, x, y, tl[..|tl| - 1]);
      RecvInStep(p, q, R, H, log, ReplayAll(p, log, x, tl[..|tl| - 1]), ReplayAll(q, log, y, tl[..|tl| - 1]),
          tl[|tl| - 1]);
    }
  }

  lemma {:induction false} SeedsInStep(p: Program, R: PayloadRel, H: StateRel, x: State, y: State,
          wes: seq<CausalEvent>,
                                       xs: seq<(Name, Payload)>, ys: seq<(Name, Payload)>)
    requires InStep(p, R, H, x, y) && StimuliRel(R, xs, ys)
    ensures InStep(p, R, H, SeedAll(x, wes, xs), SeedAll(y, wes, ys))
  {
    hide SeedOne, InStep;
    if wes != [] {
      var front, k := wes[..|wes| - 1], |wes| - 1;
      SeedsInStep(p, R, H, x, y, front, xs, ys);
      SeedInStep(p, R, H, SeedAll(x, front, xs), SeedAll(y, front, ys), wes[k], xs, ys, k);
    }
  }

  lemma SeedInStep(p: Program, R: PayloadRel, H: StateRel, x: State, y: State, we: CausalEvent,
                   xs: seq<(Name, Payload)>, ys: seq<(Name, Payload)>, k: nat)
    requires InStep(p, R, H, x, y) && StimuliRel(R, xs, ys)
    ensures InStep(p, R, H, SeedOne(x, we, xs, k), SeedOne(y, we, ys, k))
  {
    hide ParseMid, VclockFrom, ActorsRel, PendingRel, Stash;
    var m := if we.msgId.Some? then ParseMid(we.msgId.value) else None;
    if m.Some? && k < |xs| {
      var e := Envelope(xs[k].1, VclockFrom(we.vclock), we.lamport, m.value, WORLD, xs[k].0);
      var f := Envelope(ys[k].1, VclockFrom(we.vclock), we.lamport, m.value, WORLD, ys[k].0);
      StashInStep(p, R, H, x.(produced := x.produced + {we.id}), y.(produced := y.produced + {we.id}), e, f);
    }
  }

  lemma {:induction false} CompleteInStep(p: Program, R: PayloadRel, H: StateRel, x: State, y: State,
          log: seq<CausalEvent>)
    requires InStep(p, R, H, x, y)
    ensures InStep(p, R, H, Complete(x, log), Complete(y, log))
  {
    hide ActorsRel, PendingRel;
    if log != [] { CompleteInStep(p, R, H, x, y, log[..|log| - 1]); }
  }

  /** On every log, timeline and stimulus, related code on related stimuli replays in
      step: same divergences, same clocks, same re-executed events. */
  lemma PayloadBlind(p: Program, q: Program, R: PayloadRel, H: StateRel, log: seq<CausalEvent>, tl: seq<CausalEvent>,
                     xs: seq<(Name, Payload)>, ys: seq<(Name, Payload)>)
    requires Related(p, q, R, H) && StimuliRel(R, xs, ys)
    ensures var r, t := Replay(p, log, tl, xs), Replay(q, log, tl, ys);
      t.divergences == r.divergences && t.made == r.made && t.clocks == r.clocks && t.sends == r.sends
  {
    hide SeedAll, StartAll, ReplayAll, Complete, EmitsOf, Related, StimuliRel;
    assert InStep(p, R, H, Start(p), Start(q)) by { StartInStep(p, q, R, H); }
    var wes := EmitsOf(log, WORLD);
    SeedsInStep(p, R, H, Start(p), Start(q), wes, xs, ys);
    SeedKeepsActors(Start(p), wes, xs);
    SeedKeepsActors(Start(q), wes, ys);
    var x0, y0 := SeedAll(Start(p), wes, xs), SeedAll(Start(q), wes, ys);
    StartsInStep(p, q, R, H, log, x0, y0, p.names);
    assert q.names == p.names by { SameNames(p, q, R, H); }
    var x1, y1 := StartAll(p, log, x0, p.names), StartAll(q, log, y0, p.names);
    RecvsInStep(p, q, R, H, log, x1, y1, tl);
    CompleteInStep(p, R, H, ReplayAll(p, log, x1, tl), ReplayAll(q, log, y1, tl), log);
  }

  lemma SameNames(p: Program, q: Program, R: PayloadRel, H: StateRel)
    requires Related(p, q, R, H)
    ensures q.names == p.names
  {}

  lemma StartInStep(p: Program, q: Program, R: PayloadRel, H: StateRel)
    requires Related(p, q, R, H)
    ensures InStep(p, R, H, Start(p), Start(q))
  {}

  // ------------------------------------------- code whose actions have one shape

  ghost predicate SameShape(xs: seq<Action>, ys: seq<Action>) {
    |xs| == |ys| && forall i | 0 <= i < |xs| ::
      match (xs[i], ys[i]) case (Work, Work) => true case (Send(d, _), Send(e, _)) => d == e case _ => false
  }

  /** The value a handler computes with and sends makes no difference at all when every
      hook and handler asks for the same shape of actions whatever it is given: a worker
      that sends three times its input instead of twice is never noticed. */
  lemma ValuesUnseen(p: Program, q: Program, log: seq<CausalEvent>, tl: seq<CausalEvent>,
                     xs: seq<(Name, Payload)>, ys: seq<(Name, Payload)>)
    requires q.names == p.names && |xs| == |ys|
    requires forall a, s, t | a in p.names :: SameShape(p.start(a, s).1, q.start(a, t).1)
    requires forall a, s, t, m, n | a in p.names :: SameShape(p.handle(a, s, m).1, q.handle(a, t, n).1)
    ensures Replay(q, log, tl, ys).divergences == Replay(p, log, tl, xs).divergences
  {
    hide Replay;
    var R: PayloadRel := (_, _) => true;
    var H: StateRel := (_, _, _) => true;
    forall a, s, t | a in p.names ensures ActsRel(R, p.start(a, s).1, q.start(a, t).1) {
      assert SameShape(p.start(a, s).1, q.start(a, t).1);
    }
    forall a, s, t, m, n | a in p.names ensures ActsRel(R, p.handle(a, s, m).1, q.handle(a, t, n).1) {
      assert SameShape(p.handle(a, s, m).1, q.handle(a, t, n).1);
    }
    PayloadBlind(p, q, R, H, log, tl, xs, ys);
  }

  /** A stimulus supplied for the wrong actor is never noticed. */
  lemma AddressUnseen(p: Program, log: seq<CausalEvent>, tl: seq<CausalEvent>,
                      xs: seq<(Name, Payload)>, ys: seq<(Name, Payload)>)
    requires |xs| == |ys| && forall i | 0 <= i < |xs| :: xs[i].1 == ys[i].1
    ensures Replay(p, log, tl, ys).divergences == Replay(p, log, tl, xs).divergences
  {
    hide Replay;
    var R: PayloadRel := (m, n) => m == n;
    var H: StateRel := (_, s, t) => s == t;
    PayloadBlind(p, p, R, H, log, tl, xs, ys);
  }
}
