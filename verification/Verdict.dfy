/** What an empty divergence list says about an arbitrary log, program and order:
    the log need not come from the recorder. */
module Verdict {
  import opened Names
  import opened Clocks
  import opened Events
  import opened Logs
  import opened Posets
  import opened Replays
  import opened Recall
  import opened Simulation
  import opened Fidelity

  function Key(e: CausalEvent): Option<nat> { if e.msgId.Some? then ParseMid(e.msgId.value) else None }

  predicate IsStimulus(e: CausalEvent) { e.op == Emit && e.actor == WORLD }

  function EmitCount(es: seq<CausalEvent>, a: Name): nat {
    if es == [] then 0
    else
      var e := es[|es| - 1];
      EmitCount(es[..|es| - 1], a) + if e.op == Emit && e.actor == a then 1 else 0
  }

  ghost predicate IsRecorded(log: seq<CausalEvent>, e: CausalEvent) { e.id in ById(log) && ById(log)[e.id] == e }

  ghost predicate MadeOk(p: Program, log: seq<CausalEvent>, st: State, e: CausalEvent) {
    && e.actor in p.names && e.id == EventId(e.actor, e.seqNo) && 1 <= e.seqNo <= Cut(st, e.actor)
    && IsRecorded(log, e) && Readable(e)
  }

  /** A send whose message number can be read back from the log. */
  ghost predicate Readable(e: CausalEvent) { e.op == Emit ==> Key(e).Some? }

  /** Every re-executed event is the recorded one, each line is re-executed once, and
      nothing else counts as produced but the supplied origins. */
  ghost predicate Judged(p: Program, log: seq<CausalEvent>, st: State) {
    && st.actors.Keys == p.names
    && (forall k | 0 <= k < |st.made| :: MadeOk(p, log, st, st.made[k]))
    && (forall j, k | 0 <= j < k < |st.made| && st.made[j].actor == st.made[k].actor ::
          st.made[j].seqNo != st.made[k].seqNo)
    && (forall id | id in st.produced :: Attributed(log, st, id))
    && (forall a | a in p.names :: SendsIn(st, a) == EmitCount(st.made, a))
  }

  ghost predicate Attributed(log: seq<CausalEvent>, st: State, id: string) {
    || (exists k | 0 <= k < |st.made| :: st.made[k].id == id)
    || (exists i | 0 <= i < |log| :: log[i].id == id && IsStimulus(log[i]))
  }

  /** One re-executed event `e` of `a`, verified without complaint. */
  ghost predicate Step(log: seq<CausalEvent>, st: State, next: State, a: Name, e: CausalEvent) {
    && next.made == st.made + [e] && next.produced == st.produced + {e.id}
    && e.actor == a && e.seqNo == Cut(st, a) + 1 && e.id == EventId(a, e.seqNo) && IsRecorded(log, e)
    && Readable(e)
    && next.actors.Keys == st.actors.Keys
    && (forall b :: Cut(next, b) == Cut(st, b) + if b == a then 1 else 0)
    && (forall b :: SendsIn(next, b) == SendsIn(st, b) + if b == a && e.op == Emit then 1 else 0)
  }

  lemma EmitCountAppend(es: seq<CausalEvent>, e: CausalEvent, a: Name)
    ensures EmitCount(es + [e], a) == EmitCount(es, a) + if e.op == Emit && e.actor == a then 1 else 0
  {
    assert (es + [e])[..|es|] == es;
  }

  lemma JudgedStep(p: Program, log: seq<CausalEvent>, st: State, next: State, a: Name, e: CausalEvent)
    requires Judged(p, log, st) && Step(log, st, next, a, e) && a in p.names
    ensures Judged(p, log, next)
  {
    hide Cut, SendsIn, EventId, IsRecorded, IsStimulus, EmitCount, Readable;
    forall b | b in p.names ensures SendsIn(next, b) == EmitCount(next.made, b) { EmitCountAppend(st.made, e, b); }
    forall k | 0 <= k < |next.made| ensures MadeOk(p, log, next, next.made[k]) {
      if k < |st.made| { assert MadeOk(p, log, st, st.made[k]); }
    }
    forall id | id in next.produced ensures Attributed(log, next, id) { AttributedAfter(log, st, next, e, id); }
    forall j, k | 0 <= j < k < |next.made| && next.made[j].actor == next.made[k].actor
      ensures next.made[j].seqNo != next.made[k].seqNo
    {
      assert MadeOk(p, log, st, st.made[j]);
    }
  }

  lemma AttributedAfter(log: seq<CausalEvent>, st: State, next: State, e: CausalEvent, id: string)
    requires next.made == st.made + [e] && (id == e.id || Attributed(log, st, id))
    ensures Attributed(log, next, id)
  {
    hide IsStimulus;
    if id == e.id {
      assert next.made[|st.made|].id == id;
    } else if k :| 0 <= k < |st.made| && st.made[k].id == id {
      assert next.made[k].id == id;
    }
  }

  // ------------------------------------------------------------- the messages

  /** No two emits of the log are read as the same numeric message id. */
  ghost predicate EmitKeysDistinct(log: seq<CausalEvent>) {
    forall i, j | 0 <= i < j < |log| && log[i].op == Emit == log[j].op && Key(log[i]).Some? ::
        Key(log[i]) != Key(log[j])
  }

  /** Canonical ids that `build` finds unique are distinct as numbers too. */
  lemma CanonicalKeysDistinct(log: seq<CausalEvent>, ids: map<int, nat>)
    requires UniqueEmits(log)
    requires forall i | 0 <= i < |log| && log[i].op == Emit ::
               i in ids && ids[i] <= U64_MAX && log[i].msgId == Some(Mid(ids[i]))
    ensures EmitKeysDistinct(log)
  {
    hide Mid, ParseMid;
    forall i | 0 <= i < |log| && log[i].op == Emit ensures Key(log[i]) == Some(ids[i]) { ParseMidRoundTrip(ids[i]); }
    forall i, j | 0 <= i < j < |log| && log[i].op == Emit == log[j].op ensures Key(log[i]) != Key(log[j]) {
      assert log[i].msgId != log[j].msgId;
      assert i in ids && j in ids;
    }
  }

  /** The message numbered `m` has been sent: by a handler, or from outside. */
  ghost predicate Source(log: seq<CausalEvent>, st: State, m: nat) {
    || (exists k | 0 <= k < |st.made| :: st.made[k].op == Emit && Key(st.made[k]) == Some(m))
    || (exists i | 0 <= i < |log| :: IsStimulus(log[i]) && Key(log[i]) == Some(m))
  }

  ghost predicate Unreceived(st: State, m: nat) {
    forall k | 0 <= k < |st.made| && st.made[k].op == Recv :: Key(st.made[k]) != Some(m)
  }

  ghost predicate Tracked(log: seq<CausalEvent>, st: State) {
    && (forall m | m in st.pending ::
          st.pending[m].msgId == m && m <= U64_MAX && Source(log, st, m) && Unreceived(st, m))
    && (forall k | 0 <= k < |st.made| && st.made[k].op == Recv ::
          Key(st.made[k]).Some? && Source(log, st, Key(st.made[k]).value))
    && (forall j, k | 0 <= j < k < |st.made| && st.made[j].op == Recv == st.made[k].op ::
          Key(st.made[j]) != Key(st.made[k]))
  }

  lemma SourceAfter(log: seq<CausalEvent>, st: State, next: State, e: CausalEvent, m: nat)
    requires next.made == st.made + [e] && Source(log, st, m)
    ensures Source(log, next, m)
  {
    hide Key, IsStimulus;
    if k :| 0 <= k < |st.made| && st.made[k].op == Emit && Key(st.made[k]) == Some(m) {
      assert next.made[k].op == Emit;
    }
  }

  lemma RecordedIn(log: seq<CausalEvent>, e: CausalEvent) returns (i: nat)
    requires IsRecorded(log, e)
    ensures i < |log| && log[i] == e
  {
    hide ById;
    i := ByIdHolds(log, e.id);
  }

  lemma SameKeySameEmit(log: seq<CausalEvent>, i: nat, j: nat)
    requires EmitKeysDistinct(log) && i < |log| && j < |log| && log[i].op == Emit == log[j].op
    requires Key(log[i]).Some? && Key(log[i]) == Key(log[j])
    ensures i == j
  {
    hide Key;
  }

  /** A message just sent again for the first time cannot have been received. */
  lemma FirstSent(p: Program, log: seq<CausalEvent>, st: State, e: CausalEvent, m: nat)
    requires WORLD !in p.names && Judged(p, log, st) && Tracked(log, st) && EmitKeysDistinct(log)
    requires e.op == Emit && Key(e) == Some(m) && e.actor in p.names && e.seqNo == Cut(st, e.actor) + 1
        && IsRecorded(log, e)
    ensures Unreceived(st, m)
  {
    hide Key, EventId, Cut, IsRecorded, EmitCount, SendsIn, EmitKeysDistinct;
    var i := RecordedIn(log, e);
    if Source(log, st, m) {
      if k :| 0 <= k < |st.made| && st.made[k].op == Emit && Key(st.made[k]) == Some(m) {
        assert MadeOk(p, log, st, st.made[k]);
        var j := RecordedIn(log, st.made[k]);
        SameKeySameEmit(log, i, j);
        assert false;
      } else {
        var j :| 0 <= j < |log| && IsStimulus(log[j]) && Key(log[j]) == Some(m);
        SameKeySameEmit(log, i, j);
        assert false;
      }
    }
  }

  lemma TrackedWork(log: seq<CausalEvent>, st: State, next: State, e: CausalEvent)
    requires Tracked(log, st) && next.made == st.made + [e] && next.pending == st.pending
    requires e.op != Recv
    ensures Tracked(log, next)
  {
    hide Key, Source;
    forall m: nat | Source(log, st, m) ensures Source(log, next, m) { SourceAfter(log, st, next, e, m); }
  }

  lemma TrackedSend(log: seq<CausalEvent>, st: State, next: State, e: CausalEvent, m: nat, env: Envelope)
    requires Tracked(log, st) && next.made == st.made + [e] && next.pending == st.pending[m := env]
    requires e.op == Emit && Key(e) == Some(m) && env.msgId == m && m <= U64_MAX && Unreceived(st, m)
    ensures Tracked(log, next)
  {
    hide Key, Source;
    forall x: nat | Source(log, st, x) ensures Source(log, next, x) { SourceAfter(log, st, next, e, x); }
    assert Source(log, next, m) by { NewSource(log, next, |st.made|, m); }
  }

  lemma NewSource(log: seq<CausalEvent>, st: State, k: nat, m: nat)
    requires k < |st.made| && st.made[k].op == Emit && Key(st.made[k]) == Some(m)
    ensures Source(log, st, m)
  {}

  lemma TrackedRecv(log: seq<CausalEvent>, st: State, next: State, e: CausalEvent, m: nat)
    requires Tracked(log, st) && m in st.pending && next.made == st.made + [e] && next.pending == st.pending - {m}
    requires e.op == Recv && Key(e) == Some(m)
    ensures Tracked(log, next)
  {
    hide Key, Source;
    forall x: nat | Source(log, st, x) ensures Source(log, next, x) { SourceAfter(log, st, next, e, x); }
  }

  // ---------------------------------------------------------- replay's steps

  /** The verdict's invariant; the part about messages needs readable ids. */
  ghost predicate Sound(p: Program, log: seq<CausalEvent>, st: State) {
    Judged(p, log, st) && (EmitKeysDistinct(log) ==> Tracked(log, st))
  }

  lemma VerifiedMeans(log: seq<CausalEvent>, st: State, e: CausalEvent)
    requires Verify(log, st, e).divergences == []
    ensures st.divergences == [] && IsRecorded(log, e)
    ensures Verify(log, st, e) == st.(produced := st.produced + {e.id}, made := st.made + [e])
  {
    VerifyCounts(log, st, e);
  }

  lemma VerifyCounts(log: seq<CausalEvent>, st: State, e: CausalEvent)
    ensures |Verify(log, st, e).divergences| == |st.divergences| + if IsRecorded(log, e) then 0 else 1
  {
    hide ById;
  }

  lemma ParsedFits(s: string)
    ensures ParseMid(s).Some? ==> ParseMid(s).value <= U64_MAX
  {}

  lemma RecordedIdFits(log: seq<CausalEvent>, a: Name, j: nat)
    requires j >= 1
    ensures RecordedId(log, a, j).Some? ==> RecordedId(log, a, j).value <= U64_MAX
  {
    hide ParseMid, EmitsOf;
    var es := EmitsOf(log, a);
    if j <= |es| && es[j - 1].msgId.Some? { ParsedFits(es[j - 1].msgId.value); }
  }

  lemma WorkSound(p: Program, log: seq<CausalEvent>, st: State, a: Name)
    requires Sound(p, log, st) && a in p.names && Act(log, st, a, Work).divergences == []
    ensures Sound(p, log, Act(log, st, a, Work))
  {
    hide Judged, Tracked, EmitKeysDistinct, Verify, EventId, Increment, IsRecorded;
    var s := OnLocal(StampIn(st, a), a);
    var e := ComputeEvent(a, s);
    VerifiedMeans(log, st, e);
    var next := Act(log, st, a, Work);
    JudgedStep(p, log, st, next, a, e);
    if EmitKeysDistinct(log) { TrackedWork(log, st, next, e); }
  }

  lemma SendSound(p: Program, log: seq<CausalEvent>, st: State, a: Name, dst: Name, msg: Payload)
    requires WORLD !in p.names && Sound(p, log, st) && a in p.names && Act(log, st, a, Send(dst, msg)).divergences == []
    ensures Sound(p, log, Act(log, st, a, Send(dst, msg)))
  {
    hide Judged, Tracked, EmitKeysDistinct, Verify, EventId, Increment, IsRecorded, RecordedId, SendLabel, Mid,
        ParseMid;
    var s := OnLocal(StampIn(st, a), a);
    var (named, id) := NextMsgId(log, st, a);
    var env := Outgoing(a, s, id, dst, msg);
    var e := EmitEvent(a, s.seqNo, env);
    VerifiedMeans(log, named, e);
    var next := Act(log, st, a, Send(dst, msg));
    RecordedIdFits(log, a, SendsIn(st, a) + 1);
    ParseMidRoundTrip(id);
    JudgedStep(p, log, st, next, a, e);
    if EmitKeysDistinct(log) {
      FirstSent(p, log, st, e, id);
      TrackedSend(log, st, next, e, id, env);
    }
  }

  lemma {:induction false} ActAllSound(p: Program, log: seq<CausalEvent>, st: State, a: Name, acts: seq<Action>)
    requires WORLD !in p.names && Sound(p, log, st) && a in p.names && ActAll(log, st, a, acts).divergences == []
    ensures Sound(p, log, ActAll(log, st, a, acts))
    decreases |acts|
  {
    hide Sound, Act;
    if acts != [] {
      var mid := Act(log, st, a, acts[0]);
      ActAllKeeps(log, mid, a, acts[1..]);
      match acts[0] {
        case Work => WorkSound(p, log, st, a);
        case Send(dst, msg) => SendSound(p, log, st, a, dst, msg);
      }
      ActAllSound(p, log, mid, a, acts[1..]);
    }
  }

  lemma SoundWithActors(p: Program, log: seq<CausalEvent>, st: State, next: State)
    requires Sound(p, log, st) && next == st.(actors := next.actors) && next.actors.Keys == st.actors.Keys
    ensures Sound(p, log, next)
  {
    hide EventId, IsRecorded, IsStimulus, EmitCount, Key, EmitKeysDistinct;
    forall a ensures Cut(next, a) == Cut(st, a) && SendsIn(next, a) == SendsIn(st, a) {}
    forall k | 0 <= k < |next.made| ensures MadeOk(p, log, next, next.made[k]) {
      assert MadeOk(p, log, st, st.made[k]);
    }
    forall id | id in next.produced ensures Attributed(log, next, id) { assert Attributed(log, st, id); }
    forall m: nat | Source(log, st, m) ensures Source(log, next, m) {}
    forall m: nat | Unreceived(st, m) ensures Unreceived(next, m) {}
  }

  lemma DriveSound(p: Program, log: seq<CausalEvent>, st: State, a: Name, msg: Option<Payload>)
    requires WORLD !in p.names && Sound(p, log, st) && a in p.names && a in st.actors
    requires Drive(p, log, st, a, msg).divergences == []
    ensures Sound(p, log, Drive(p, log, st, a, msg))
  {
    hide Sound, ActAll;
    var (u, acts) := match msg case None => p.start(a, st.actors[a]) case Some(m) => p.handle(a, st.actors[a], m);
    var mid := st.(actors := st.actors[a := u]);
    SoundWithActors(p, log, st, mid);
    ActAllSound(p, log, mid, a, acts);
  }

  lemma RecvSound(p: Program, log: seq<CausalEvent>, st: State, ev: CausalEvent)
    requires WORLD !in p.names && Sound(p, log, st) && ReplayRecv(p, log, st, ev).divergences == []
    ensures Sound(p, log, ReplayRecv(p, log, st, ev))
  {
    hide Judged, Tracked, EmitKeysDistinct, Verify, Drive, EventId, Merge, Increment, IsRecorded, ParseMid, Mid;
    if ev.op == Recv {
      var m := if ev.msgId.Some? then ParseMid(ev.msgId.value) else None;
      assert m.Some? && m.value in st.pending;
      var a, env := ev.actor, st.pending[m.value];
      var s := OnRecv(StampIn(st, a), a, env.vclock, env.lamport);
      var e := RecvEvent(a, s, env);
      var open := st.(pending := st.pending - {m.value}, clocks := st.clocks[a := s]);
      var taken := Verify(log, open, e);
      VerifyKeeps(log, open, e);
      assert a in taken.actors;
      ActorsKept(p, log, taken, a, Some(env.msg));
      VerifiedMeans(log, open, e);
      assert a in p.names by { JudgedActors(p, log, st); }
      JudgedStep(p, log, st, taken, a, e);
      if EmitKeysDistinct(log) {
        PendingKey(log, st, m.value);
        ParseMidRoundTrip(env.msgId);
        TrackedRecv(log, st, taken, e, m.value);
      }
      DriveSound(p, log, taken, a, Some(env.msg));
    }
  }

  lemma JudgedActors(p: Program, log: seq<CausalEvent>, st: State)
    requires Judged(p, log, st)
    ensures st.actors.Keys == p.names
  {}

  lemma PendingKey(log: seq<CausalEvent>, st: State, m: nat)
    requires Tracked(log, st) && m in st.pending
    ensures st.pending[m].msgId == m <= U64_MAX
  {}

  lemma {:induction false} AllRecvsSound(p: Program, log: seq<CausalEvent>, st: State, tl: seq<CausalEvent>)
    requires WORLD !in p.names && Sound(p, log, st) && ReplayAll(p, log, st, tl).divergences == []
    ensures Sound(p, log, ReplayAll(p, log, st, tl))
  {
    hide Sound, ReplayRecv;
    if tl != [] {
      var mid := ReplayAll(p, log, st, tl[..|tl| - 1]);
      DeliverKeeps(p, log, mid, tl[|tl| - 1]);
      AllRecvsSound(p, log, st, tl[..|tl| - 1]);
      RecvSound(p, log, mid, tl[|tl| - 1]);
    }
  }

  lemma {:induction false} StartsSound(p: Program, log: seq<CausalEvent>, st: State, rest: set<Name>)
    requires WORLD !in p.names && Sound(p, log, st) && rest <= p.names && rest <= st.actors.Keys
    requires StartAll(p, log, st, rest).divergences == []
    ensures Sound(p, log, StartAll(p, log, st, rest))
    decreases |rest|
  {
    hide Sound, Drive;
    if rest != {} {
      var a := LeastName(rest);
      var mid := Drive(p, log, st, a, None);
      ActorsKept(p, log, st, a, None);
      StartAllKeeps(p, log, mid, rest - {a});
      DriveSound(p, log, st, a, None);
      StartsSound(p, log, mid, rest - {a});
    }
  }

  lemma {:induction false} SeedsSound(p: Program, log: seq<CausalEvent>, wes: seq<CausalEvent>,
          origins: seq<(Name, Payload)>)
    requires forall i | 0 <= i < |wes| :: wes[i] in log && IsStimulus(wes[i])
    requires SeedAll(Start(p), wes, origins).divergences == []
    ensures var st := SeedAll(Start(p), wes, origins);
      Sound(p, log, st) && st.made == [] && st.clocks == Start(p).clocks && st.sends == map[]
          && st.actors == Start(p).actors
  {
    hide Sound, ParseMid, VclockFrom, IsStimulus, SeedOne;
    if wes == [] {
      assert Sound(p, log, Start(p)) by { StartSound(p, log); }
    } else {
      var front, we := wes[..|wes| - 1], wes[|wes| - 1];
      assert we in log && IsStimulus(we);
      forall i | 0 <= i < |front| ensures front[i] in log && IsStimulus(front[i]) { assert front[i] == wes[i]; }
      var mid := SeedAll(Start(p), front, origins);
      SeedOneKeeps(mid, we, origins, |wes| - 1);
      SeedsSound(p, log, front, origins);
      SeedSound(p, log, mid, we, origins, |wes| - 1);
    }
  }

  lemma StartSound(p: Program, log: seq<CausalEvent>)
    ensures Sound(p, log, Start(p))
  {}

  lemma SeedOneKeeps(st: State, we: CausalEvent, origins: seq<(Name, Payload)>, k: nat)
    ensures st.divergences <= SeedOne(st, we, origins, k).divergences
  {
    hide ParseMid, VclockFrom;
  }

  lemma SeedSound(p: Program, log: seq<CausalEvent>, st: State, we: CausalEvent, origins: seq<(Name, Payload)>, k: nat)
    requires Sound(p, log, st) && st.made == [] && we in log && IsStimulus(we)
    requires SeedOne(st, we, origins, k).divergences == []
    ensures var next := SeedOne(st, we, origins, k);
      Sound(p, log, next) && next.made == [] && next.clocks == st.clocks && next.sends == st.sends
          && next.actors == st.actors
  {
    hide Judged, Tracked, ParseMid, VclockFrom, IsStimulus, EmitKeysDistinct;
    var next := SeedOne(st, we, origins, k);
    var m := Key(we).value;
    ParsedFits(we.msgId.value);
    var i :| 0 <= i < |log| && log[i] == we;
    SeedJudged(p, log, st, next, i);
    if EmitKeysDistinct(log) { SeedTracked(log, st, next, i, m, next.pending[m]); }
  }

  lemma SeedJudged(p: Program, log: seq<CausalEvent>, st: State, next: State, i: nat)
    requires Judged(p, log, st) && i < |log| && IsStimulus(log[i])
    requires next.made == st.made == [] && next.produced == st.produced + {log[i].id}
    requires next.clocks == st.clocks && next.sends == st.sends && next.actors == st.actors
    ensures Judged(p, log, next)
  {
    hide MadeOk, IsStimulus;
    forall id | id in next.produced ensures Attributed(log, next, id) {
      if id != log[i].id { assert Attributed(log, st, id); }
    }
  }

  lemma SeedTracked(log: seq<CausalEvent>, st: State, next: State, i: nat, m: nat, env: Envelope)
    requires Tracked(log, st) && i < |log| && IsStimulus(log[i]) && Key(log[i]) == Some(m)
    requires next.made == st.made == [] && next.pending == st.pending[m := env] && env.msgId == m <= U64_MAX
    ensures Tracked(log, next)
  {
    hide Key, IsStimulus;
    forall x: nat | Source(log, st, x) || x == m ensures Source(log, next, x) {}
  }

  // ------------------------------------------------------------- the verdict

  lemma {:induction false} EmitsAreListed(log: seq<CausalEvent>, n: nat, a: Name)
    requires n <= |log|
    ensures |EmitsBelow(log, n, a)| == EmitCount(log[..n], a)
  {
    if n > 0 {
      EmitsAreListed(log, n - 1, a);
      assert log[..n] == log[..n - 1] + [log[n - 1]];
      EmitCountAppend(log[..n - 1], log[n - 1], a);
    }
  }

  lemma EmitsOfLog(log: seq<CausalEvent>, a: Name)
    ensures |EmitsOf(log, a)| == EmitCount(log, a)
    ensures forall i | 0 <= i < |EmitsOf(log, a)| ::
              EmitsOf(log, a)[i] in log && EmitsOf(log, a)[i].op == Emit && EmitsOf(log, a)[i].actor == a
  {
    hide SortBySeq, EmitsBelow;
    var s, r := EmitPositions(log, a), SortBySeq(log, EmitPositions(log, a));
    assert |multiset(r)| == |multiset(s)|;
    EmitsAreListed(log, |log|, a);
    assert log[..|log|] == log;
    forall i | 0 <= i < |r| ensures log[r[i]].op == Emit && log[r[i]].actor == a {
      SameElements(log, s, r, r[i]);
      assert r[i] in r;
    }
  }

  /** Counting emits of `a` in a list without repetitions. */
  ghost function EmitSet(es: seq<CausalEvent>, a: Name): set<CausalEvent> {
    set e | e in es && e.op == Emit && e.actor == a
  }

  lemma {:induction false} CountIsCard(es: seq<CausalEvent>, a: Name)
    requires DistinctIds(es)
    ensures EmitCount(es, a) == |EmitSet(es, a)|
  {
    if es != [] {
      var front, e := es[..|es| - 1], es[|es| - 1];
      assert es == front + [e];
      CountIsCard(front, a);
      if e.op == Emit && e.actor == a {
        assert e !in front;
        assert EmitSet(es, a) == EmitSet(front, a) + {e};
      } else {
        assert EmitSet(es, a) == EmitSet(front, a);
      }
    }
  }

  lemma ReplaySound(p: Program, log: seq<CausalEvent>, tl: seq<CausalEvent>, origins: seq<(Name, Payload)>)
    requires WORLD !in p.names && Replay(p, log, tl, origins).divergences == []
    ensures var r := Replay(p, log, tl, origins);
      Sound(p, log, r) && forall i | 0 <= i < |log| :: log[i].id in r.produced
  {
    hide Sound, SeedAll, StartAll, ReplayAll, EmitsOf;
    var wes := EmitsOf(log, WORLD);
    EmitsOfLog(log, WORLD);
    var st0 := SeedAll(Start(p), wes, origins);
    SeedKeepsActors(Start(p), wes, origins);
    var st1 := StartAll(p, log, st0, p.names);
    var st2 := ReplayAll(p, log, st1, tl);
    CompleteKeeps(st2, log);
    DeliverAllKeeps(p, log, st1, tl);
    StartAllKeeps(p, log, st0, p.names);
    assert Complete(st2, log) == st2;
    SeedsSound(p, log, wes, origins);
    StartsSound(p, log, st0, p.names);
    AllRecvsSound(p, log, st1, tl);
  }

  lemma MadeDistinct(p: Program, log: seq<CausalEvent>, st: State)
    requires Judged(p, log, st)
    ensures DistinctIds(st.made)
  {
    hide EventId, IsRecorded, EmitCount, SendsIn, Cut;
    forall j, k | 0 <= j < k < |st.made| ensures st.made[j].id != st.made[k].id {
      assert MadeOk(p, log, st, st.made[j]) && MadeOk(p, log, st, st.made[k]);
      if st.made[j].id == st.made[k].id {
        EventIdInjective(st.made[j].actor, st.made[j].seqNo, st.made[k].actor, st.made[k].seqNo);
      }
    }
  }

  lemma MadeIsRecorded(p: Program, log: seq<CausalEvent>, st: State, e: CausalEvent)
    requires WORLD !in p.names && Judged(p, log, st) && e in st.made
    ensures e in log && !IsStimulus(e) && e.actor in p.names
  {
    hide EventId, IsRecorded, EmitCount, SendsIn, Cut;
    var k :| 0 <= k < |st.made| && st.made[k] == e;
    assert MadeOk(p, log, st, st.made[k]);
    var i := RecordedIn(log, e);
  }

  lemma RecordedIsMade(p: Program, log: seq<CausalEvent>, st: State, i: nat)
    requires WORLD !in p.names && Judged(p, log, st) && DistinctIds(log) && i < |log|
    requires log[i].id in st.produced && !IsStimulus(log[i])
    ensures log[i] in st.made
  {
    hide EventId, IsRecorded, EmitCount, SendsIn, Cut, IsStimulus;
    assert Attributed(log, st, log[i].id);
    assert forall j | 0 <= j < |log| && log[j].id == log[i].id :: j == i;
    var k :| 0 <= k < |st.made| && st.made[k].id == log[i].id;
    assert MadeOk(p, log, st, st.made[k]);
    var j := RecordedIn(log, st.made[k]);
  }

  /** An empty divergence list over a log with distinct event ids means: what was
      re-executed is, one for one and field for field, what was recorded apart from
      the external stimuli; every actor made exactly its recorded number of sends;
      and if message ids can be told apart, no message was received twice. */
  lemma EmptyMeansSame(p: Program, log: seq<CausalEvent>, tl: seq<CausalEvent>, origins: seq<(Name, Payload)>)
    requires WORLD !in p.names && DistinctIds(log) && Replay(p, log, tl, origins).divergences == []
    ensures var r := Replay(p, log, tl, origins);
      && DistinctIds(r.made)
      && (forall e :: e in r.made <==> e in log && !IsStimulus(e))
      && (forall a | a in p.names :: SendsIn(r, a) == |EmitsOf(log, a)|)
    ensures EmitKeysDistinct(log) ==> forall i, j | 0 <= i < j < |log| && log[i].op == Recv == log[j].op ::
        Key(log[i]) != Key(log[j])
  {
    hide Judged, Replay, IsStimulus, EmitsOf, EmitCount, DistinctIds, Tracked, Key, SendsIn, EmitKeysDistinct;
    var r := Replay(p, log, tl, origins);
    ReplaySound(p, log, tl, origins);
    MadeDistinct(p, log, r);
    forall e ensures e in r.made <==> e in log && !IsStimulus(e) {
      if e in r.made { MadeIsRecorded(p, log, r, e); }
      if i :| 0 <= i < |log| && log[i] == e && !IsStimulus(e) { RecordedIsMade(p, log, r, i); }
    }
    forall a | a in p.names ensures SendsIn(r, a) == |EmitsOf(log, a)| { SendsMatch(p, log, r, a); }
    if EmitKeysDistinct(log) {
      forall i, j | 0 <= i < j < |log| && log[i].op == Recv == log[j].op ensures Key(log[i]) != Key(log[j]) {
        ReceivedOnce(log, r, i, j);
      }
    }
  }

  lemma SendsMatch(p: Program, log: seq<CausalEvent>, st: State, a: Name)
    requires Judged(p, log, st) && WORLD !in p.names && a in p.names && DistinctIds(log) && DistinctIds(st.made)
    requires forall e :: e in st.made <==> e in log && !IsStimulus(e)
    ensures SendsIn(st, a) == |EmitsOf(log, a)|
  {
    hide EventId, IsRecorded, EmitCount, SendsIn, Cut, EmitsOf, DistinctIds;
    EmitsOfLog(log, a);
    CountIsCard(log, a);
    CountIsCard(st.made, a);
    assert EmitSet(log, a) == EmitSet(st.made, a);
  }

  lemma ReceivedOnce(log: seq<CausalEvent>, st: State, i: nat, j: nat)
    requires Tracked(log, st) && DistinctIds(log) && i < j < |log| && log[i].op == Recv == log[j].op
    requires forall e :: e in st.made <==> e in log && !IsStimulus(e)
    ensures Key(log[i]) != Key(log[j])
  {
    hide Key, Source, Unreceived;
    assert log[i] in log && log[j] in log;
    assert log[i] in st.made && log[j] in st.made;
    var k :| 0 <= k < |st.made| && st.made[k] == log[i];
    var l :| 0 <= l < |st.made| && st.made[l] == log[j];
    assert k != l;
    assert if k < l then Key(st.made[k]) != Key(st.made[l]) else Key(st.made[l]) != Key(st.made[k]);
  }

  // ------------------------------------------------ what faithfulness forces

  lemma {:induction false} SeedsReadable(st: State, wes: seq<CausalEvent>, origins: seq<(Name, Payload)>, k: nat)
    requires k < |wes| && SeedAll(st, wes, origins).divergences == []
    ensures Key(wes[k]).Some?
  {
    hide ParseMid, VclockFrom, Stash;
    var front := wes[..|wes| - 1];
    SeedOneKeeps(SeedAll(st, front, origins), wes[|wes| - 1], origins, |wes| - 1);
    if k < |wes| - 1 { SeedsReadable(st, front, origins, k); }
  }

  lemma {:induction false} EmitListed(log: seq<CausalEvent>, n: nat, i: nat)
    requires i < n <= |log| && log[i].op == Emit
    ensures i in EmitsBelow(log, n, log[i].actor)
  {
    if i < n - 1 { EmitListed(log, n - 1, i); }
  }

  lemma EmitIndexed(log: seq<CausalEvent>, i: nat) returns (k: nat)
    requires i < |log| && log[i].op == Emit
    ensures k < |EmitsOf(log, log[i].actor)| && EmitsOf(log, log[i].actor)[k] == log[i]
  {
    hide EmitsBelow, SortBySeq;
    var s := EmitPositions(log, log[i].actor);
    EmitListed(log, |log|, i);
    SameElements(log, s, SortBySeq(log, s), i);
    k :| 0 <= k < |SortBySeq(log, s)| && SortBySeq(log, s)[k] == i;
  }

  /** A log that replays faithfully, by whatever code, carries only message numbers
      that fit the reader's width. */
  lemma FaithfulFits(p: Program, log: seq<CausalEvent>, tl: seq<CausalEvent>, origins: seq<(Name, Payload)>)
    requires WORLD !in p.names && DistinctIds(log) && Replay(p, log, tl, origins).divergences == []
    ensures FitsWidth(log)
  {
    hide Judged, Replay, DistinctIds, ParseMid, Mid, EmitsOf;
    forall i, id: nat | 0 <= i < |log| && log[i].op == Emit && log[i].msgId == Some(Mid(id)) ensures id <= U64_MAX {
      EmitReadable(p, log, tl, origins, i);
      ParseMidRoundTrip(id);
    }
  }

  lemma EmitReadable(p: Program, log: seq<CausalEvent>, tl: seq<CausalEvent>, origins: seq<(Name, Payload)>, i: nat)
    requires WORLD !in p.names && DistinctIds(log) && Replay(p, log, tl, origins).divergences == []
    requires i < |log| && log[i].op == Emit
    ensures Key(log[i]).Some?
  {
    hide Judged, Tracked, DistinctIds, Key, SeedAll, StartAll, ReplayAll, EmitsOf, Complete;
    var wes := EmitsOf(log, WORLD);
    if IsStimulus(log[i]) {
      var st0 := SeedAll(Start(p), wes, origins);
      SeedKeepsActors(Start(p), wes, origins);
      var st1 := StartAll(p, log, st0, p.names);
      StartAllKeeps(p, log, st0, p.names);
      DeliverAllKeeps(p, log, st1, tl);
      CompleteKeeps(ReplayAll(p, log, st1, tl), log);
      var k := EmitIndexed(log, i);
      SeedsReadable(Start(p), wes, origins, k);
    } else {
      ReplaySound(p, log, tl, origins);
      var r := Replay(p, log, tl, origins);
      RecordedIsMade(p, log, r, i);
      MadeReadable(p, log, r, log[i]);
    }
  }

  lemma MadeReadable(p: Program, log: seq<CausalEvent>, st: State, e: CausalEvent)
    requires Judged(p, log, st) && e in st.made && e.op == Emit
    ensures Key(e).Some?
  {
    hide EventId, IsRecorded, EmitCount, SendsIn, Cut, Key;
    var k :| 0 <= k < |st.made| && st.made[k] == e;
    assert MadeOk(p, log, st, st.made[k]);
  }

  /** Code that lacks an actor the log has events of is always noticed. */
  lemma MissingActorNoticed(p: Program, log: seq<CausalEvent>, tl: seq<CausalEvent>, origins: seq<(Name, Payload)>,
          i: nat)
    requires WORLD !in p.names && DistinctIds(log) && i < |log| && !IsStimulus(log[i]) && log[i].actor !in p.names
    ensures Replay(p, log, tl, origins).divergences != []
  {
    hide Judged, Replay, DistinctIds, IsStimulus, Tracked;
    if Replay(p, log, tl, origins).divergences == [] {
      ReplaySound(p, log, tl, origins);
      var r := Replay(p, log, tl, origins);
      RecordedIsMade(p, log, r, i);
      MadeIsRecorded(p, log, r, log[i]);
    }
  }
}
