/** The list of divergences, complaint by complaint: what each says is so, and nothing
    that should be said is left out. For every log, code, order and stimuli. */
module Complaints {
  import opened Names
  import opened Clocks
  import opened Events
  import opened Replays
  import opened Fidelity
  import opened Verdict
  import opened Calls
  import opened Histories

  // -------------------------------------------------------- against the recording

  /** `log[i]` is the last event with the id `id`. */
  ghost predicate LastWith(log: seq<CausalEvent>, i: nat, id: string) {
    i < |log| && log[i].id == id && forall j | i < j < |log| :: log[j].id != id
  }

  /** Of several events with one id the index keeps the last. */
  lemma {:induction false} ByIdIsLast(log: seq<CausalEvent>, id: string)
    ensures id in ById(log) <==> exists i: nat :: LastWith(log, i, id)
    ensures forall i: nat | LastWith(log, i, id) :: ById(log)[id] == log[i]
  {
    if log != [] {
      var n := |log| - 1;
      ByIdIsLast(log[..n], id);
      if log[n].id == id {
        assert LastWith(log, n, id);
      } else {
        forall i: nat ensures LastWith(log, i, id) <==> LastWith(log[..n], i, id) {
          LastInFront(log, i, id);
        }
      }
    }
  }

  lemma LastInFront(log: seq<CausalEvent>, i: nat, id: string)
    requires log != [] && log[|log| - 1].id != id
    ensures LastWith(log, i, id) <==> LastWith(log[..|log| - 1], i, id)
  {}

  ghost predicate Differing(log: seq<CausalEvent>, e: CausalEvent) {
    exists i: nat :: LastWith(log, i, e.id) && log[i] != e
  }

  ghost predicate Unrecorded(log: seq<CausalEvent>, e: CausalEvent) {
    forall i | 0 <= i < |log| :: log[i].id != e.id
  }

  lemma MismatchMeans(log: seq<CausalEvent>, e: CausalEvent)
    ensures Mismatch(log, e) ==
            if Unrecorded(log, e) then Some(NoCounterpart) else if Differing(log, e) then Some(Differs) else None
  {
    hide ById;
    ByIdIsLast(log, e.id);
    if e.id in ById(log) {
      var i: nat :| LastWith(log, i, e.id);
    } else if !Unrecorded(log, e) {
      var i := LastExists(log, e.id);
    }
  }

  lemma LastExists(log: seq<CausalEvent>, id: string) returns (i: nat)
    requires exists j | 0 <= j < |log| :: log[j].id == id
    ensures LastWith(log, i, id)
  {
    i := |log| - 1;
    while log[i].id != id
      invariant i < |log| && forall j | i < j < |log| :: log[j].id != id
      decreases i
    {
      assert exists j | 0 <= j < i :: log[j].id == id;
      i := i - 1;
    }
  }

  // ------------------------------------------------------------------ the ledger

  /** The grounds that re-execution itself gives for a complaint. */
  ghost predicate Deserved(log: seq<CausalEvent>, st: State, d: Divergence) {
    match d.reason
    case Differs => exists k :: 0 <= k < |st.made| && st.made[k].id == d.eventId && Differing(log, st.made[k])
    case NoCounterpart => exists k :: 0 <= k < |st.made| && st.made[k].id == d.eventId && Unrecorded(log, st.made[k])
    case TooManySends => exists a, j: nat :: ExtraSend(log, st, a, j) && d.eventId == SendLabel(a, j)
    case _ => false
  }

  /** `a` has made a `j`-th send, and the recording has none, or none that can be read. */
  ghost predicate ExtraSend(log: seq<CausalEvent>, st: State, a: Name, j: nat) {
    1 <= j <= SendsIn(st, a) && RecordedId(log, a, j).None?
  }

  ghost predicate MadeAs(st: State, k: nat, id: string) { k < |st.made| && st.made[k].id == id }

  /** Apart from `others`, exactly the deserved complaints have been made; and apart from
      `sown`, exactly the re-executed events count as produced. */
  ghost predicate Ledger(log: seq<CausalEvent>, sown: set<string>, st: State, others: seq<Divergence>) {
    && (forall d :: d in st.divergences <==> d in others || Deserved(log, st, d))
    && (forall id :: id in st.produced <==> id in sown || exists k: nat :: MadeAs(st, k, id))
  }

  lemma VerifyLedger(log: seq<CausalEvent>, sown: set<string>, st: State, e: CausalEvent, others: seq<Divergence>)
    requires Ledger(log, sown, st, others)
    ensures Ledger(log, sown, Verify(log, st, e), others)
  {
    hide ExtraSend, Differing, Unrecorded, Mismatch, SendLabel;
    MismatchMeans(log, e);
    UnrecordedNotDiffering(log, e);
    var r := Verify(log, st, e);
    VerifyMakes(log, st, e);
    forall a, j: nat ensures ExtraSend(log, r, a, j) <==> ExtraSend(log, st, a, j) { VerifySends(log, st, e, a, j); }
    forall d ensures Deserved(log, r, d) <==>
        Deserved(log, st, d) || (Mismatch(log, e) == Some(d.reason) && d.eventId == e.id)
    {
      DeservedGrows(log, st, r, e, d);
    }
    forall id, k: nat ensures MadeAs(r, k, id) <==> MadeAs(st, k, id) || (k == |st.made| && id == e.id) {}
    assert r.produced == st.produced + {e.id} by { VerifyProduces(log, st, e); }
    forall id ensures id in r.produced <==> id in sown || exists k: nat :: MadeAs(r, k, id) {
      if id == e.id { assert MadeAs(r, |st.made|, id); }
    }
  }

  lemma VerifyProduces(log: seq<CausalEvent>, st: State, e: CausalEvent)
    ensures Verify(log, st, e).produced == st.produced + {e.id}
  {
    hide Mismatch;
  }

  lemma UnrecordedNotDiffering(log: seq<CausalEvent>, e: CausalEvent)
    ensures Unrecorded(log, e) ==> !Differing(log, e)
  {}

  lemma VerifySends(log: seq<CausalEvent>, st: State, e: CausalEvent, a: Name, j: nat)
    ensures ExtraSend(log, Verify(log, st, e), a, j) <==> ExtraSend(log, st, a, j)
  {
    hide RecordedId;
    VerifyKeeps(log, st, e);
  }

  lemma DeservedGrows(log: seq<CausalEvent>, st: State, r: State, e: CausalEvent, d: Divergence)
    requires r.made == st.made + [e]
    requires forall a, j: nat :: ExtraSend(log, r, a, j) <==> ExtraSend(log, st, a, j)
    ensures Deserved(log, r, d) <==>
            || Deserved(log, st, d)
            || (d == Divergence(e.id, Differs) && Differing(log, e))
            || (d == Divergence(e.id, NoCounterpart) && Unrecorded(log, e))
  {
    hide ExtraSend, Differing, Unrecorded, SendLabel;
    if d.reason.Differs? || d.reason.NoCounterpart? {
      assert r.made[|st.made|] == e;
      if k :| 0 <= k < |st.made| && st.made[k].id == d.eventId
              && (Differing(log, st.made[k]) || Unrecorded(log, st.made[k]))
      {
        assert r.made[k] == st.made[k];
      }
      assert forall k | 0 <= k < |st.made| :: r.made[k] == st.made[k];
    }
  }

  lemma NextMsgIdLedger(log: seq<CausalEvent>, sown: set<string>, st: State, a: Name, others: seq<Divergence>)
    requires Ledger(log, sown, st, others)
    ensures Ledger(log, sown, NextMsgId(log, st, a).0, others)
  {
    hide RecordedId, SendLabel, Differing, Unrecorded;
    var j0 := SendsIn(st, a) + 1;
    var r := NextMsgId(log, st, a).0;
    NextMsgIdKeeps(log, st, a);
    forall b, j: nat ensures ExtraSend(log, r, b, j) <==>
        ExtraSend(log, st, b, j) || (b == a && j == j0 && RecordedId(log, a, j0).None?) {}
    forall d ensures Deserved(log, r, d) <==>
        Deserved(log, st, d) || (RecordedId(log, a, j0).None? && d == Divergence(SendLabel(a, j0), TooManySends)) {}
    forall id, k: nat ensures MadeAs(r, k, id) <==> MadeAs(st, k, id) {}
  }

  lemma FrameLedger(log: seq<CausalEvent>, sown: set<string>, st: State, r: State, others: seq<Divergence>)
    requires Ledger(log, sown, st, others)
    requires r.divergences == st.divergences && r.produced == st.produced && r.made == st.made && r.sends == st.sends
    ensures Ledger(log, sown, r, others)
  {
    hide Differing, Unrecorded, RecordedId, SendLabel;
    forall a, j: nat ensures ExtraSend(log, r, a, j) <==> ExtraSend(log, st, a, j) {}
    forall id, k: nat ensures MadeAs(r, k, id) <==> MadeAs(st, k, id) {}
  }

  lemma OtherLedger(log: seq<CausalEvent>, sown: set<string>, st: State, id: string, why: Reason,
          others: seq<Divergence>)
    requires Ledger(log, sown, st, others)
    ensures Ledger(log, sown, Diverge(st, id, why), others + [Divergence(id, why)])
  {
    hide Differing, Unrecorded, RecordedId, SendLabel;
    var r := Diverge(st, id, why);
    forall a, j: nat ensures ExtraSend(log, r, a, j) <==> ExtraSend(log, st, a, j) {}
    forall d ensures Deserved(log, r, d) <==> Deserved(log, st, d) {}
    forall id, k: nat ensures MadeAs(r, k, id) <==> MadeAs(st, k, id) {}
  }

  lemma ActLedger(log: seq<CausalEvent>, sown: set<string>, st: State, a: Name, act: Action, others: seq<Divergence>)
    requires Ledger(log, sown, st, others)
    ensures Ledger(log, sown, Act(log, st, a, act), others)
  {
    hide Ledger, Verify, NextMsgId, EmitEvent, ComputeEvent, OnLocal;
    var s := OnLocal(StampIn(st, a), a);
    match act
    case Work =>
      VerifyLedger(log, sown, st, ComputeEvent(a, s), others);
      FrameLedger(log, sown, Verify(log, st, ComputeEvent(a, s)), Act(log, st, a, act), others);
    case Send(dst, msg) =>
      var (named, id) := NextMsgId(log, st, a);
      var e := EmitEvent(a, s.seqNo, Outgoing(a, s, id, dst, msg));
      NextMsgIdLedger(log, sown, st, a, others);
      VerifyLedger(log, sown, named, e, others);
      FrameLedger(log, sown, Verify(log, named, e), Act(log, st, a, act), others);
  }

  lemma {:induction false} ActAllLedger(log: seq<CausalEvent>, sown: set<string>, st: State, a: Name, acts: seq<Action>,
          others: seq<Divergence>)
    requires Ledger(log, sown, st, others)
    ensures Ledger(log, sown, ActAll(log, st, a, acts), others)
    decreases |acts|
  {
    hide Ledger, Act;
    if acts != [] {
      ActLedger(log, sown, st, a, acts[0], others);
      ActAllLedger(log, sown, Act(log, st, a, acts[0]), a, acts[1..], others);
    }
  }

  lemma DriveLedger(q: Program, log: seq<CausalEvent>, sown: set<string>, st: State, a: Name, msg: Option<Payload>,
          others: seq<Divergence>)
    requires Ledger(log, sown, st, others) && a in st.actors
    ensures Ledger(log, sown, Drive(q, log, st, a, msg), others)
  {
    hide Ledger, ActAll;
    var (u, acts) := match msg case None => q.start(a, st.actors[a]) case Some(m) => q.handle(a, st.actors[a], m);
    var mid := st.(actors := st.actors[a := u]);
    FrameLedger(log, sown, st, mid, others);
    ActAllLedger(log, sown, mid, a, acts, others);
  }

  lemma {:induction false} StartsLedger(q: Program, log: seq<CausalEvent>, sown: set<string>, st: State,
          rest: set<Name>, others: seq<Divergence>)
    requires Ledger(log, sown, st, others) && rest <= st.actors.Keys
    ensures Ledger(log, sown, StartAll(q, log, st, rest), others)
    decreases |rest|
  {
    hide Ledger, Drive;
    if rest != {} {
      var a := LeastName(rest);
      ActorsKept(q, log, st, a, None);
      DriveLedger(q, log, sown, st, a, None, others);
      StartsLedger(q, log, sown, Drive(q, log, st, a, None), rest - {a}, others);
    }
  }

  // --------------------------------------------------------------- the timeline

  /** What is complained of when `ev`'s turn comes in state `st`. */
  ghost function OfTurn(st: State, ev: CausalEvent): seq<Divergence> {
    if ev.op != Recv then []
    else if Key(ev).None? then [Divergence(ev.id, NoMessageId)]
    else if Key(ev).value !in st.pending then [Divergence(ev.id, NoMessage)]
    else if ev.actor !in st.actors then [Divergence(ev.id, ActorNotRebuilt)] else []
  }

  lemma RecvLedger(q: Program, log: seq<CausalEvent>, sown: set<string>, st: State, ev: CausalEvent,
          others: seq<Divergence>)
    requires Ledger(log, sown, st, others)
    ensures Ledger(log, sown, ReplayRecv(q, log, st, ev), others + OfTurn(st, ev))
  {
    hide Ledger, Verify, Drive, ParseMid, RecvEvent, OnRecv, Diverge;
    assert others + [] == others;
    if ev.op == Recv {
      if Key(ev).None? {
        OtherLedger(log, sown, st, ev.id, NoMessageId, others);
      } else if Key(ev).value !in st.pending {
        OtherLedger(log, sown, st, ev.id, NoMessage, others);
      } else {
        var m, a, env := Key(ev).value, ev.actor, st.pending[Key(ev).value];
        var s := OnRecv(StampIn(st, a), a, env.vclock, env.lamport);
        var open := st.(pending := st.pending - {m}, clocks := st.clocks[a := s]);
        var taken := Verify(log, open, RecvEvent(a, s, env));
        FrameLedger(log, sown, st, open, others);
        VerifyLedger(log, sown, open, RecvEvent(a, s, env), others);
        VerifyKeeps(log, open, RecvEvent(a, s, env));
        if a !in taken.actors {
          OtherLedger(log, sown, taken, ev.id, ActorNotRebuilt, others);
        } else {
          DriveLedger(q, log, sown, taken, a, Some(env.msg), others);
        }
      }
    }
  }

  /** Some event of the timeline was complained of when its turn came. */
  ghost predicate AtTurn(q: Program, log: seq<CausalEvent>, st: State, tl: seq<CausalEvent>, k: nat, d: Divergence) {
    k < |tl| && d in OfTurn(ReplayAll(q, log, st, tl[..k]), tl[k])
  }

  lemma {:induction false} WalkLedger(q: Program, log: seq<CausalEvent>, sown: set<string>, st: State,
          tl: seq<CausalEvent>, others: seq<Divergence>)
    returns (more: seq<Divergence>)
    requires Ledger(log, sown, st, others)
    ensures Ledger(log, sown, ReplayAll(q, log, st, tl), others + more)
    ensures forall d :: d in more <==> exists k: nat :: AtTurn(q, log, st, tl, k, d)
  {
    hide Ledger, ReplayRecv, OfTurn;
    if tl == [] {
      more := [];
      assert others + [] == others;
    } else {
      var n := |tl| - 1;
      var mid := ReplayAll(q, log, st, tl[..n]);
      var before := WalkLedger(q, log, sown, st, tl[..n], others);
      RecvLedger(q, log, sown, mid, tl[n], others + before);
      more := before + OfTurn(mid, tl[n]);
      assert others + before + OfTurn(mid, tl[n]) == others + more;
      forall d, k: nat ensures AtTurn(q, log, st, tl, k, d) <==>
          AtTurn(q, log, st, tl[..n], k, d) || (k == n && d in OfTurn(mid, tl[n]))
      {
        if k < n { assert tl[..n][..k] == tl[..k]; }
      }
      forall d ensures d in more <==> exists k: nat :: AtTurn(q, log, st, tl, k, d) {
        if d in before {
          var k: nat :| AtTurn(q, log, st, tl[..n], k, d);
          assert AtTurn(q, log, st, tl, k, d);
        } else if d in OfTurn(mid, tl[n]) {
          assert AtTurn(q, log, st, tl, n, d);
        }
      }
    }
  }

  // --------------------------------------------------------- stimuli and the end

  /** What is complained of the `k`-th recorded stimulus. */
  ghost predicate OfSeed(wes: seq<CausalEvent>, origins: seq<(Name, Payload)>, k: nat, d: Divergence) {
    && k < |wes| && d.eventId == wes[k].id
    && if Key(wes[k]).None? then d.reason == BadOriginId else k >= |origins| && d.reason == OriginNotSupplied
  }

  lemma {:induction false} SeedsComplain(st: State, wes: seq<CausalEvent>, origins: seq<(Name, Payload)>, d: Divergence)
    requires st.divergences == []
    ensures d in SeedAll(st, wes, origins).divergences <==> exists k: nat :: OfSeed(wes, origins, k, d)
  {
    hide ParseMid, VclockFrom, Stash;
    if wes != [] {
      var n := |wes| - 1;
      SeedsComplain(st, wes[..n], origins, d);
      var front := SeedAll(st, wes[..n], origins);
      forall k: nat ensures OfSeed(wes, origins, k, d) <==>
          OfSeed(wes[..n], origins, k, d) || (k == n && OfSeed(wes, origins, n, d))
      {
        if k < n { assert wes[..n][k] == wes[k]; }
      }
      var r := SeedOne(front, wes[n], origins, n);
      SeedOneSays(front, wes, origins, d);
    }
  }

  lemma SeedOneSays(st: State, wes: seq<CausalEvent>, origins: seq<(Name, Payload)>, d: Divergence)
    requires wes != []
    ensures var n := |wes| - 1;
      d in SeedOne(st, wes[n], origins, n).divergences <==> d in st.divergences || OfSeed(wes, origins, n, d)
  {
    hide ParseMid, VclockFrom;
  }

  ghost predicate Missing(log: seq<CausalEvent>, st: State, i: nat, id: string) {
    i < |log| && log[i].id == id && id !in st.produced
  }

  /** The completeness pass names exactly the recorded events that were not produced. */
  lemma {:induction false} CompleteSays(st: State, log: seq<CausalEvent>, d: Divergence)
    ensures d in Complete(st, log).divergences <==>
            d in st.divergences || (d.reason == NotReproduced && exists i: nat :: Missing(log, st, i, d.eventId))
  {
    if log != [] {
      var n := |log| - 1;
      CompleteSays(st, log[..n], d);
      CompleteKeeps(st, log[..n]);
      forall i: nat ensures Missing(log, st, i, d.eventId) <==>
          Missing(log[..n], st, i, d.eventId) || (i == n && Missing(log, st, n, d.eventId))
      {
        if i < n { assert log[..n][i] == log[i]; }
      }
      if Missing(log, st, n, d.eventId) { assert log[n].id == d.eventId; }
      assert d == Divergence(log[n].id, NotReproduced) <==> d.eventId == log[n].id && d.reason == NotReproduced;
      if d.reason == NotReproduced && (exists i: nat :: Missing(log[..n], st, i, d.eventId)) {
        var i: nat :| Missing(log[..n], st, i, d.eventId);
        assert Missing(log, st, i, d.eventId);
      }
    }
  }

  /** The replay when the timeline's first `k` events have had their turn. */
  ghost function Midway(q: Program, log: seq<CausalEvent>, tl: seq<CausalEvent>, origins: seq<(Name, Payload)>, k: nat)
    : State
    requires k <= |tl|
  {
    var seeded := SeedAll(Start(q), EmitsOf(log, WORLD), origins);
    SeedKeepsActors(Start(q), EmitsOf(log, WORLD), origins);
    ReplayAll(q, log, StartAll(q, log, seeded, q.names), tl[..k])
  }

  ghost predicate TurnGrounds(q: Program, log: seq<CausalEvent>, tl: seq<CausalEvent>, origins: seq<(Name, Payload)>,
          k: nat, d: Divergence)
  {
    && k < |tl| && tl[k].op == Recv && d.eventId == tl[k].id
    && match d.reason
       case NoMessageId => Key(tl[k]).None?
       case NoMessage => Key(tl[k]).Some? && Key(tl[k]).value !in Midway(q, log, tl, origins, k).pending
       case ActorNotRebuilt =>
         Key(tl[k]).Some? && Key(tl[k]).value in Midway(q, log, tl, origins, k).pending && tl[k].actor !in q.names
       case _ => false
  }

  /** Every complaint is deserved, and every deserved complaint is made. */
  lemma ComplaintsAreExact(q: Program, log: seq<CausalEvent>, tl: seq<CausalEvent>, origins: seq<(Name, Payload)>,
          d: Divergence)
    ensures var r := Replay(q, log, tl, origins);
      d in r.divergences <==>
      match d.reason
      case Differs => exists e :: e in r.made && e.id == d.eventId && Differing(log, e)
      case NoCounterpart => exists e :: e in r.made && e.id == d.eventId && Unrecorded(log, e)
      case TooManySends => exists a, j: nat :: ExtraSend(log, r, a, j) && d.eventId == SendLabel(a, j)
      case BadOriginId => exists k: nat :: OfSeed(EmitsOf(log, WORLD), origins, k, d)
      case OriginNotSupplied => exists k: nat :: OfSeed(EmitsOf(log, WORLD), origins, k, d)
      case NotReproduced => exists i: nat :: Missing(log, r, i, d.eventId)
      case _ => exists k: nat :: TurnGrounds(q, log, tl, origins, k, d)
  {
    hide SeedAll, StartAll, ReplayAll, Complete, EmitsOf, Differing, Unrecorded, ExtraSend, SendLabel, Key, Missing,
        Ledger, OfTurn, OfSeed;
    var wes := EmitsOf(log, WORLD);
    var st0 := SeedAll(Start(q), wes, origins);
    SeedKeepsActors(Start(q), wes, origins);
    SeedsComplain(Start(q), wes, origins, d);
    SeedFrame(Start(q), wes, origins);
    assert Ledger(log, st0.produced, st0, st0.divergences) by { NothingYet(log, st0); }
    var st1 := StartAll(q, log, st0, q.names);
    StartsLedger(q, log, st0.produced, st0, q.names, st0.divergences);
    var more := WalkLedger(q, log, st0.produced, st1, tl, st0.divergences);
    var st2 := ReplayAll(q, log, st1, tl);
    var r := Complete(st2, log);
    CompleteKeeps(st2, log);
    CompleteSays(st2, log, d);
    forall i: nat ensures Missing(log, st2, i, d.eventId) <==> Missing(log, r, i, d.eventId) {
      SameMissing(log, st2, r, i, d.eventId);
    }
    SeedReasons(wes, origins, d);
    forall k: nat ensures AtTurn(q, log, st1, tl, k, d) <==> TurnGrounds(q, log, tl, origins, k, d) {
      TurnsAlike(q, log, tl, origins, st1, k, d);
    }
    FromLedger(log, st0.produced, st2, r, st0.divergences + more, d);
  }

  lemma SameMissing(log: seq<CausalEvent>, st: State, r: State, i: nat, id: string)
    requires r.produced == st.produced
    ensures Missing(log, st, i, id) <==> Missing(log, r, i, id)
  {}

  lemma NothingYet(log: seq<CausalEvent>, st: State)
    requires st.made == [] && st.sends == map[]
    ensures Ledger(log, st.produced, st, st.divergences)
  {
    hide RecordedId, Differing, Unrecorded, SendLabel;
  }

  lemma SeedReasons(wes: seq<CausalEvent>, origins: seq<(Name, Payload)>, d: Divergence)
    ensures (exists k: nat :: OfSeed(wes, origins, k, d)) ==> d.reason == BadOriginId || d.reason == OriginNotSupplied
  {
    hide Key;
  }

  /** What the ledger says of one complaint, in terms of the final state. */
  lemma FromLedger(log: seq<CausalEvent>, sown: set<string>, st: State, r: State, others: seq<Divergence>,
          d: Divergence)
    requires Ledger(log, sown, st, others) && r == st.(divergences := r.divergences)
    ensures d in st.divergences <==>
            || d in others
            || match d.reason
               case Differs => exists e :: e in r.made && e.id == d.eventId && Differing(log, e)
               case NoCounterpart => exists e :: e in r.made && e.id == d.eventId && Unrecorded(log, e)
               case TooManySends => exists a, j: nat :: ExtraSend(log, r, a, j) && d.eventId == SendLabel(a, j)
               case _ => false
  {
    hide Differing, Unrecorded, RecordedId, SendLabel;
    forall a, j: nat ensures ExtraSend(log, r, a, j) <==> ExtraSend(log, st, a, j) {}
    assert forall e :: e in r.made <==> exists k :: 0 <= k < |st.made| && st.made[k] == e;
  }

  lemma TurnsAlike(q: Program, log: seq<CausalEvent>, tl: seq<CausalEvent>, origins: seq<(Name, Payload)>, st1: State,
          k: nat, d: Divergence)
    requires var seeded := SeedAll(Start(q), EmitsOf(log, WORLD), origins);
      q.names <= seeded.actors.Keys && st1 == StartAll(q, log, seeded, q.names)
    ensures AtTurn(q, log, st1, tl, k, d) <==> TurnGrounds(q, log, tl, origins, k, d)
  {
    hide SeedAll, StartAll, ReplayAll, EmitsOf, Key;
    if k < |tl| {
      var seeded := SeedAll(Start(q), EmitsOf(log, WORLD), origins);
      SeedKeepsActors(Start(q), EmitsOf(log, WORLD), origins);
      StartsKeepActors(q, log, seeded, q.names);
      WalkKeepsActors(q, log, st1, tl[..k]);
    }
  }

  lemma {:induction false} StartsKeepActors(q: Program, log: seq<CausalEvent>, st: State, rest: set<Name>)
    requires rest <= st.actors.Keys
    ensures StartAll(q, log, st, rest).actors.Keys == st.actors.Keys
    decreases |rest|
  {
    hide Drive;
    if rest != {} {
      var a := LeastName(rest);
      ActorsKept(q, log, st, a, None);
      StartsKeepActors(q, log, Drive(q, log, st, a, None), rest - {a});
    }
  }

  lemma {:induction false} WalkKeepsActors(q: Program, log: seq<CausalEvent>, st: State, tl: seq<CausalEvent>)
    ensures ReplayAll(q, log, st, tl).actors.Keys == st.actors.Keys
  {
    hide ReplayRecv;
    if tl != [] {
      WalkKeepsActors(q, log, st, tl[..|tl| - 1]);
      RecvKeepsActors(q, log, ReplayAll(q, log, st, tl[..|tl| - 1]), tl[|tl| - 1]);
    }
  }

  lemma RecvKeepsActors(q: Program, log: seq<CausalEvent>, st: State, ev: CausalEvent)
    ensures ReplayRecv(q, log, st, ev).actors.Keys == st.actors.Keys
  {
    hide ParseMid, Drive, OnRecv, Verify, RecvEvent;
    var m := if ev.msgId.Some? then ParseMid(ev.msgId.value) else None;
    if ev.op == Recv && m.Some? && m.value in st.pending {
      var a, env := ev.actor, st.pending[m.value];
      var s := OnRecv(StampIn(st, a), a, env.vclock, env.lamport);
      var open := st.(pending := st.pending - {m.value}, clocks := st.clocks[a := s]);
      var taken := Verify(log, open, RecvEvent(a, s, env));
      VerifyKeeps(log, open, RecvEvent(a, s, env));
      if a in taken.actors { ActorsKept(q, log, taken, a, Some(env.msg)); }
    }
  }

  // ---------------------------------------------------------------- what was produced

  ghost predicate SownAs(wes: seq<CausalEvent>, origins: seq<(Name, Payload)>, k: nat, id: string) {
    k < |wes| && k < |origins| && Key(wes[k]).Some? && wes[k].id == id
  }

  lemma {:induction false} SeedsProduce(st: State, wes: seq<CausalEvent>, origins: seq<(Name, Payload)>, id: string)
    requires st.produced == {}
    ensures id in SeedAll(st, wes, origins).produced <==> exists k: nat :: SownAs(wes, origins, k, id)
  {
    hide SeedOne, Key;
    if wes != [] {
      var n := |wes| - 1;
      SeedsProduce(st, wes[..n], origins, id);
      SeedOneProduces(SeedAll(st, wes[..n], origins), wes, origins, id);
      forall k: nat ensures SownAs(wes, origins, k, id) <==>
          SownAs(wes[..n], origins, k, id) || (k == n && SownAs(wes, origins, n, id))
      {
        if k < n { assert wes[..n][k] == wes[k]; }
      }
      if k: nat :| SownAs(wes[..n], origins, k, id) { assert SownAs(wes, origins, k, id); }
    }
  }

  lemma SeedOneProduces(st: State, wes: seq<CausalEvent>, origins: seq<(Name, Payload)>, id: string)
    requires wes != []
    ensures var n := |wes| - 1;
      id in SeedOne(st, wes[n], origins, n).produced <==> id in st.produced || SownAs(wes, origins, n, id)
  {
    hide ParseMid, VclockFrom;
  }

  /** An id counts as produced exactly when an event with it was re-executed, or when it is
      a recorded stimulus whose number can be read and that was supplied. */
  lemma ProducedIsExact(q: Program, log: seq<CausalEvent>, tl: seq<CausalEvent>, origins: seq<(Name, Payload)>,
          id: string)
    ensures var r := Replay(q, log, tl, origins);
      id in r.produced <==>
      (exists k: nat :: MadeAs(r, k, id)) || exists k: nat :: SownAs(EmitsOf(log, WORLD), origins, k, id)
  {
    hide SeedAll, StartAll, ReplayAll, Complete, EmitsOf, Key;
    var wes := EmitsOf(log, WORLD);
    var st0 := SeedAll(Start(q), wes, origins);
    SeedKeepsActors(Start(q), wes, origins);
    SeedsProduce(Start(q), wes, origins, id);
    SeedFrame(Start(q), wes, origins);
    assert Ledger(log, st0.produced, st0, st0.divergences) by { NothingYet(log, st0); }
    var st1 := StartAll(q, log, st0, q.names);
    StartsLedger(q, log, st0.produced, st0, q.names, st0.divergences);
    var more := WalkLedger(q, log, st0.produced, st1, tl, st0.divergences);
    var st2 := ReplayAll(q, log, st1, tl);
    var r := Complete(st2, log);
    CompleteKeeps(st2, log);
    forall k: nat ensures MadeAs(r, k, id) <==> MadeAs(st2, k, id) {}
  }

  /** And a receive is among the re-executed events if its message was pending when its
      turn came: exactly then it is not complained of as lacking a message. */
  lemma ReceivesAreMade(q: Program, log: seq<CausalEvent>, tl: seq<CausalEvent>, origins: seq<(Name, Payload)>, k: nat)
    requires k < |tl| && tl[k].op == Recv && Key(tl[k]).Some?
    requires Key(tl[k]).value in Midway(q, log, tl, origins, k).pending
    ensures exists e :: e in Replay(q, log, tl, origins).made
                        && IsRecvOf(e, tl[k].actor, Midway(q, log, tl, origins, k).pending[Key(tl[k]).value])
  {
    hide SeedAll, StartAll, ReplayAll, ReplayRecv, Complete, EmitsOf, Key, IsRecvOf;
    var seeded := SeedAll(Start(q), EmitsOf(log, WORLD), origins);
    SeedKeepsActors(Start(q), EmitsOf(log, WORLD), origins);
    var st1 := StartAll(q, log, seeded, q.names);
    var before := Midway(q, log, tl, origins, k);
    var after := ReplayRecv(q, log, before, tl[k]);
    RecvMakes(q, log, before, tl[k]);
    assert ReplayAll(q, log, st1, tl[..k + 1]) == after by { OneMoreTurn(q, log, st1, tl, k); }
    WalkMakes(q, log, st1, tl, k + 1);
    var st2 := ReplayAll(q, log, st1, tl);
    CompleteKeeps(st2, log);
    assert st2.made[|before.made|] == after.made[|before.made|];
    assert st2.made[|before.made|] in Complete(st2, log).made;
  }

  lemma OneMoreTurn(q: Program, log: seq<CausalEvent>, st: State, tl: seq<CausalEvent>, k: nat)
    requires k < |tl|
    ensures ReplayAll(q, log, st, tl[..k + 1]) == ReplayRecv(q, log, ReplayAll(q, log, st, tl[..k]), tl[k])
  {
    hide ReplayRecv;
    assert tl[..k + 1][..k] == tl[..k];
  }
}
