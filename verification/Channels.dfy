/** Order of delivery: in every run, what one sender sends to one receiver is received in
    the order it was sent, and nothing is skipped. */
module Channels {
  import opened Names
  import opened Clocks
  import opened Events
  import opened Logs
  import opened Recorder
  import opened Traces
  import opened Recordings
  import opened Posets
  import opened Embedding
  import opened Runs

  /** `e` is what `b` sent at place `x` of its history; the main thread's history is its
      list of origins. */
  ghost predicate SentBy(w: World, b: Name, x: nat, e: Envelope) {
    if b == WORLD then x < |w.origins| && w.origins[x] == e
    else b in w.tasks && x < |w.tasks[b].trace| && w.tasks[b].trace[x] == DidSend(e)
  }

  /** `b` has logged the send of `e` and not yet got rid of it. */
  ghost predicate Holds(w: World, b: Name, e: Envelope) {
    if b == WORLD then w.main == OriginRecorded(e) || w.main == OriginCounted(e)
    else b in w.tasks && (w.tasks[b].phase == Recorded(e) || w.tasks[b].phase == Counted(e))
  }

  ghost predicate Gone(w: World, c: Name) { c in w.tasks && w.tasks[c].phase.Aborted? }

  ghost predicate InBox(box: seq<Envelope>, k: nat, id: nat) { k < |box| && box[k].msgId == id }

  ghost predicate Boxed(w: World, c: Name, id: nat) { c in w.boxes && exists k: nat :: InBox(w.boxes[c], k, id) }

  /** Where a message that was sent can be, and on whose account. */
  ghost predicate Whereabouts(w: World, b: Name, e: Envelope) {
    && e.msgId in w.place
    && match w.place[e.msgId]
       case InDraw(_) => false
       case InHand(_) => Holds(w, b, e) || Gone(w, e.dst)
       case Queued(c) => c == e.dst && (Boxed(w, c, e.msgId) || Gone(w, c))
       case Taken(c) => c == e.dst && c in w.tasks && w.tasks[c].phase.Popped? && w.tasks[c].phase.env.msgId == e.msgId
       case Received(c, n) =>
         && c == e.dst && c in w.tasks && n < |w.tasks[c].trace|
         && w.tasks[c].trace[n].DidRecv? && w.tasks[c].trace[n].env.msgId == e.msgId
  }

  /** `d` is queued ahead of `e`, where `e` is queued at all. */
  ghost predicate Ahead(box: seq<Envelope>, d: nat, e: nat) {
    forall l: nat | InBox(box, l, e) :: exists k: nat :: k < l && InBox(box, k, d)
  }

  /** `d`, sent before `e` to the same receiver, is never behind it. */
  ghost predicate Precedes(w: World, d: Envelope, e: Envelope)
    requires d.msgId in w.place && e.msgId in w.place
  {
    var p := w.place[d.msgId];
    match w.place[e.msgId]
    case Queued(c) =>
      Gone(w, c) || p.Received? || p.Taken? || (p.Queued? && c in w.boxes && Ahead(w.boxes[c], d.msgId, e.msgId))
    case Taken(_) => p.Received?
    case Received(_, n) => p.Received? && p.at < n
    case _ => true
  }

  ghost predicate InOrder(w: World, b: Name, x: nat, y: nat, d: Envelope, e: Envelope) {
    SentBy(w, b, x, d) && SentBy(w, b, y, e) && x < y && d.dst == e.dst
  }

  /** Every channel is in order. */
  ghost predicate Lines(w: World) {
    && (forall b, x: nat, e | SentBy(w, b, x, e) :: Whereabouts(w, b, e))
    && (forall b, x: nat, y: nat, d, e | InOrder(w, b, x, y, d, e) ::
          d.msgId in w.place && e.msgId in w.place && Precedes(w, d, e))
    && (forall c | Gone(w, c) :: w.main.Finished?)
    && (forall b, e | Holds(w, b, e) :: exists x: nat :: SentBy(w, b, x, e))
  }

  /** One message per number. */
  ghost predicate Numbered(w: World) {
    forall b, x: nat, d, c, y: nat, e | SentBy(w, b, x, d) && SentBy(w, c, y, e) && d.msgId == e.msgId ::
      b == c && x == y
  }

  lemma InvNumbered(p: Program, w: World)
    requires p.WellFormed() && Inv(p, w)
    ensures Numbered(w)
    ensures forall b, x: nat, e | SentBy(w, b, x, e) :: e.msgId in w.place && e.msgId in w.sentAt && e.msgId <= w.nextId
  {
    hide TasksOk, LogOk, WellStamped, Program.Addressed, OriginMsgs, ActorMsgs;
    forall b, x: nat, e | SentBy(w, b, x, e) ensures e.msgId in w.sentAt && w.sentAt[e.msgId] == (b, x) {
      SentAtHere(p, w, b, x, e);
    }
  }

  lemma SentAtHere(p: Program, w: World, b: Name, x: nat, e: Envelope)
    requires p.WellFormed() && Inv(p, w) && SentBy(w, b, x, e)
    ensures e.msgId in w.sentAt && w.sentAt[e.msgId] == (b, x) && Sent(w, e)
  {
    hide TasksOk, LogOk, WellStamped, Program.Addressed, IdsOk;
    if b != WORLD {
      InvNames(p, w, b);
      MessagesOf(p, w, b);
      assert TraceMsgs(w, b, w.tasks[b].trace);
    }
  }

  // ------------------------------------------------------------ frames of one step

  ghost predicate SameSent(w: World, v: World) { forall b, x: nat, e :: SentBy(v, b, x, e) <==> SentBy(w, b, x, e) }

  /** What a step leaves alone: who held a message still does, unless its receiver is gone
      or it is number `but`; whoever is between taking a message and logging it still is,
      unless it is `a`; histories only grow; the aborted stay so, and there are none before
      the end. */
  ghost predicate Calm(w: World, v: World, a: Name, but: nat) {
    && (forall b, e | Holds(w, b, e) && e.msgId != but :: Holds(v, b, e) || Gone(v, e.dst))
    && (forall c | Gone(w, c) :: Gone(v, c))
    && (forall c | Gone(v, c) :: v.main.Finished?)
    && (forall c | c in w.tasks && c != a && w.tasks[c].phase.Popped? ::
          c in v.tasks && v.tasks[c].phase == w.tasks[c].phase)
    && (forall c | c in w.tasks :: c in v.tasks && w.tasks[c].trace <= v.tasks[c].trace)
  }

  /** No one comes to hold a message. */
  ghost predicate NoNewHolds(w: World, v: World) { forall b, e | Holds(v, b, e) :: Holds(w, b, e) }

  /** Of the messages that were sent at most number `id` has moved. */
  ghost predicate MovedOnly(w: World, v: World, id: nat) {
    forall i | i in w.place && i != id :: i in v.place && v.place[i] == w.place[i]
  }

  /** A step that moves no message that was sent. */
  lemma LinesQuiet(w: World, v: World, a: Name, drawn: nat)
    requires NoNewHolds(w, v)
    requires Lines(w) && SameSent(w, v) && Calm(w, v, a, drawn) && v.boxes == w.boxes && MovedOnly(w, v, drawn)
    requires a in w.tasks ==> !w.tasks[a].phase.Popped?
    requires forall b, x: nat, e | SentBy(w, b, x, e) :: e.msgId != drawn
    ensures Lines(v)
  {
    hide SentBy, Holds, Gone, Ahead;
    forall b, x: nat, e | SentBy(v, b, x, e) ensures Whereabouts(v, b, e) { assert Whereabouts(w, b, e); }
    forall b, x: nat, y: nat, d, e | InOrder(v, b, x, y, d, e)
      ensures d.msgId in v.place && e.msgId in v.place && Precedes(v, d, e)
    {
      assert InOrder(w, b, x, y, d, e);
    }
  }

  /** A send is logged: it is its sender's last, and in its sender's hands. */
  lemma LinesSend(w: World, v: World, b: Name, x: nat, e: Envelope)
    requires Lines(w) && Calm(w, v, b, e.msgId) && v.boxes == w.boxes && MovedOnly(w, v, e.msgId)
    requires b in w.tasks ==> !w.tasks[b].phase.Popped?
    requires forall c, y: nat, d :: SentBy(v, c, y, d) <==> SentBy(w, c, y, d) || (c == b && y == x && d == e)
    requires forall c, y: nat, d | SentBy(w, c, y, d) :: d.msgId != e.msgId && (c == b ==> y < x)
    requires e.msgId in v.place && v.place[e.msgId].InHand? && Holds(v, b, e)
    requires forall c, d | Holds(v, c, d) :: Holds(w, c, d) || (c == b && d == e)
    ensures Lines(v)
  {
    hide SentBy, Holds, Gone, Ahead;
    forall c, d | Holds(v, c, d) ensures exists y: nat :: SentBy(v, c, y, d) {
      if c == b && d == e {
        assert SentBy(v, b, x, e);
      } else {
        var y: nat :| SentBy(w, c, y, d);
        assert SentBy(v, c, y, d);
      }
    }
    forall c, y: nat, d | SentBy(v, c, y, d) ensures Whereabouts(v, c, d) {
      if SentBy(w, c, y, d) { assert Whereabouts(w, c, d); }
    }
    forall c, y: nat, z: nat, d, f | InOrder(v, c, y, z, d, f)
      ensures d.msgId in v.place && f.msgId in v.place && Precedes(v, d, f)
    {
      if InOrder(w, c, y, z, d, f) {
      } else {
        assert f == e;
        assert Whereabouts(w, c, d);
      }
    }
  }

  lemma AheadTail(box: seq<Envelope>, d: nat, e: nat)
    requires box != [] && box[0].msgId != d && Ahead(box, d, e)
    ensures Ahead(box[1..], d, e)
  {
    forall l: nat | InBox(box[1..], l, e) ensures exists k: nat :: k < l && InBox(box[1..], k, d) {
      assert InBox(box, l + 1, e);
      var k: nat :| k < l + 1 && InBox(box, k, d);
      assert InBox(box[1..], k - 1, d);
    }
  }

  lemma FirstIsFirst(box: seq<Envelope>, d: nat)
    requires box != []
    ensures !Ahead(box, d, box[0].msgId)
  {
    assert InBox(box, 0, box[0].msgId);
  }

  lemma BoxedTail(box: seq<Envelope>, id: nat)
    requires box != [] && box[0].msgId != id && exists k: nat :: InBox(box, k, id)
    ensures exists k: nat :: InBox(box[1..], k, id)
  {
    var k: nat :| InBox(box, k, id);
    assert InBox(box[1..], k - 1, id);
  }

  /** The head of a mailbox is taken. */
  lemma LinesPop(w: World, v: World, a: Name, e: Envelope)
    requires NoNewHolds(w, v)
    requires Lines(w) && Numbered(w) && SameSent(w, v) && Calm(w, v, a, 0) && MovedOnly(w, v, e.msgId)
    requires forall b, x: nat, d | SentBy(w, b, x, d) :: d.msgId != 0
    requires a in w.tasks && w.tasks[a].phase.Idle? && a in w.boxes && w.boxes[a] != [] && w.boxes[a][0] == e
    requires v.boxes == w.boxes[a := w.boxes[a][1..]] && a in v.tasks && v.tasks[a].phase == Popped(e)
    requires e.msgId in w.place && w.place[e.msgId] == Queued(a) && e.msgId in v.place && v.place[e.msgId] == Taken(a)
    ensures Lines(v)
  {
    hide SentBy, Holds, Ahead, InBox;
    assert !Gone(w, a);
    forall b, x: nat, d | SentBy(v, b, x, d) ensures Whereabouts(v, b, d) {
      assert Whereabouts(w, b, d);
      if d.msgId != e.msgId && w.place[d.msgId] == Queued(a) { BoxedTail(w.boxes[a], d.msgId); }
    }
    forall b, x: nat, y: nat, d, f | InOrder(v, b, x, y, d, f)
      ensures d.msgId in v.place && f.msgId in v.place && Precedes(v, d, f)
    {
      assert InOrder(w, b, x, y, d, f) && Whereabouts(w, b, d) && Whereabouts(w, b, f);
      assert d.msgId != f.msgId;
      if f.msgId == e.msgId {
        if w.place[d.msgId].Queued? { FirstIsFirst(w.boxes[a], d.msgId); }
      } else if d.msgId != e.msgId && w.place[f.msgId] == Queued(a) && w.place[d.msgId].Queued? {
        AheadTail(w.boxes[a], d.msgId, f.msgId);
      }
    }
  }

  /** A taken message is logged as received, after all that its receiver logged before. */
  lemma LinesTake(w: World, v: World, a: Name, e: Envelope)
    requires NoNewHolds(w, v)
    requires Lines(w) && Numbered(w) && SameSent(w, v) && Calm(w, v, a, 0) && MovedOnly(w, v, e.msgId)
    requires forall b, x: nat, d | SentBy(w, b, x, d) :: d.msgId != 0
    requires a in w.tasks && w.tasks[a].phase == Popped(e) && v.boxes == w.boxes
    requires e.msgId in w.place && w.place[e.msgId] == Taken(a) && e.msgId in v.place
    requires v.place[e.msgId] == Received(a, |w.tasks[a].trace|)
    requires a in v.tasks && v.tasks[a].trace == w.tasks[a].trace + [DidRecv(e)]
    ensures Lines(v)
  {
    hide SentBy, Holds, Gone, Ahead;
    forall b, x: nat, d | SentBy(v, b, x, d) ensures Whereabouts(v, b, d) { assert Whereabouts(w, b, d); }
    forall b, x: nat, y: nat, d, f | InOrder(v, b, x, y, d, f)
      ensures d.msgId in v.place && f.msgId in v.place && Precedes(v, d, f)
    {
      assert InOrder(w, b, x, y, d, f) && Whereabouts(w, b, d) && Whereabouts(w, b, f);
      assert d.msgId != f.msgId;
    }
  }

  lemma AheadLast(box: seq<Envelope>, d: nat, e: Envelope)
    requires (exists k: nat :: InBox(box, k, d)) && forall k: nat :: !InBox(box, k, e.msgId)
    ensures Ahead(box + [e], d, e.msgId)
  {
    var k: nat :| InBox(box, k, d);
    forall l: nat | InBox(box + [e], l, e.msgId) ensures k < l && InBox(box + [e], k, d) {
      if l < |box| { assert InBox(box, l, e.msgId); }
    }
  }

  lemma AheadMore(box: seq<Envelope>, d: nat, f: nat, e: Envelope)
    requires Ahead(box, d, f) && f != e.msgId
    ensures Ahead(box + [e], d, f)
  {
    forall l: nat | InBox(box + [e], l, f) ensures exists k: nat :: k < l && InBox(box + [e], k, d) {
      assert InBox(box, l, f);
      var k: nat :| k < l && InBox(box, k, d);
      assert InBox(box + [e], k, d);
    }
  }

  lemma BoxedMore(w: World, v: World, e: Envelope, c: Name, id: nat)
    requires e.dst in w.boxes && v.boxes == w.boxes[e.dst := w.boxes[e.dst] + [e]]
    requires (id == e.msgId && c == e.dst) || Boxed(w, c, id)
    ensures Boxed(v, c, id)
  {
    var box := w.boxes[e.dst];
    if id == e.msgId && c == e.dst {
      assert InBox(box + [e], |box|, id);
    } else {
      var k: nat :| InBox(w.boxes[c], k, id);
      assert InBox(v.boxes[c], k, id);
    }
  }

  /** A message in hand is queued last. */
  lemma LinesDeliver(w: World, v: World, a: Name, b: Name, x: nat, e: Envelope)
    requires NoNewHolds(w, v)
    requires Lines(w) && Numbered(w) && SameSent(w, v) && Calm(w, v, a, e.msgId) && MovedOnly(w, v, e.msgId)
    requires a in w.tasks ==> !w.tasks[a].phase.Popped?
    requires SentBy(w, b, x, e) && Holds(w, b, e) && e.msgId in w.place && w.place[e.msgId].InHand?
    requires forall d | Holds(w, b, d) :: d == e
    requires !Gone(w, e.dst) && e.dst in w.boxes && v.boxes == w.boxes[e.dst := w.boxes[e.dst] + [e]]
    requires e.msgId in v.place && v.place[e.msgId] == Queued(e.dst)
    requires forall k: nat :: !InBox(w.boxes[e.dst], k, e.msgId)
    ensures Lines(v)
  {
    hide SentBy, Holds, Gone, Ahead, InBox;
    forall c, y: nat, d | SentBy(v, c, y, d) ensures Whereabouts(v, c, d) {
      assert Whereabouts(w, c, d);
      if d.msgId == e.msgId { OneSend(w, c, y, d, b, x, e); }
      if v.place[d.msgId].Queued? && !Gone(w, d.dst) { BoxedMore(w, v, e, d.dst, d.msgId); }
    }
    forall c, y: nat, z: nat, d, f | InOrder(v, c, y, z, d, f)
      ensures d.msgId in v.place && f.msgId in v.place && Precedes(v, d, f)
    {
      assert InOrder(w, c, y, z, d, f) && Whereabouts(w, c, d) && Whereabouts(w, c, f) && Precedes(w, d, f);
      assert d.msgId != f.msgId;
      if f.msgId == e.msgId {
        assert c == b && z == x && f == e by { OneSend(w, c, z, f, b, x, e); }
        if w.place[d.msgId].Queued? { AheadLast(w.boxes[e.dst], d.msgId, e); }
      } else if w.place[f.msgId] == Queued(e.dst) && w.place[d.msgId].Queued? && !Gone(w, e.dst) {
        AheadMore(w.boxes[e.dst], d.msgId, f.msgId, e);
      }
    }
  }

  lemma OneSend(w: World, b: Name, x: nat, d: Envelope, c: Name, y: nat, e: Envelope)
    requires Numbered(w) && SentBy(w, b, x, d) && SentBy(w, c, y, e) && d.msgId == e.msgId
    ensures b == c && x == y && d == e
  {}

  lemma BoxedElsewhere(w: World, v: World, c: Name, a: Name, id: nat)
    requires Boxed(w, a, id) && a != c && v.boxes == w.boxes[c := []]
    ensures Boxed(v, a, id)
  {
    var k: nat :| InBox(w.boxes[a], k, id);
    assert InBox(v.boxes[a], k, id);
  }

  /** An actor is aborted at its mailbox. */
  lemma LinesAbort(w: World, v: World, c: Name)
    requires NoNewHolds(w, v)
    requires Lines(w) && SameSent(w, v) && Calm(w, v, c, 0) && v.place == w.place && Gone(v, c)
    requires forall b, x: nat, d | SentBy(w, b, x, d) :: d.msgId != 0
    requires c in w.tasks && !w.tasks[c].phase.Popped? && v.boxes == w.boxes[c := []]
    ensures Lines(v)
  {
    hide SentBy, Holds, Gone, Ahead;
    forall b, x: nat, e | SentBy(v, b, x, e) ensures Whereabouts(v, b, e) {
      assert Whereabouts(w, b, e);
      if w.place[e.msgId].Queued? && e.dst != c && !Gone(w, e.dst) { BoxedElsewhere(w, v, c, e.dst, e.msgId); }
    }
    forall b, x: nat, y: nat, d, e | InOrder(v, b, x, y, d, e)
      ensures d.msgId in v.place && e.msgId in v.place && Precedes(v, d, e)
    {
      assert InOrder(w, b, x, y, d, e);
    }
  }

  // ------------------------------------------------------------------- the steps

  /** One task has moved, within its history or by one entry of it. */
  ghost predicate OneTask(w: World, v: World, a: Name, t: Task, d: seq<Done>) {
    && a in w.tasks && a != WORLD && v.tasks == w.tasks[a := t] && v.main == w.main && v.origins == w.origins
    && |d| <= 1 && t.trace == w.tasks[a].trace + d
    && !w.tasks[a].phase.Aborted? && !t.phase.Aborted?
  }

  lemma TaskCalm(w: World, v: World, a: Name, t: Task, d: seq<Done>, but: nat)
    requires Lines(w) && OneTask(w, v, a, t, d)
    requires forall e | Holds(w, a, e) && e.msgId != but ::
               t.phase == Recorded(e) || t.phase == Counted(e) || Gone(w, e.dst)
    ensures Calm(w, v, a, but)
    ensures forall b, x: nat, e ::
      SentBy(v, b, x, e) <==> SentBy(w, b, x, e) || (b == a && x == |w.tasks[a].trace| && d == [DidSend(e)])
    ensures d == [] || !d[0].DidSend? ==> SameSent(w, v)
    ensures (forall e | t.phase == Recorded(e) || t.phase == Counted(e) :: Holds(w, a, e)) ==> NoNewHolds(w, v)
  {
    hide Whereabouts, Precedes, InOrder;
    assert forall c :: Gone(v, c) <==> Gone(w, c);
    forall b, x: nat, e ensures SentBy(v, b, x, e) <==>
        SentBy(w, b, x, e) || (b == a && x == |w.tasks[a].trace| && d == [DidSend(e)])
    {
      if b == a && x < |t.trace| { assert t.trace[x] == if x < |w.tasks[a].trace| then w.tasks[a].trace[x] else d[0]; }
    }
  }

  lemma QuietStep(p: Program, w: World, v: World, a: Name, t: Task, d: seq<Done>)
    requires p.WellFormed() && Inv(p, w) && Lines(w) && OneTask(w, v, a, t, d)
    requires v.boxes == w.boxes && v.place == w.place && !w.tasks[a].phase.Popped? && (d == [] || !d[0].DidSend?)
    requires forall e | Holds(w, a, e) :: t.phase == Recorded(e) || t.phase == Counted(e) || Gone(w, e.dst)
    requires forall e | t.phase == Recorded(e) || t.phase == Counted(e) :: Holds(w, a, e)
    ensures Lines(v)
  {
    hide Inv, Lines, Holds, SentBy, Program.Addressed;
    TaskCalm(w, v, a, t, d, 0);
    NumbersPositive(p, w);
    LinesQuiet(w, v, a, 0);
  }

  lemma NumbersPositive(p: Program, w: World)
    requires p.WellFormed() && Inv(p, w)
    ensures forall b, x: nat, e | SentBy(w, b, x, e) :: 0 != e.msgId <= w.nextId && e.msgId in w.place
    ensures Numbered(w)
  {
    hide TasksOk, LogOk, WellStamped, Program.Addressed, OriginMsgs, ActorMsgs, SentBy;
    InvNumbered(p, w);
  }

  lemma DrawStep(p: Program, w: World, a: Name, dst: Name, msg: Payload)
    requires p.WellFormed() && Inv(p, w) && Lines(w) && a in w.tasks && a != WORLD && w.tasks[a].todo != []
    requires w.tasks[a].phase.Acting?
    ensures Lines(DrawId(w, a, w.tasks[a], dst, msg))
  {
    hide Inv, Lines, SentBy, Program.Addressed, OnLocal, Outgoing;
    var v := DrawId(w, a, w.tasks[a], dst, msg);
    TaskCalm(w, v, a, v.tasks[a], [], 0);
    NumbersPositive(p, w);
    assert Calm(w, v, a, w.nextId + 1) by { CalmFor(w, v, a, w.nextId + 1); }
    LinesQuiet(w, v, a, w.nextId + 1);
  }

  lemma CalmFor(w: World, v: World, a: Name, but: nat)
    requires Calm(w, v, a, 0) && forall b, e | Holds(w, b, e) :: Holds(v, b, e)
    ensures Calm(w, v, a, but)
  {
    hide Holds, Gone;
  }

  lemma PopStep(p: Program, w: World, a: Name)
    requires p.WellFormed() && Inv(p, w) && Lines(w) && a in w.tasks && a != WORLD && a in w.boxes && w.boxes[a] != []
    requires w.tasks[a].phase.Idle?
    ensures Lines(Pop(w, a, w.tasks[a]))
  {
    hide TasksOk, LogOk, WellStamped, IdsOk, OriginMsgs, Lines, SentBy, Program.Addressed, OnRecv, Sent;
    var v, e := Pop(w, a, w.tasks[a]), w.boxes[a][0];
    InvNames(p, w, a);
    MessagesOf(p, w, a);
    assert BoxMsgs(w, a, w.boxes[a]);
    TaskCalm(w, v, a, v.tasks[a], [], 0);
    NumbersPositive(p, w);
    LinesPop(w, v, a, e);
  }

  lemma TakeStep(p: Program, w: World, a: Name, e: Envelope)
    requires p.WellFormed() && Inv(p, w) && Lines(w) && a in w.tasks && a != WORLD && w.tasks[a].phase == Popped(e)
    ensures Lines(LogRecv(p, w, a, w.tasks[a], e))
  {
    hide TasksOk, LogOk, WellStamped, IdsOk, OriginMsgs, Lines, SentBy, Program.Addressed, RecvEvent, Sent, TraceMsgs;
    var v := LogRecv(p, w, a, w.tasks[a], e);
    InvNames(p, w, a);
    MessagesOf(p, w, a);
    TaskCalm(w, v, a, v.tasks[a], [DidRecv(e)], 0);
    NumbersPositive(p, w);
    LinesTake(w, v, a, e);
  }

  lemma SendStep(p: Program, w: World, a: Name, e: Envelope)
    requires p.WellFormed() && Inv(p, w) && Lines(w) && a in w.tasks && a != WORLD && w.tasks[a].phase == Identified(e)
    ensures Lines(LogEmit(w, a, w.tasks[a], e))
  {
    hide TasksOk, LogOk, WellStamped, IdsOk, OriginMsgs, Lines, Program.Addressed, EmitEvent, Sent, TraceMsgs;
    var v := LogEmit(w, a, w.tasks[a], e);
    InvNames(p, w, a);
    MessagesOf(p, w, a);
    TaskCalm(w, v, a, v.tasks[a], [DidSend(e)], e.msgId);
    InvNumbered(p, w);
    LinesSend(w, v, a, |w.tasks[a].trace|, e);
  }

  lemma NotYetBoxed(p: Program, w: World, c: Name, e: Envelope)
    requires p.WellFormed() && Inv(p, w) && c in w.boxes && e.msgId in w.place && !w.place[e.msgId].Queued?
    ensures forall k: nat :: !InBox(w.boxes[c], k, e.msgId)
  {
    hide LogOk, WellStamped, IdsOk, OriginMsgs, Program.Addressed, Sent, TraceMsgs, HandMsgs, TaskOk;
    MessagesOf(p, w, c);
    assert BoxMsgs(w, c, w.boxes[c]);
  }

  lemma DeliverStep(p: Program, w: World, a: Name, e: Envelope)
    requires p.WellFormed() && Inv(p, w) && Lines(w) && a in w.tasks && a != WORLD && w.tasks[a].phase == Counted(e)
    requires e.dst in w.boxes && e.dst in w.tasks && !w.tasks[e.dst].phase.Aborted?
    ensures Lines(Deliver(w, a, w.tasks[a], e))
  {
    hide TasksOk, LogOk, WellStamped, IdsOk, OriginMsgs, Lines, SentBy, Program.Addressed, Sent, TraceMsgs, InBox;
    var v := Deliver(w, a, w.tasks[a], e);
    InvNames(p, w, a);
    MessagesOf(p, w, a);
    NotYetBoxed(p, w, e.dst, e);
    TaskCalm(w, v, a, v.tasks[a], [], e.msgId);
    NumbersPositive(p, w);
    var x := HeldSent(w, a, e);
    LinesDeliver(w, v, a, a, x, e);
  }

  lemma HeldSent(w: World, b: Name, e: Envelope) returns (x: nat)
    requires Lines(w) && Holds(w, b, e)
    ensures SentBy(w, b, x, e)
  {
    hide Holds, SentBy, Whereabouts, Precedes;
    x :| SentBy(w, b, x, e);
  }

  lemma MailboxStep(p: Program, w: World, v: World, a: Name)
    requires p.WellFormed() && Inv(p, w) && Lines(w) && a in w.tasks && a != WORLD && StepTask(p, w, a) == Some(v)
    requires w.tasks[a].phase.Fresh? || w.tasks[a].phase.Idle? || w.tasks[a].phase.Popped?
    ensures Lines(v)
  {
    hide Inv, Lines, Pop, LogRecv, Program.Addressed;
    match w.tasks[a].phase
    case Fresh => QuietStep(p, w, v, a, v.tasks[a], []);
    case Idle => PopStep(p, w, a);
    case Popped(e) => TakeStep(p, w, a, e);
  }

  lemma ActingStep(p: Program, w: World, v: World, a: Name)
    requires p.WellFormed() && Inv(p, w) && Lines(w) && a in w.tasks && a != WORLD && StepTask(p, w, a) == Some(v)
    requires w.tasks[a].phase.Acting?
    ensures Lines(v)
  {
    hide Inv, Lines, DrawId, Program.Addressed, OnLocal, ComputeEvent;
    var t := w.tasks[a];
    if t.todo == [] {
      QuietStep(p, w, v, a, v.tasks[a], []);
    } else if t.todo[0].Work? {
      QuietStep(p, w, v, a, v.tasks[a], [DidWork]);
    } else {
      DrawStep(p, w, a, t.todo[0].dst, t.todo[0].msg);
    }
  }

  lemma SendingStep(p: Program, w: World, v: World, a: Name)
    requires p.WellFormed() && Inv(p, w) && Lines(w) && a in w.tasks && a != WORLD && StepTask(p, w, a) == Some(v)
    requires var f := w.tasks[a].phase; f.Identified? || f.Recorded? || f.Counted? || f.Undoing? || f.Waking?
    ensures Lines(v)
  {
    hide Inv, Lines, LogEmit, Deliver, Program.Addressed;
    match w.tasks[a].phase
    case Identified(e) => SendStep(p, w, a, e);
    case Counted(e) =>
      if w.tasks[e.dst].phase.Aborted? {
        QuietStep(p, w, v, a, v.tasks[a], []);
      } else {
        DeliverStep(p, w, a, e);
      }
    case Recorded(_) => QuietStep(p, w, v, a, v.tasks[a], []);
    case Undoing => QuietStep(p, w, v, a, v.tasks[a], []);
    case Waking(_) => QuietStep(p, w, v, a, v.tasks[a], []);
  }

  lemma TaskStep(p: Program, w: World, v: World, a: Name)
    requires p.WellFormed() && Inv(p, w) && Lines(w) && a in w.tasks && StepTask(p, w, a) == Some(v)
    ensures Lines(v)
  {
    hide Inv, Lines, StepTask, Program.Addressed;
    assert a != WORLD by { InvNames(p, w, a); }
    match w.tasks[a].phase
    case Fresh => MailboxStep(p, w, v, a);
    case Idle => MailboxStep(p, w, v, a);
    case Popped(e) => MailboxStep(p, w, v, a);
    case Acting => ActingStep(p, w, v, a);
    case Aborted(_) => assert false by { AbortedIsStuck(p, w, a); }
    case _ => SendingStep(p, w, v, a);
  }

  // the main thread

  ghost predicate OneMain(w: World, v: World) { v.tasks == w.tasks && !w.main.Finished? }

  lemma MainCalm(w: World, v: World, but: nat)
    requires Lines(w) && OneMain(w, v) && w.origins <= v.origins
    requires forall e | Holds(w, WORLD, e) && e.msgId != but :: Holds(v, WORLD, e)
    ensures Calm(w, v, WORLD, but) && forall c :: !Gone(w, c)
    ensures forall b, x: nat, e :: SentBy(v, b, x, e) <==>
        SentBy(w, b, x, e) || (b == WORLD && |w.origins| <= x < |v.origins| && v.origins[x] == e)
    ensures (forall e | Holds(v, WORLD, e) :: Holds(w, WORLD, e)) ==> NoNewHolds(w, v)
  {
    hide Whereabouts, Precedes, InOrder;
    assert forall c :: Gone(v, c) <==> Gone(w, c);
  }

  lemma MainStep(p: Program, w: World, v: World)
    requires p.WellFormed() && Inv(p, w) && Lines(w) && StepMain(w) == Some(v)
    ensures Lines(v)
  {
    hide Inv, Lines, LogOrigin, DeliverOrigin, SentBy, Program.Addressed;
    match w.main
    case Drawn(e) => OriginStep(p, w, e);
    case OriginCounted(e) => QueueStep(p, w, e);
    case Injecting => QuietMain(p, w, v);
    case OriginRecorded(e) => QuietMain(p, w, v);
    case Checking => QuietMain(p, w, v);
    case Waiting => QuietMain(p, w, v);
  }

  lemma QuietMain(p: Program, w: World, v: World)
    requires p.WellFormed() && Inv(p, w) && Lines(w) && OneMain(w, v) && v.origins == w.origins
    requires v.boxes == w.boxes && v.place == w.place
    requires forall e :: Holds(v, WORLD, e) <==> Holds(w, WORLD, e)
    ensures Lines(v)
  {
    hide Inv, Lines, Holds, SentBy, Program.Addressed;
    MainCalm(w, v, 0);
    NumbersPositive(p, w);
    WorldIsNoTask(p, w);
    LinesQuiet(w, v, WORLD, 0);
  }

  lemma WorldIsNoTask(p: Program, w: World)
    requires p.WellFormed() && Inv(p, w)
    ensures WORLD !in w.tasks
  {
    hide Inv, Program.Addressed;
    if WORLD in w.tasks { InvNames(p, w, WORLD); }
  }

  lemma OriginStep(p: Program, w: World, e: Envelope)
    requires p.WellFormed() && Inv(p, w) && Lines(w) && w.main == Drawn(e)
    ensures Lines(LogOrigin(w, e))
  {
    hide TasksOk, LogOk, WellStamped, IdsOk, OriginMsgs, Lines, Program.Addressed, EmitEvent, Sent, ActorMsgs;
    var v := LogOrigin(w, e);
    MainCalm(w, v, e.msgId);
    InvNumbered(p, w);
    WorldIsNoTask(p, w);
    LinesSend(w, v, WORLD, |w.origins|, e);
  }

  lemma QueueStep(p: Program, w: World, e: Envelope)
    requires p.WellFormed() && Inv(p, w) && Lines(w) && w.main == OriginCounted(e) && e.dst in w.boxes
    ensures Lines(DeliverOrigin(w, e))
  {
    hide TasksOk, LogOk, WellStamped, IdsOk, OriginMsgs, Lines, SentBy, Program.Addressed, Sent, ActorMsgs, InBox, Gone;
    var v := DeliverOrigin(w, e);
    MainCalm(w, v, e.msgId);
    NumbersPositive(p, w);
    NotYetBoxed(p, w, e.dst, e);
    WorldIsNoTask(p, w);
    var x := HeldSent(w, WORLD, e);
    LinesDeliver(w, v, WORLD, WORLD, x, e);
  }

  lemma InjectStep(p: Program, w: World, dst: Name, msg: Payload)
    requires p.WellFormed() && Inv(p, w) && Lines(w) && w.main.Injecting?
    ensures Lines(DrawOrigin(w, dst, msg))
  {
    hide Inv, Lines, SentBy, Program.Addressed, OnLocal, Outgoing;
    var v := DrawOrigin(w, dst, msg);
    MainCalm(w, v, w.nextId + 1);
    NumbersPositive(p, w);
    WorldIsNoTask(p, w);
    LinesQuiet(w, v, WORLD, w.nextId + 1);
  }

  lemma AbortStep(p: Program, w: World, a: Name)
    requires p.WellFormed() && Inv(p, w) && Lines(w) && a in w.tasks && w.main.Finished?
    requires w.tasks[a].phase.Idle? || w.tasks[a].phase.Fresh?
    ensures Lines(AbortTask(w, a, w.tasks[a]))
  {
    hide Inv, Lines, Program.Addressed;
    var v := AbortTask(w, a, w.tasks[a]);
    NumbersPositive(p, w);
    LinesAbort(w, v, a);
  }

  lemma LinesNext(p: Program, w: World, l: Label, v: World)
    requires p.WellFormed() && Inv(p, w) && Lines(w) && Next(p, w, l) == Some(v)
    ensures Lines(v)
  {
    hide Inv, Lines, StepTask, StepMain, AbortTask, DrawOrigin, Program.Addressed;
    match l
    case TaskMove(a) => TaskStep(p, w, v, a);
    case MainMove => MainStep(p, w, v);
    case Abort(a) => AbortStep(p, w, a);
    case Origin(dst, msg) => InjectStep(p, w, dst, msg);
  }

  lemma {:induction false} LinesExec(p: Program, ls: seq<Label>, w: World)
    requires p.WellFormed() && Exec(p, Init(p), ls) == Some(w)
    ensures Lines(w)
  {
    hide Inv, Next, Program.Addressed, Lines;
    if ls == [] {
      assert Lines(Init(p)) by { LinesInit(p); }
    } else {
      var u := Exec(p, Init(p), ls[..|ls| - 1]).value;
      InvExec(p, ls[..|ls| - 1], u);
      LinesExec(p, ls[..|ls| - 1], u);
      LinesNext(p, u, ls[|ls| - 1], w);
    }
  }

  lemma LinesInit(p: Program)
    ensures Lines(Init(p))
  {
    assert forall b, x: nat, e :: !SentBy(Init(p), b, x, e);
  }

  // -------------------------------------------------------------------- the law

  /** The send behind a logged emit, with its place in the sender's history. */
  lemma EmitEntry(p: Program, w: World, i: nat) returns (x: nat, e: Envelope)
    requires p.WellFormed() && Inv(p, w) && i < |w.log| && w.log[i].op == Emit
    ensures SentBy(w, w.log[i].actor, x, e) && x == |Project(w.log[..i], w.log[i].actor)|
    ensures w.log[i].msgId == Some(Mid(e.msgId)) && w.log[i].dst == Some(e.dst)
  {
    hide TasksOk, WellStamped, EventId, Mid, EventsOf, Stamps, Increment, Merge, MessagesOk, Project;
    var a := w.log[i].actor;
    ProjectAt(w.log, i);
    x := |Project(w.log[..i], a)|;
    if a == WORLD {
      e := w.origins[x];
    } else {
      var tr := w.tasks[a].trace;
      EventsAt(a, tr, x);
      e := tr[x].env;
    }
  }

  /** The log position of an actor's receive. */
  lemma ReceiveLogged(p: Program, w: World, c: Name, n: nat) returns (j: nat)
    requires p.WellFormed() && Inv(p, w) && c in w.tasks && n < |w.tasks[c].trace| && w.tasks[c].trace[n].DidRecv?
    ensures j < |w.log| && w.log[j].op == Recv && w.log[j].actor == c && c in p.names && w.log[j].seqNo == n + 1
    ensures w.log[j].msgId == Some(Mid(w.tasks[c].trace[n].env.msgId))
  {
    hide TasksOk, WellStamped, EventId, Mid, EventsOf, Stamps, MessagesOk, Project;
    InvNames(p, w, c);
    var tr := w.tasks[c].trace;
    EventsAt(c, tr, n);
    assert EventsOf(c, tr)[n] in Project(w.log, c);
    j :| 0 <= j < |w.log| && w.log[j] == EventsOf(c, tr)[n];
  }

  /** In every run, if a message was received then every message that its sender sent to
      the same receiver before it was received too, and earlier. */
  lemma RunKeepsOrder(p: Program, w: World, i1: nat, i2: nat, j2: nat) returns (j1: nat)
    requires p.WellFormed() && Reachable(p, w) && MessageEdge(w.log, i2, j2)
    requires i1 < i2 && w.log[i1].op == Emit && w.log[i1].actor == w.log[i2].actor && w.log[i1].dst == w.log[i2].dst
    ensures j1 < j2 && MessageEdge(w.log, i1, j1) && w.log[j1].actor == w.log[j2].actor
  {
    hide Inv, Reachable, Mid, Program.Addressed, SentBy, Lines, Sent, Project;
    ReachableInv(p, w);
    var ls: seq<Label> :| Exec(p, Init(p), ls) == Some(w) by { ReachableHere(p, w); }
    LinesExec(p, ls, w);
    var b := w.log[i1].actor;
    var x, d := EmitEntry(p, w, i1);
    var y, e := EmitEntry(p, w, i2);
    ProjectGrows(w.log, i1, i2, b);
    var r := ReceivedAt(p, w, j2);
    MidInjective(r.msgId, e.msgId);
    var c := w.log[j2].actor;
    var n := Overtaken(w, b, x, y, d, e, c, w.log[j2].seqNo - 1);
    j1 := ReceiveLogged(p, w, c, n);
    SeqsRunFromOne(p, w, j1);
    SeqsRunFromOne(p, w, j2);
    if j2 <= j1 { ProjectGrows(w.log, j2, j1, c); }
  }

  lemma ReachableHere(p: Program, w: World)
    requires Reachable(p, w)
    ensures exists ls: seq<Label> :: Exec(p, Init(p), ls) == Some(w)
  {}

  lemma Overtaken(w: World, b: Name, x: nat, y: nat, d: Envelope, e: Envelope, c: Name, m: nat) returns (n: nat)
    requires Lines(w) && InOrder(w, b, x, y, d, e) && At(w, e, Received(c, m))
    ensures n < m && c in w.tasks && n < |w.tasks[c].trace| && w.tasks[c].trace[n].DidRecv?
    ensures w.tasks[c].trace[n].env.msgId == d.msgId
  {
    hide SentBy, Holds, Gone, Ahead;
    assert Whereabouts(w, b, d) && Whereabouts(w, b, e) && Precedes(w, d, e);
    n := w.place[d.msgId].at;
  }
}
