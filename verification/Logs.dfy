/** Causal logs as sequences: one actor's share of a log, and what it means for a
    log to be stamped by the protocol. */
module Logs {
  import opened Names
  import opened Events

  /** The events of `a`, in log order. */
  function Project(log: seq<CausalEvent>, a: Name): (r: seq<CausalEvent>)
    ensures forall e :: e in r <==> e in log && e.actor == a
  {
    if log == [] then []
    else
      var last := log[|log| - 1];
      var r := Project(log[..|log| - 1], a);
      assert log == log[..|log| - 1] + [last];
      if last.actor == a then r + [last] else r
  }

  lemma ProjectAppend(log: seq<CausalEvent>, e: CausalEvent, a: Name)
    ensures Project(log + [e], a) == if e.actor == a then Project(log, a) + [e] else Project(log, a)
  {
    assert (log + [e])[..|log|] == log;
  }

  /** The stamp `a` holds after the events of `log`. */
  function Frontier(log: seq<CausalEvent>, a: Name): Stamp {
    var mine := Project(log, a);
    if mine == [] then ZERO else StampOf(mine[|mine| - 1])
  }

  /** Every message number in the log is one a 64-bit reader can take back. */
  ghost predicate FitsWidth(log: seq<CausalEvent>) {
    forall i, id: nat | 0 <= i < |log| && log[i].op == Emit && log[i].msgId == Some(Mid(id)) :: id <= U64_MAX
  }

  ghost predicate IsEmitOf(e: CausalEvent, mid: Option<string>) {
    e.op == Emit && e.msgId == mid && mid.Some?
  }

  /** Event `e` follows the stamping rules when it comes right after `prefix`. */
  ghost predicate StampOk(prefix: seq<CausalEvent>, e: CausalEvent) {
    && e.id == EventId(e.actor, e.seqNo)
    && match e.op
       case Emit =>
         && StampOf(e) == OnLocal(Frontier(prefix, e.actor), e.actor)
         && e.msgId.Some?
         && (forall i | 0 <= i < |prefix| :: !IsEmitOf(prefix[i], e.msgId))
       case Compute =>
         StampOf(e) == OnLocal(Frontier(prefix, e.actor), e.actor)
       case Recv =>
         exists i | 0 <= i < |prefix| ::
           && IsEmitOf(prefix[i], e.msgId)
           && StampOf(e) == OnRecv(Frontier(prefix, e.actor), e.actor, prefix[i].vclock, prefix[i].lamport)
       case _ => false
  }

  ghost predicate WellStamped(log: seq<CausalEvent>) {
    forall j | 0 <= j < |log| :: StampOk(log[..j], log[j])
  }

  lemma WellStampedAppend(log: seq<CausalEvent>, e: CausalEvent)
    requires WellStamped(log) && StampOk(log, e)
    ensures WellStamped(log + [e])
  {
    forall j | 0 <= j < |log + [e]| ensures StampOk((log + [e])[..j], (log + [e])[j]) {
      if j < |log| {
        assert (log + [e])[..j] == log[..j];
      } else {
        assert (log + [e])[..j] == log;
      }
    }
  }
}
