/** One actor's recorded history: its stamps, its events, and the run of the user
    program that the history is a record of. Recorder and replayer are both
    compared against these functions. */
module Traces {
  import opened Names
  import opened Clocks
  import opened Events
  import opened Recorder

  function StampAfter(a: Name, s: Stamp, d: Done): Stamp {
    match d
    case DidRecv(env) => OnRecv(s, a, env.vclock, env.lamport)
    case _ => OnLocal(s, a)
  }

  function EventAfter(a: Name, s: Stamp, d: Done): CausalEvent {
    match d
    case DidRecv(env) => RecvEvent(a, StampAfter(a, s, d), env)
    case DidSend(env) => EmitEvent(a, s.seqNo + 1, env)
    case DidWork => ComputeEvent(a, StampAfter(a, s, d))
  }

  lemma EventOwner(a: Name, s: Stamp, d: Done)
    ensures EventAfter(a, s, d).actor == a
  {}

  function Stamps(a: Name, tr: seq<Done>): Stamp {
    if tr == [] then ZERO else StampAfter(a, Stamps(a, tr[..|tr| - 1]), tr[|tr| - 1])
  }

  function EventsOf(a: Name, tr: seq<Done>): (r: seq<CausalEvent>)
    ensures |r| == |tr|
  {
    if tr == [] then []
    else EventsOf(a, tr[..|tr| - 1]) + [EventAfter(a, Stamps(a, tr[..|tr| - 1]), tr[|tr| - 1])]
  }

  /** The user program's state and remaining actions after history `tr`; `None`
      when `tr` is not a history the program could have produced. */
  function Behave(p: Program, a: Name, tr: seq<Done>): Option<(UserState, seq<Action>)> {
    if tr == [] then Some(p.start(a, p.init(a)))
    else
      match Behave(p, a, tr[..|tr| - 1])
      case None => None
      case Some((u, todo)) => Behaved(p, a, Stamps(a, tr), u, todo, tr[|tr| - 1])
  }

  /** One history entry `d`, which brought the stamp to `s`, against the handler's
      remaining actions. */
  function Behaved(p: Program, a: Name, s: Stamp, u: UserState, todo: seq<Action>, d: Done)
    : Option<(UserState, seq<Action>)>
  {
    match d
    case DidRecv(env) => if todo == [] then Some(p.handle(a, u, env.msg)) else None
    case DidWork => if todo != [] && todo[0].Work? then Some((u, todo[1..])) else None
    case DidSend(env) =>
      if todo != [] && todo[0].Send? && env == Outgoing(a, s, env.msgId, todo[0].dst, todo[0].msg)
      then Some((u, todo[1..])) else None
  }

  lemma TraceAppend(p: Program, a: Name, tr: seq<Done>, d: Done)
    ensures Stamps(a, tr + [d]) == StampAfter(a, Stamps(a, tr), d)
    ensures EventsOf(a, tr + [d]) == EventsOf(a, tr) + [EventAfter(a, Stamps(a, tr), d)]
    ensures Behave(p, a, tr + [d]) ==
            match Behave(p, a, tr)
            case None => None
            case Some((u, todo)) => Behaved(p, a, Stamps(a, tr + [d]), u, todo, d)
  {
    assert (tr + [d])[..|tr|] == tr;
  }

  lemma {:induction false} StampsCount(a: Name, tr: seq<Done>)
    ensures Stamps(a, tr).seqNo == |tr|
  {
    if tr != [] { StampsCount(a, tr[..|tr| - 1]); }
  }

  lemma {:induction false} EventsAt(a: Name, tr: seq<Done>, x: nat)
    requires x < |tr|
    ensures EventsOf(a, tr)[x] == EventAfter(a, Stamps(a, tr[..x]), tr[x])
    ensures EventsOf(a, tr)[x].actor == a && EventsOf(a, tr)[x].seqNo == x + 1
    ensures EventsOf(a, tr)[x].id == EventId(a, x + 1)
  {
    hide EventId, Mid, Merge, Increment;
    StampsCount(a, tr[..x]);
    if x < |tr| - 1 {
      EventsAt(a, tr[..|tr| - 1], x);
      assert tr[..|tr| - 1][..x] == tr[..x];
    }
  }

  /** Prefixes of a possible history are possible. */
  lemma {:induction false} BehavePrefix(p: Program, a: Name, tr: seq<Done>, x: nat)
    requires x <= |tr| && Behave(p, a, tr).Some?
    ensures Behave(p, a, tr[..x]).Some?
  {
    if x < |tr| {
      BehavePrefix(p, a, tr[..|tr| - 1], x);
      assert tr[..|tr| - 1][..x] == tr[..x];
    } else {
      assert tr[..x] == tr;
    }
  }

  /** The stamp written into an event is the actor's stamp at that point. */
  lemma EventStamp(p: Program, a: Name, tr: seq<Done>, x: nat)
    requires x < |tr| && Behave(p, a, tr).Some?
    ensures StampOf(EventsOf(a, tr)[x]) == Stamps(a, tr[..x + 1])
    ensures tr[x].DidSend? ==> tr[x].env.src == a
  {
    hide EventId, Mid, Merge, Increment, Behave, Stamps, EventsOf;
    EventsAt(a, tr, x);
    BehavePrefix(p, a, tr, x + 1);
    assert tr[..x + 1] == tr[..x] + [tr[x]];
    TraceAppend(p, a, tr[..x], tr[x]);
    StampsCount(a, tr[..x]);
    StampsCount(a, tr[..x + 1]);
  }
}
