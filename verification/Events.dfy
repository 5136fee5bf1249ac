/** Log entries, envelopes and the stamping rules shared by the recorder and the
    replayer (lichtung-log, and event.rs, envelope.rs, context.rs of lichtung-core). */
module Events {
  import opened Names
  import opened Clocks

  datatype Op = Emit | Recv | Compute | Report | Drop

  /** One line of the causal log. */
  datatype CausalEvent = CausalEvent(
    id: string,
    actor: Name,
    seqNo: nat,
    op: Op,
    vclock: Clock,
    lamport: nat,
    msgId: Option<string>,
    src: Option<Name>,
    dst: Option<Name>,
    value: Option<real>,
    payloadHash: Option<string>)

  /** Message payloads and actor state are arbitrary: nothing below looks inside. */
  type Payload(!new)
  type UserState(!new)

  datatype Envelope = Envelope(msg: Payload, vclock: Clock, lamport: nat, msgId: nat, src: Name, dst: Name)

  /** What an actor knows of time: its vector clock, Lamport stamp and event counter. */
  datatype Stamp = Stamp(clock: Clock, lamport: nat, seqNo: nat)

  const ZERO: Stamp := Stamp(map[], 0, 0)

  /** The rule for a send or compute event of `a`. */
  function OnLocal(s: Stamp, a: Name): Stamp {
    Stamp(Increment(s.clock, a), s.lamport + 1, s.seqNo + 1)
  }

  /** The receive rule: merge, then count the receive itself. */
  function OnRecv(s: Stamp, a: Name, vclock: Clock, lamport: nat): Stamp {
    Stamp(Increment(Merge(s.clock, vclock), a), Max(s.lamport, lamport) + 1, s.seqNo + 1)
  }

  function StampOf(e: CausalEvent): Stamp { Stamp(e.vclock, e.lamport, e.seqNo) }

  function EmitEvent(actor: Name, seqNo: nat, env: Envelope): CausalEvent {
    CausalEvent(EventId(actor, seqNo), actor, seqNo, Emit, env.vclock, env.lamport,
                Some(Mid(env.msgId)), Some(env.src), Some(env.dst), None, None)
  }

  function RecvEvent(actor: Name, s: Stamp, env: Envelope): CausalEvent {
    CausalEvent(EventId(actor, s.seqNo), actor, s.seqNo, Recv, s.clock, s.lamport,
                Some(Mid(env.msgId)), Some(env.src), Some(actor), None, None)
  }

  function ComputeEvent(actor: Name, s: Stamp): CausalEvent {
    CausalEvent(EventId(actor, s.seqNo), actor, s.seqNo, Compute, s.clock, s.lamport,
                None, None, None, None, None)
  }

  /** The envelope `a` puts in flight once its stamp has advanced to `s`. */
  function Outgoing(a: Name, s: Stamp, id: nat, dst: Name, msg: Payload): Envelope {
    Envelope(msg, s.clock, s.lamport, id, a, dst)
  }

  /** What a handler may ask its context to do. */
  datatype Action = Send(dst: Name, msg: Payload) | Work

  /** User code: deterministic in the actor's own state and the message at hand.
      `start` covers the `started` hook. */
  datatype Program = Program(
    names: set<Name>,
    init: Name -> UserState,
    start: (Name, UserState) -> (UserState, seq<Action>),
    handle: (Name, UserState, Payload) -> (UserState, seq<Action>))
  {
    /** Addresses come only from spawning, so every send goes to a spawned actor;
        no actor carries the reserved name. */
    ghost predicate WellFormed() {
      && WORLD !in names
      && (forall a, s | a in names :: Addressed(start(a, s).1))
      && (forall a, s, m | a in names :: Addressed(handle(a, s, m).1))
    }

    ghost predicate Addressed(acts: seq<Action>) {
      forall i | 0 <= i < |acts| && acts[i].Send? :: acts[i].dst in names
    }
  }

  /** One actor's causal state, mutated in place by its context. */
  class ActorCell {
    const id: Name
    const clock: VectorClock
    const lamport: Lamport
    var seqNo: nat

    constructor (id: Name)
      ensures this.id == id && Now() == ZERO
      ensures fresh(clock) && fresh(lamport)
    {
      this.id := id;
      clock := new VectorClock();
      lamport := new Lamport();
      seqNo := 0;
    }

    ghost function Now(): Stamp
      reads this, clock, lamport
    {
      Stamp(clock.entries, lamport.value, seqNo)
    }

    /** `Context::send` up to the hand-over to the backend. The message id has
        been drawn by the caller; drawing it reads none of the fields below. */
    method StampSend(dst: Name, msg: Payload, msgId: nat) returns (env: Envelope, ev: CausalEvent)
      modifies this, clock, lamport
      ensures Now() == OnLocal(old(Now()), id)
      ensures env == Outgoing(id, Now(), msgId, dst, msg)
      ensures ev == EmitEvent(id, old(seqNo) + 1, env)
      ensures StampOf(ev) == Now()
    {
      clock.Bump(id);
      var lam := lamport.Tick();
      seqNo := seqNo + 1;
      env := Envelope(msg, clock.entries, lam, msgId, id, dst);
      ev := EmitEvent(id, seqNo, env);
    }

    method StampCompute() returns (ev: CausalEvent)
      modifies this, clock, lamport
      ensures Now() == OnLocal(old(Now()), id)
      ensures ev == ComputeEvent(id, Now())
    {
      clock.Bump(id);
      var lam := lamport.Tick();
      seqNo := seqNo + 1;
      ev := ComputeEvent(id, Stamp(clock.entries, lam, seqNo));
    }

    /** The receive stamp of the actor loop. */
    method StampRecv(env: Envelope, wire: VectorClock) returns (ev: CausalEvent)
      requires wire != clock && wire.entries == env.vclock
      modifies this, clock, lamport
      ensures Now() == OnRecv(old(Now()), id, env.vclock, env.lamport)
      ensures ev == RecvEvent(id, Now(), env)
    {
      clock.MergeFrom(wire);
      clock.Bump(id);
      var lam := lamport.Update(env.lamport);
      seqNo := seqNo + 1;
      ev := RecvEvent(id, Stamp(clock.entries, lam, seqNo), env);
    }
  }
}
