/** The exact happens-before embedding of stamped logs. */
module Embedding {
  import opened Names
  import opened Clocks
  import opened Events
  import opened Logs
  import opened Graphs
  import opened Posets

  // -------------------------------------------------- an actor's own line

  lemma {:induction false} LastOf(log: seq<CausalEvent>, a: Name) returns (q: nat)
    requires Project(log, a) != []
    ensures q < |log| && log[q].actor == a && StampOf(log[q]) == Frontier(log, a)
    ensures forall k | q < k < |log| :: log[k].actor != a
  {
    if log[|log| - 1].actor == a {
      q := |log| - 1;
    } else {
      q := LastOf(log[..|log| - 1], a);
    }
  }

  lemma {:induction false} ProjectGrows(log: seq<CausalEvent>, i: nat, j: nat, a: Name)
    requires i <= j <= |log|
    ensures |Project(log[..i], a)| <= |Project(log[..j], a)|
    ensures i < j && log[i].actor == a ==> |Project(log[..i], a)| < |Project(log[..j], a)|
    decreases j
  {
    if i < j {
      ProjectGrows(log, i, j - 1, a);
      assert log[..j][..j - 1] == log[..j - 1];
    }
  }

  /** Sequence numbers count the actor's events without gaps. */
  lemma {:induction false} SeqCounts(log: seq<CausalEvent>, n: nat, a: Name)
    requires WellStamped(log) && n <= |log|
    ensures Frontier(log[..n], a).seqNo == |Project(log[..n], a)|
    decreases n
  {
    hide StampOk, Merge, Increment, EventId;
    if n > 0 {
      var e := log[n - 1];
      assert log[..n][..n - 1] == log[..n - 1];
      SeqCounts(log, n - 1, a);
      if e.actor == a { StampedSeq(log[..n - 1], e); }
    }
  }

  lemma StampedSeq(prefix: seq<CausalEvent>, e: CausalEvent)
    requires StampOk(prefix, e)
    ensures e.seqNo == Frontier(prefix, e.actor).seqNo + 1
  {
    hide Merge, Increment, EventId, Frontier;
  }

  lemma SeqOf(log: seq<CausalEvent>, j: nat)
    requires WellStamped(log) && j < |log|
    ensures log[j].seqNo == |Project(log[..j], log[j].actor)| + 1
  {
    hide StampOk, Project, Frontier;
    SeqCounts(log, j, log[j].actor);
    StampedSeq(log[..j], log[j]);
  }

  lemma SeqIncreases(log: seq<CausalEvent>, i: nat, j: nat)
    requires WellStamped(log) && i < j < |log| && log[i].actor == log[j].actor
    ensures log[i].seqNo < log[j].seqNo
  {
    hide StampOk, Project;
    SeqOf(log, i);
    SeqOf(log, j);
    ProjectGrows(log, i, j, log[i].actor);
  }

  // ---------------------------------------------------- direct predecessors

  function ClockOf(log: seq<CausalEvent>, x: Option<nat>, k: Name): nat
    requires x.Some? ==> x.value < |log|
  {
    match x case None => 0 case Some(i) => Get(log[i].vclock, k)
  }

  function LamportOf(log: seq<CausalEvent>, x: Option<nat>): nat
    requires x.Some? ==> x.value < |log|
  {
    match x case None => 0 case Some(i) => log[i].lamport
  }

  /** `prev` and `emit` are the only events `j` directly depends on, and its stamp
      is their join plus one. */
  ghost predicate Parents(log: seq<CausalEvent>, j: nat, prev: Option<nat>, emit: Option<nat>)
    requires j < |log|
  {
    && (prev.Some? ==> prev.value < j && log[prev.value].actor == log[j].actor
                       && (forall k | prev.value < k < j :: log[k].actor != log[j].actor)
                       && log[j].seqNo == log[prev.value].seqNo + 1)
    && (prev.None? ==> log[j].seqNo == 1 && forall k | 0 <= k < j :: log[k].actor != log[j].actor)
    && (emit.Some? <==> log[j].op == Recv)
    && (emit.Some? ==> emit.value < j && Emits(log[emit.value], RecvKey(log[j])))
    && (forall k :: Get(log[j].vclock, k) ==
                    Max(ClockOf(log, prev, k), ClockOf(log, emit, k)) + if k == log[j].actor then 1 else 0)
    && log[j].lamport == Max(LamportOf(log, prev), LamportOf(log, emit)) + 1
  }

  lemma FindParents(log: seq<CausalEvent>, j: nat) returns (prev: Option<nat>, emit: Option<nat>)
    requires WellStamped(log) && j < |log|
    ensures Parents(log, j, prev, emit)
  {
    hide WellStamped, EventId, Frontier, OnRecv, OnLocal;
    var prefix, e := log[..j], log[j];
    prev := FindPrev(log, j);
    var f := Frontier(prefix, e.actor);
    assert StampOk(prefix, e) by { StampedAt(log, j); }
    if e.op == Recv {
      var i :| 0 <= i < |prefix| && IsEmitOf(prefix[i], e.msgId)
               && StampOf(e) == OnRecv(f, e.actor, prefix[i].vclock, prefix[i].lamport);
      emit := Some(i);
      RecvJoins(f, e.actor, log[i].vclock, log[i].lamport);
    } else {
      emit := None;
      LocalAdds(f, e.actor);
    }
  }

  lemma StampedAt(log: seq<CausalEvent>, j: nat)
    requires WellStamped(log) && j < |log|
    ensures StampOk(log[..j], log[j])
  {}

  lemma RecvJoins(f: Stamp, a: Name, vclock: Clock, lamport: nat)
    ensures var s := OnRecv(f, a, vclock, lamport);
      && (forall k :: Get(s.clock, k) == Max(Get(f.clock, k), Get(vclock, k)) + if k == a then 1 else 0)
      && s.lamport == Max(f.lamport, lamport) + 1
  {
    forall k ensures Get(OnRecv(f, a, vclock, lamport).clock, k)
                     == Max(Get(f.clock, k), Get(vclock, k)) + if k == a then 1 else 0 {
      MergeGet(f.clock, vclock, k);
      IncrementGet(Merge(f.clock, vclock), a, k);
    }
  }

  lemma LocalAdds(f: Stamp, a: Name)
    ensures forall k :: Get(OnLocal(f, a).clock, k) == Get(f.clock, k) + if k == a then 1 else 0
    ensures OnLocal(f, a).lamport == f.lamport + 1
  {
    forall k ensures Get(OnLocal(f, a).clock, k) == Get(f.clock, k) + if k == a then 1 else 0 {
      IncrementGet(f.clock, a, k);
    }
  }

  lemma IncrementGet(c: Clock, a: Name, k: Name)
    ensures Get(Increment(c, a), k) == Get(c, k) + if k == a then 1 else 0
  {}

  lemma FindPrev(log: seq<CausalEvent>, j: nat) returns (prev: Option<nat>)
    requires WellStamped(log) && j < |log|
    ensures var f := Frontier(log[..j], log[j].actor);
      && (prev.Some? ==> prev.value < j && log[prev.value].actor == log[j].actor
                         && (forall k | prev.value < k < j :: log[k].actor != log[j].actor)
                         && log[j].seqNo == log[prev.value].seqNo + 1
                         && StampOf(log[prev.value]) == f)
      && (prev.None? ==> f == ZERO && log[j].seqNo == 1 && forall k | 0 <= k < j :: log[k].actor != log[j].actor)
  {
    hide StampOk;
    var prefix := log[..j];
    var mine := Project(prefix, log[j].actor);
    StampedSeq(prefix, log[j]);
    if mine == [] {
      prev := None;
      forall k | 0 <= k < j ensures log[k].actor != log[j].actor {
        assert prefix[k] == log[k] && (prefix[k] in mine <==> log[k].actor == log[j].actor);
      }
    } else {
      var q := LastOf(prefix, log[j].actor);
      prev := Some(q);
      forall k | q < k < j ensures log[k].actor != log[j].actor { assert prefix[k] == log[k]; }
    }
  }

  // ------------------------------------------------------- edges into an event

  /** A stamped log already lists its events in causal order, each once. */
  lemma StampedIsBuildable(log: seq<CausalEvent>)
    requires WellStamped(log)
    ensures Buildable(log)
  {
    hide StampOk;
    forall i, j | 0 <= i < j < |log| && log[i].actor == log[j].actor ensures log[i].seqNo != log[j].seqNo {
      SeqIncreases(log, i, j);
    }
    forall i, j | 0 <= i < j < |log| && log[i].op == Emit && log[j].op == Emit && log[i].msgId.Some?
      ensures log[i].msgId != log[j].msgId
    {
      EmitIsFresh(log, i, j);
    }
    forall j | 0 <= j < |log| && log[j].op == Recv ensures Emitted(log, RecvKey(log[j])) {
      var prev, emit := FindParents(log, j);
    }
  }

  lemma EmitIsFresh(log: seq<CausalEvent>, i: nat, j: nat)
    requires WellStamped(log) && i < j < |log| && log[i].op == Emit && log[j].op == Emit && log[i].msgId.Some?
    ensures log[i].msgId != log[j].msgId
  {
    hide EventId, Frontier, Merge, Increment;
    assert StampOk(log[..j], log[j]);
    assert log[..j][i] == log[i];
  }

  lemma EdgesInto(log: seq<CausalEvent>, j: nat, prev: Option<nat>, emit: Option<nat>, x: nat)
    requires WellStamped(log) && j < |log| && Parents(log, j, prev, emit)
    ensures (x, j) in LogEdges(log) <==> prev == Some(x) || emit == Some(x)
  {
    hide WellStamped;
    LogEdge(log, x, j);
    if ProgramEdge(log, x, j) {
      if x > j { SeqIncreases(log, j, x); }
      assert prev.Some?;
      if x < prev.value { SeqIncreases(log, x, prev.value); }
    }
    if prev == Some(x) { assert ProgramEdge(log, x, j); }
    if MessageEdge(log, x, j) { StampedIsBuildable(log); }
  }

  /** Clocks and Lamport stamps strictly increase along every direct edge, and the
      log lists causes before effects. */
  lemma EdgesIncrease(log: seq<CausalEvent>, i: nat, j: nat)
    requires WellStamped(log) && (i, j) in LogEdges(log)
    ensures i < j < |log|
    ensures Lt(log[i].vclock, log[j].vclock) && log[i].lamport < log[j].lamport
  {
    hide WellStamped;
    LogEdge(log, i, j);
    var prev, emit := FindParents(log, j);
    EdgesInto(log, j, prev, emit, i);
    var a := log[j].actor;
    var u, v := log[i].vclock, log[j].vclock;
    forall k | k in u ensures u[k] <= Get(v, k) {
      assert Get(v, k) == Max(ClockOf(log, prev, k), ClockOf(log, emit, k)) + if k == a then 1 else 0;
    }
    assert Get(v, a) == Max(ClockOf(log, prev, a), ClockOf(log, emit, a)) + 1;
    assert Get(u, a) < Get(v, a);
    assert a in v;
  }

  // --------------------------------------------------------- clock ownership

  /** No clock counts more of an actor's events than there have been, and an
      event's own component is its sequence number. */
  lemma {:induction false} ClockOwnership(log: seq<CausalEvent>, j: nat, k: Name)
    requires WellStamped(log) && j < |log|
    ensures Get(log[j].vclock, k) <= |Project(log[..j + 1], k)|
    ensures Get(log[j].vclock, log[j].actor) == log[j].seqNo
    decreases j
  {
    hide WellStamped, Project;
    var a := log[j].actor;
    var prev, emit := FindParents(log, j);
    if prev.Some? {
      ClockOwnership(log, prev.value, k);
      ProjectGrows(log, prev.value + 1, j, k);
    }
    if emit.Some? {
      ClockOwnership(log, emit.value, k);
      ClockOwnership(log, emit.value, a);
      ProjectGrows(log, emit.value + 1, j, k);
      ProjectGrows(log, emit.value + 1, j, a);
    }
    SeqOf(log, j);
    ProjectGrows(log, j, j + 1, k);
    assert log[j].actor == k ==> |Project(log[..j], k)| < |Project(log[..j + 1], k)|;
  }

  // ------------------------------------------------------ the exact embedding

  /** An event's clock counts event `i` exactly when `i` is in its causal past. */
  lemma {:induction false} PastIsCounted(log: seq<CausalEvent>, i: nat, j: nat)
    requires WellStamped(log) && i < |log| && j < |log|
    ensures log[i].seqNo <= Get(log[j].vclock, log[i].actor) <==> i == j || Reach(LogEdges(log), i, j)
    decreases j
  {
    hide WellStamped, Reach, LogEdges;
    var b := log[i].actor;
    var prev, emit := FindParents(log, j);
    forall x: nat | prev == Some(x) || emit == Some(x)
      ensures log[i].seqNo <= Get(log[x].vclock, b) <==> i == x || Reach(LogEdges(log), i, x)
      ensures i == x || Reach(LogEdges(log), i, x) ==> Reach(LogEdges(log), i, j)
    {
      PastIsCounted(log, i, x);
      if i == x || Reach(LogEdges(log), i, x) { ParentReaches(log, j, prev, emit, x, i); }
    }
    ClockOwnership(log, j, b);
    SeqOf(log, i);
    if Reach(LogEdges(log), i, j) {
      var x := ReachLast(LogEdges(log), i, j);
      EdgesInto(log, j, prev, emit, x);
      assert ClockOf(log, Some(x), b) <= Get(log[j].vclock, b);
    } else if i < j && b == log[j].actor {
      ClockOwnership(log, prev.value, b);
      if i < prev.value { SeqIncreases(log, i, prev.value); }
      assert false;
    } else if j < i && b == log[j].actor {
      SeqIncreases(log, j, i);
    }
  }

  lemma ParentReaches(log: seq<CausalEvent>, j: nat, prev: Option<nat>, emit: Option<nat>, x: nat, i: nat)
    requires WellStamped(log) && j < |log| && Parents(log, j, prev, emit)
    requires prev == Some(x) || emit == Some(x)
    requires i == x || Reach(LogEdges(log), i, x)
    ensures Reach(LogEdges(log), i, j)
  {
    hide WellStamped, Reach;
    EdgesInto(log, j, prev, emit, x);
    EdgeReaches(LogEdges(log), x, j);
    if i != x { ReachTransitive(LogEdges(log), i, x, j); }
  }

  lemma StampedIsAccepted(log: seq<CausalEvent>)
    requires WellStamped(log)
    ensures Accepted(log)
    ensures Acyclic(LogEdges(log))
  {
    hide WellStamped, LogEdges, Buildable, Lt;
    StampedIsBuildable(log);
    forall i: nat, j: nat | i < |log| && j < |log| && (i, j) in LogEdges(log) ensures Lt(log[i].vclock, log[j].vclock) {
      EdgesIncrease(log, i, j);
    }
    forall e | e in LogEdges(log) ensures e.0 < e.1 { EdgesIncrease(log, e.0, e.1); }
    OrderedMeansAcyclic(LogEdges(log), (x: nat, y: nat) => x < y);
  }

  /** The exact embedding: vector-clock order is reachability in the poset. */
  lemma ExactEmbedding(log: seq<CausalEvent>, i: nat, j: nat)
    requires WellStamped(log) && i < |log| && j < |log|
    ensures Lt(log[i].vclock, log[j].vclock) <==> Reach(LogEdges(log), i, j)
    ensures Same(log[i].vclock, log[j].vclock) <==> i == j
    ensures Incomparable(log[i].vclock, log[j].vclock) <==>
            i != j && !Reach(LogEdges(log), i, j) && !Reach(LogEdges(log), j, i)
  {
    hide WellStamped, Reach, LogEdges, Accepted, Acyclic;
    var u, v := log[i].vclock, log[j].vclock;
    PastIsCounted(log, i, j);
    PastIsCounted(log, j, i);
    ClockOwnership(log, i, log[i].actor);
    ClockOwnership(log, j, log[j].actor);
    StampedConsistent(log);
    if Reach(LogEdges(log), i, j) { PathsIncreaseClocks(log, i, j); }
    if Reach(LogEdges(log), j, i) { PathsIncreaseClocks(log, j, i); }
    if Leq(u, v) { LeqAt(u, v, log[i].actor); }
    if Leq(v, u) { LeqAt(v, u, log[j].actor); }
  }

  lemma StampedConsistent(log: seq<CausalEvent>)
    requires WellStamped(log)
    ensures Consistent(log)
  {
    hide WellStamped, Acyclic;
    StampedIsAccepted(log);
  }

  lemma LeqAt(a: Clock, b: Clock, k: Name)
    requires Leq(a, b)
    ensures Get(a, k) <= Get(b, k)
  {}
}
