/** The canonical timeline is a function of the set of events, not of the order in
    which the log lists them; and on logs whose Lamport stamps respect causality it
    is simply the sorted log. */
module Determinism {
  import opened Names
  import opened Clocks
  import opened Events
  import opened Graphs
  import opened Posets
  import opened Extensions
  import opened Engine

  // ------------------------------------------------------------- relabelling

  /** `pi` sends each position of `log` to a position of `log2` with the same event. */
  ghost predicate Relabels(log: seq<CausalEvent>, log2: seq<CausalEvent>, pi: seq<nat>) {
    && |pi| == |log| == |log2| && Distinct(pi)
    && forall i | 0 <= i < |pi| :: pi[i] < |log2| && log2[pi[i]] == log[i]
  }

  lemma WithoutOne<T>(s: seq<T>, k: nat)
    requires k < |s|
    ensures multiset(s) == multiset(s[..k] + s[k + 1..]) + multiset{s[k]}
  {
    assert s == s[..k] + [s[k]] + s[k + 1..];
  }

  lemma {:induction false} FindRelabelling(log: seq<CausalEvent>, log2: seq<CausalEvent>) returns (pi: seq<nat>)
    requires multiset(log) == multiset(log2)
    ensures Relabels(log, log2, pi)
  {
    hide Relabels;
    if log == [] {
      assert |multiset(log2)| == 0;
      assert Relabels(log, log2, []) by { NothingToRelabel(log, log2); }
      pi := [];
    } else {
      var front, e := log[..|log| - 1], log[|log| - 1];
      assert log == front + [e];
      assert e in multiset(log2);
      var k :| 0 <= k < |log2| && log2[k] == e;
      WithoutOne(log2, k);
      assert multiset(log) == multiset(front) + multiset{e};
      assert multiset(log2[..k] + log2[k + 1..]) == multiset(log2) - multiset{e} == multiset(front);
      var rho := FindRelabelling(front, log2[..k] + log2[k + 1..]);
      pi := Widen(log, log2, k, rho);
    }
  }

  lemma NothingToRelabel(log: seq<CausalEvent>, log2: seq<CausalEvent>)
    requires log == [] && multiset(log) == multiset(log2)
    ensures Relabels(log, log2, [])
  {
    assert |multiset(log2)| == 0;
  }

  /** Put back the last event of `log`, found at `k` in `log2`. */
  lemma Widen(log: seq<CausalEvent>, log2: seq<CausalEvent>, k: nat, rho: seq<nat>) returns (pi: seq<nat>)
    requires log != [] && k < |log2| && log2[k] == log[|log| - 1]
    requires Relabels(log[..|log| - 1], log2[..k] + log2[k + 1..], rho)
    ensures Relabels(log, log2, pi)
  {
    var rest := log2[..k] + log2[k + 1..];
    assert forall i | 0 <= i < |rest| :: rest[i] == if i < k then log2[i] else log2[i + 1];
    pi := seq(|rho|, i requires 0 <= i < |rho| => if rho[i] < k then rho[i] else rho[i] + 1) + [k];
    forall i | 0 <= i < |pi| ensures pi[i] < |log2| && log2[pi[i]] == log[i] {
      if i < |rho| { assert rest[rho[i]] == log[..|log| - 1][i]; }
    }
  }

  lemma SameEvents(log: seq<CausalEvent>, log2: seq<CausalEvent>, e: CausalEvent)
    requires multiset(log) == multiset(log2)
    ensures e in log <==> e in log2
  {
    assert e in log <==> e in multiset(log);
    assert e in log2 <==> e in multiset(log2);
  }

  /** Direct edges depend on the two events and the set of all events only. */
  lemma EdgesByEvent(log: seq<CausalEvent>, log2: seq<CausalEvent>, i: nat, j: nat, x: nat, y: nat)
    requires multiset(log) == multiset(log2)
    requires i < |log| && j < |log| && x < |log2| && y < |log2| && log[i] == log2[x] && log[j] == log2[y]
    ensures (i, j) in LogEdges(log) <==> (x, y) in LogEdges(log2)
  {
    LogEdge(log, i, j);
    LogEdge(log2, x, y);
    if ProgramEdge(log, i, j) { ProgramEdgeByEvent(log, log2, i, j, x, y); }
    if ProgramEdge(log2, x, y) { ProgramEdgeByEvent(log2, log, x, y, i, j); }
  }

  lemma ProgramEdgeByEvent(log: seq<CausalEvent>, log2: seq<CausalEvent>, i: nat, j: nat, x: nat, y: nat)
    requires multiset(log) == multiset(log2) && ProgramEdge(log, i, j)
    requires x < |log2| && y < |log2| && log[i] == log2[x] && log[j] == log2[y]
    ensures ProgramEdge(log2, x, y)
  {
    forall k: nat | k < |log2| && log2[k].actor == log2[x].actor
      ensures log2[k].seqNo <= log2[x].seqNo || log2[y].seqNo <= log2[k].seqNo
    {
      SameEvents(log, log2, log2[k]);
      var l: nat :| l < |log| && log[l] == log2[k];
    }
  }

  // --------------------------------------------------------------- acceptance

  lemma AcceptanceCarries(log: seq<CausalEvent>, log2: seq<CausalEvent>)
    requires multiset(log) == multiset(log2) && Accepted(log)
    ensures Accepted(log2)
  {
    var rho := FindRelabelling(log2, log);
    UniqueCarries(log, log2, rho);
    forall j | 0 <= j < |log2| && log2[j].op == Recv ensures Emitted(log2, RecvKey(log2[j])) {
      assert log[rho[j]] == log2[j];
      var i: nat :| i < |log| && Emits(log[i], RecvKey(log2[j]));
      SameEvents(log, log2, log[i]);
      var x: nat :| x < |log2| && log2[x] == log[i];
      assert Emits(log2[x], RecvKey(log2[j]));
    }
    forall i: nat, j: nat | i < |log2| && j < |log2| && (i, j) in LogEdges(log2)
        ensures Lt(log2[i].vclock, log2[j].vclock) {
      EdgesByEvent(log2, log, i, j, rho[i], rho[j]);
    }
  }

  lemma UniqueCarries(log: seq<CausalEvent>, log2: seq<CausalEvent>, rho: seq<nat>)
    requires Relabels(log2, log, rho) && UniqueSeqs(log) && UniqueEmits(log)
    ensures UniqueSeqs(log2) && UniqueEmits(log2)
  {
    forall i, j | 0 <= i < j < |log2| && log2[i].actor == log2[j].actor ensures log2[i].seqNo != log2[j].seqNo {
      var x, y := rho[i], rho[j];
      assert if x < y then log[x].seqNo != log[y].seqNo else log[y].seqNo != log[x].seqNo;
    }
    forall i, j | 0 <= i < j < |log2| && log2[i].op == Emit && log2[j].op == Emit && log2[i].msgId.Some?
      ensures log2[i].msgId != log2[j].msgId
    {
      var x, y := rho[i], rho[j];
      if y < x && log[y].msgId.Some? { assert log[y].msgId != log[x].msgId; }
    }
  }

  // ---------------------------------------------------------------- extensions

  function Through(pi: seq<nat>, o: seq<nat>): seq<nat>
    requires forall k | 0 <= k < |o| :: o[k] < |pi|
  {
    seq(|o|, k requires 0 <= k < |o| => pi[o[k]])
  }

  lemma ExtensionCarries(log: seq<CausalEvent>, log2: seq<CausalEvent>, pi: seq<nat>, o: seq<nat>)
    requires multiset(log) == multiset(log2) && Relabels(log, log2, pi) && IsExtension(LogEdges(log), |log|, o)
    ensures IsExtension(LogEdges(log2), |log2|, Through(pi, o))
  {
    hide LogEdges;
    var q := Through(pi, o);
    forall i, j | 0 <= i < j < |q| ensures q[i] != q[j] {
      var x, y := o[i], o[j];
      assert x != y && (if x < y then pi[x] != pi[y] else pi[y] != pi[x]);
    }
    forall i, j | 0 <= i < |q| && 0 <= j < |q| && (q[i], q[j]) in LogEdges(log2) ensures i < j {
      EdgesByEvent(log, log2, o[i], o[j], q[i], q[j]);
    }
  }

  /** Keys of distinct positions compare by event: the index never decides. */
  lemma KeyByEvent(log: seq<CausalEvent>, log2: seq<CausalEvent>, i: nat, j: nat, x: nat, y: nat)
    requires UniqueSeqs(log) && i < |log| && j < |log| && x < |log2| && y < |log2|
    requires log[i] == log2[x] && log[j] == log2[y] && KeyLess(log, i, j)
    ensures KeyLess(log2, x, y)
  {
    KeyAsymmetric(log, i, j);
    if i != j && log[i].actor == log[j].actor {
      assert if i < j then log[i].seqNo != log[j].seqNo else log[j].seqNo != log[i].seqNo;
    }
  }

  lemma BeforeCarries(log: seq<CausalEvent>, log2: seq<CausalEvent>, pi: seq<nat>, o: seq<nat>, q: seq<nat>)
    requires UniqueSeqs(log) && Relabels(log, log2, pi) && Before(log, o, q)
    requires forall k | 0 <= k < |o| :: o[k] < |pi|
    requires forall k | 0 <= k < |q| :: q[k] < |pi|
    ensures Before(log2, Through(pi, o), Through(pi, q))
  {
    var k: nat :| FirstSmaller(log, o, q, k);
    KeyByEvent(log, log2, o[k], q[k], pi[o[k]], pi[q[k]]);
    forall l | 0 <= l < k ensures o[l] == q[l] { assert o[..k][l] == q[..k][l]; }
    assert Through(pi, o)[..k] == Through(pi, q)[..k];
    assert FirstSmaller(log2, Through(pi, o), Through(pi, q), k);
  }

  lemma OneEventPerCoordinate(log: seq<CausalEvent>, i: nat, j: nat)
    requires UniqueSeqs(log) && i < |log| && j < |log|
    requires log[i].actor == log[j].actor && log[i].seqNo == log[j].seqNo
    ensures i == j
  {}

  lemma ThereAndBack(log: seq<CausalEvent>, log2: seq<CausalEvent>, pi: seq<nat>, rho: seq<nat>, o: seq<nat>)
    requires UniqueSeqs(log) && Relabels(log, log2, pi) && Relabels(log2, log, rho)
    requires forall k | 0 <= k < |o| :: o[k] < |log|
    ensures Through(rho, Through(pi, o)) == o
  {
    forall k | 0 <= k < |o| ensures rho[pi[o[k]]] == o[k] {
      var i, j := o[k], rho[pi[o[k]]];
      assert log[j] == log2[pi[i]] == log[i];
      OneEventPerCoordinate(log, i, j);
    }
  }

  lemma CanonicalCarries(log: seq<CausalEvent>, log2: seq<CausalEvent>, pi: seq<nat>, rho: seq<nat>, o: seq<nat>,
          o2: seq<nat>)
    requires multiset(log) == multiset(log2) && UniqueSeqs(log) && UniqueSeqs(log2)
    requires Relabels(log, log2, pi) && Relabels(log2, log, rho)
    requires IsCanonical(log, LogEdges(log), o) && IsCanonical(log2, LogEdges(log2), o2)
    ensures Through(pi, o) == o2
  {
    hide LogEdges, UniqueSeqs;
    var q2 := Through(pi, o);
    ExtensionCarries(log, log2, pi, o);
    if q2 != o2 {
      assert Before(log2, o2, q2);
      BeforeCarries(log2, log, rho, o2, q2);
      ThereAndBack(log, log2, pi, rho, o);
      ExtensionCarries(log2, log, rho, o2);
      var q := Through(rho, o2);
      BeforeAsymmetric(log, q, o);
      assert false;
    }
  }

  /** Two logs that list the same events in any order are accepted together and
      replay to the same timeline. */
  lemma OrderIndependence(log: seq<CausalEvent>, log2: seq<CausalEvent>)
    requires multiset(log) == multiset(log2)
    ensures Accepted(log) <==> Accepted(log2)
    ensures Accepted(log) ==> forall o: seq<nat>, o2: seq<nat> |
              IsCanonical(log, LogEdges(log), o) && IsCanonical(log2, LogEdges(log2), o2) &&
              Positions(log, o) && Positions(log2, o2) :: Timeline(log, o) == Timeline(log2, o2)
  {
    hide LogEdges, IsCanonical, Consistent, RecvsPaired, UniqueSeqs, UniqueEmits;
    if Accepted(log2) { AcceptanceCarries(log2, log); }
    if Accepted(log) {
      AcceptanceCarries(log, log2);
      var pi := FindRelabelling(log, log2);
      var rho := FindRelabelling(log2, log);
      forall o: seq<nat>, o2: seq<nat> |
        IsCanonical(log, LogEdges(log), o) && IsCanonical(log2, LogEdges(log2), o2) &&
        Positions(log, o) && Positions(log2, o2) ensures Timeline(log, o) == Timeline(log2, o2)
      {
        CanonicalCarries(log, log2, pi, rho, o, o2);
        assert o2 == Through(pi, o);
      }
    }
  }

  /** So are their happens-before and concurrency relations, event by event. */
  lemma RelationsByEvent(log: seq<CausalEvent>, log2: seq<CausalEvent>, i: nat, j: nat, x: nat, y: nat)
    requires multiset(log) == multiset(log2) && UniqueSeqs(log)
    requires i < |log| && j < |log| && x < |log2| && y < |log2| && log[i] == log2[x] && log[j] == log2[y]
    ensures (i, j) in LogEdges(log) <==> (x, y) in LogEdges(log2)
    ensures Reach(LogEdges(log), i, j) <==> Reach(LogEdges(log2), x, y)
    ensures Spacelike(LogEdges(log), i, j) <==> Spacelike(LogEdges(log2), x, y)
  {
    hide LogEdges, Reach;
    EdgesByEvent(log, log2, i, j, x, y);
    UniqueSeqsCarry(log, log2);
    ReachCarries(log, log2, i, j, x, y);
    ReachCarries(log, log2, j, i, y, x);
    ReachCarries(log2, log, x, y, i, j);
    ReachCarries(log2, log, y, x, j, i);
  }

  lemma UniqueSeqsCarry(log: seq<CausalEvent>, log2: seq<CausalEvent>)
    requires multiset(log) == multiset(log2) && UniqueSeqs(log)
    ensures UniqueSeqs(log2)
  {
    var rho := FindRelabelling(log2, log);
    forall i, j | 0 <= i < j < |log2| && log2[i].actor == log2[j].actor ensures log2[i].seqNo != log2[j].seqNo {
      var x, y := rho[i], rho[j];
      assert if x < y then log[x].seqNo != log[y].seqNo else log[y].seqNo != log[x].seqNo;
    }
  }

  lemma ReachCarries(log: seq<CausalEvent>, log2: seq<CausalEvent>, i: nat, j: nat, x: nat, y: nat)
    requires multiset(log) == multiset(log2) && UniqueSeqs(log2)
    requires i < |log| && j < |log| && x < |log2| && y < |log2| && log[i] == log2[x] && log[j] == log2[y]
    ensures Reach(LogEdges(log), i, j) ==> Reach(LogEdges(log2), x, y)
  {
    hide LogEdges;
    if Reach(LogEdges(log), i, j) {
      var pi := FindRelabelling(log, log2);
      OneEventPerCoordinate(log2, pi[i], x);
      OneEventPerCoordinate(log2, pi[j], y);
      var p: seq<nat> :| IsWalk(LogEdges(log), p, i, j);
      WalkCarries(log, log2, pi, p, i, j);
    }
  }

  lemma WalkCarries(log: seq<CausalEvent>, log2: seq<CausalEvent>, pi: seq<nat>, p: seq<nat>, i: nat, j: nat)
    requires multiset(log) == multiset(log2) && Relabels(log, log2, pi) && i < |log| && j < |log|
    requires IsWalk(LogEdges(log), p, i, j)
    ensures Reach(LogEdges(log2), pi[i], pi[j])
  {
    hide LogEdges;
    forall k | 0 <= k < |p| ensures p[k] < |log| {
      if k < |p| - 1 {
        assert (p[k], p[k + 1]) in LogEdges(log);
        LogEdge(log, p[k], p[k + 1]);
      }
    }
    var q := Through(pi, p);
    forall k | 0 <= k < |q| - 1 ensures (q[k], q[k + 1]) in LogEdges(log2) {
      assert (p[k], p[k + 1]) in LogEdges(log);
      EdgesByEvent(log, log2, p[k], p[k + 1], q[k], q[k + 1]);
    }
    assert IsWalk(LogEdges(log2), q, pi[i], pi[j]);
  }

  // ------------------------------------------------------ how the order reads

  /** By Lamport stamp, then by name, character by character, then by number. */
  ghost predicate ReadsBefore(d: CausalEvent, e: CausalEvent) {
    d.lamport < e.lamport ||
    (d.lamport == e.lamport && (ComesFirst(d.actor, e.actor) || (d.actor == e.actor && d.seqNo < e.seqNo)))
  }

  ghost predicate SameCoordinates(d: CausalEvent, e: CausalEvent) {
    d.lamport == e.lamport && d.actor == e.actor && d.seqNo == e.seqNo
  }

  lemma KeyReads(log: seq<CausalEvent>, i: nat, j: nat)
    requires i < |log| && j < |log|
    ensures KeyLess(log, i, j) <==> ReadsBefore(log[i], log[j]) || (SameCoordinates(log[i], log[j]) && i < j)
  {
    hide ComesFirst, NameLess;
    NameOrder(log[i].actor, log[j].actor);
    NameLessIrreflexive(log[i].actor);
  }

  /** `o` with the entry at `l` moved forward to `k`. */
  function MoveUp(o: seq<nat>, k: nat, l: nat): seq<nat>
    requires k < l < |o|
  {
    o[..k] + [o[l]] + o[k..l] + o[l + 1..]
  }

  function WasAt(k: nat, l: nat, i: nat): nat { if i == k then l else if k < i <= l then i - 1 else i }

  lemma MovedUpExtends(E: Edges, n: nat, o: seq<nat>, k: nat, l: nat)
    requires IsExtension(E, n, o) && k < l < |o| && forall a: nat | (a, o[l]) in E :: a in o[..k]
    ensures IsExtension(E, n, MoveUp(o, k, l))
  {
    var q := MoveUp(o, k, l);
    assert forall i: nat | i < |q| :: WasAt(k, l, i) < |o| && q[i] == o[WasAt(k, l, i)];
    forall i, j | 0 <= i < j < |q| ensures q[i] != q[j] {
      var x, y := WasAt(k, l, i), WasAt(k, l, j);
      assert x != y && if x < y then o[x] != o[y] else o[y] != o[x];
    }
    forall i, j | 0 <= i < |q| && 0 <= j < |q| && (q[i], q[j]) in E ensures i < j {
      var x, y := WasAt(k, l, i), WasAt(k, l, j);
      assert x < y;
      if j == k {
        var z :| 0 <= z < k && o[..k][z] == o[x];
        assert z == x;
      }
    }
  }

  /** The canonical order at any place takes, of all events whose causes are already
      placed, the one that reads first; of those that read alike, the one listed first. */
  lemma CanonicalTakesFirst(log: seq<CausalEvent>, E: Edges, o: seq<nat>, k: nat, l: nat)
    requires IsCanonical(log, E, o) && Positions(log, o)
    requires k < l < |o| && forall a: nat | (a, o[l]) in E :: a in o[..k]
    ensures ReadsBefore(log[o[k]], log[o[l]]) || (SameCoordinates(log[o[k]], log[o[l]]) && o[k] < o[l])
    ensures UniqueSeqs(log) ==> ReadsBefore(log[o[k]], log[o[l]])
  {
    hide ReadsBefore, KeyLess;
    assert o[k] != o[l];
    KeyReads(log, o[k], o[l]);
    KeyTotal(log, o[k], o[l]);
    if KeyLess(log, o[l], o[k]) {
      var q := MoveUp(o, k, l);
      MovedUpExtends(E, |log|, o, k, l);
      assert o[..k] == q[..k];
      assert FirstSmaller(log, q, o, k);
      BeforeAsymmetric(log, q, o);
      assert false;
    }
  }

  // ------------------------------------------------------- Kahn equals sorting

  ghost predicate SortedByKey(log: seq<CausalEvent>, o: seq<nat>)
    requires Positions(log, o)
  {
    forall i, j | 0 <= i < j < |o| :: KeyLess(log, o[i], o[j])
  }

  ghost predicate LamportRespects(log: seq<CausalEvent>, E: Edges) {
    forall i: nat, j: nat | i < |log| && j < |log| && (i, j) in E :: log[i].lamport < log[j].lamport
  }

  function Swap(o: seq<nat>, k: nat): seq<nat>
    requires k + 1 < |o|
  {
    o[k := o[k + 1]][k + 1 := o[k]]
  }

  /** An adjacent inversion of keys could be undone, giving a smaller extension. */
  lemma NoInversion(log: seq<CausalEvent>, E: Edges, o: seq<nat>, k: nat)
    requires LamportRespects(log, E) && IsCanonical(log, E, o) && Positions(log, o) && k + 1 < |o|
    ensures KeyLess(log, o[k], o[k + 1])
  {
    KeyTotal(log, o[k], o[k + 1]);
    if KeyLess(log, o[k + 1], o[k]) {
      var q := Swap(o, k);
      forall i, j | 0 <= i < |q| && 0 <= j < |q| && (q[i], q[j]) in E ensures i < j {
        var x := if i == k then k + 1 else if i == k + 1 then k else i;
        var y := if j == k then k + 1 else if j == k + 1 then k else j;
        assert q[i] == o[x] && q[j] == o[y];
        assert x < y;
      }
      assert IsExtension(E, |log|, q);
      assert o[..k] == q[..k];
      assert FirstSmaller(log, q, o, k);
      BeforeAsymmetric(log, q, o);
      assert false;
    }
  }

  /** When Lamport stamps strictly increase along every edge, the canonical
      extension is the log sorted by (lamport, actor, seq). */
  lemma KahnIsSorting(log: seq<CausalEvent>, E: Edges, o: seq<nat>)
    requires LamportRespects(log, E) && IsCanonical(log, E, o) && Positions(log, o)
    ensures SortedByKey(log, o)
    ensures UniqueSeqs(log) ==> forall x, y | 0 <= x < y < |o| :: ReadsBefore(log[o[x]], log[o[y]])
  {
    hide LamportRespects, IsCanonical, ReadsBefore, UniqueSeqs;
    forall i, j | 0 <= i < j < |o| ensures KeyLess(log, o[i], o[j]) { SortedFrom(log, E, o, i, j); }
    if UniqueSeqs(log) {
      forall x, y | 0 <= x < y < |o| ensures ReadsBefore(log[o[x]], log[o[y]]) {
        KeyAsymmetric(log, o[x], o[y]);
        KeyReads(log, o[x], o[y]);
        if SameCoordinates(log[o[x]], log[o[y]]) { OneEventPerCoordinate(log, o[x], o[y]); }
      }
    }
  }

  lemma {:induction false} SortedFrom(log: seq<CausalEvent>, E: Edges, o: seq<nat>, i: nat, j: nat)
    requires LamportRespects(log, E) && IsCanonical(log, E, o) && Positions(log, o) && i < j < |o|
    ensures KeyLess(log, o[i], o[j])
    decreases j
  {
    hide LamportRespects, IsCanonical, KeyLess;
    NoInversion(log, E, o, j - 1);
    if i < j - 1 {
      SortedFrom(log, E, o, i, j - 1);
      KeyTransitive(log, o[i], o[j - 1], o[j]);
    }
  }
}
