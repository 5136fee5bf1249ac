/** The edges `build` draws generate exactly the causal order: everything an actor
    does later, and everything that follows a message, and nothing more. */
module Causality {
  import opened Events
  import opened Graphs
  import opened Posets

  /** Causality without the economy of direct edges: all pairs on one actor's line,
      and all emit-receive pairs. */
  ghost predicate Causes(log: seq<CausalEvent>, i: nat, j: nat) {
    && i < |log| && j < |log|
    && ((log[i].actor == log[j].actor && log[i].seqNo < log[j].seqNo) || MessageEdge(log, i, j))
  }

  ghost function CausalEdges(log: seq<CausalEvent>): Edges {
    set i: nat, j: nat | i < |log| && j < |log| && Causes(log, i, j) :: (i, j)
  }

  lemma CausalEdge(log: seq<CausalEvent>, i: nat, j: nat)
    ensures (i, j) in CausalEdges(log) <==> Causes(log, i, j)
  {}

  /** Any two events of one actor are joined by a chain of direct edges. */
  lemma {:induction false} LineIsChained(log: seq<CausalEvent>, i: nat, j: nat)
    requires i < |log| && j < |log| && log[i].actor == log[j].actor && log[i].seqNo < log[j].seqNo
    ensures Reach(LogEdges(log), i, j)
    decreases log[j].seqNo - log[i].seqNo
  {
    hide LogEdges, Reach;
    if ProgramEdge(log, i, j) {
      LogEdge(log, i, j);
      EdgeReaches(LogEdges(log), i, j);
    } else {
      var k :| 0 <= k < |log| && log[k].actor == log[i].actor && log[i].seqNo < log[k].seqNo < log[j].seqNo;
      LineIsChained(log, i, k);
      LineIsChained(log, k, j);
      ReachTransitive(LogEdges(log), i, k, j);
    }
  }

  lemma {:induction false} WalkCovered(E: Edges, F: Edges, p: seq<nat>, a: nat, b: nat)
    requires IsWalk(E, p, a, b)
    requires forall x: nat, y: nat | (x, y) in E :: Reach(F, x, y)
    ensures Reach(F, a, b)
  {
    hide Reach;
    assert (p[0], p[1]) in E;
    if |p| > 2 {
      WalkCovered(E, F, p[1..], p[1], b);
      ReachTransitive(F, a, p[1], b);
    }
  }

  lemma ClosureCovers(E: Edges, F: Edges, a: nat, b: nat)
    requires Reach(E, a, b)
    requires forall x: nat, y: nat | (x, y) in E :: Reach(F, x, y)
    ensures Reach(F, a, b)
  {
    var p: seq<nat> :| IsWalk(E, p, a, b);
    WalkCovered(E, F, p, a, b);
  }

  /** The poset's paths are the causal order, on every log. */
  lemma ClosureIsCausal(log: seq<CausalEvent>, i: nat, j: nat)
    ensures Reach(LogEdges(log), i, j) <==> Reach(CausalEdges(log), i, j)
  {
    hide LogEdges, CausalEdges, Reach;
    var E, F := LogEdges(log), CausalEdges(log);
    forall x: nat, y: nat | (x, y) in E ensures Reach(F, x, y) {
      LogEdge(log, x, y);
      CausalEdge(log, x, y);
      EdgeReaches(F, x, y);
    }
    forall x: nat, y: nat | (x, y) in F ensures Reach(E, x, y) {
      CausalEdge(log, x, y);
      LogEdge(log, x, y);
      if MessageEdge(log, x, y) { EdgeReaches(E, x, y); } else { LineIsChained(log, x, y); }
    }
    if Reach(E, i, j) { ClosureCovers(E, F, i, j); }
    if Reach(F, i, j) { ClosureCovers(F, E, i, j); }
  }
}
