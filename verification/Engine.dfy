/** The offline engine: build, validate, linearise, and list concurrent pairs (engine.rs). */
module Engine {
  import opened Clocks
  import opened Events
  import opened Graphs
  import opened Posets
  import opened Extensions

  // -------------------------------------------------------------- reachability

  /** A set that contains the successors of `s` and of its own members contains
      everything `s` reaches. */
  lemma {:induction false} ClosedUnderWalks(E: Edges, S: set<nat>, s: nat, p: seq<nat>, v: nat)
    requires IsWalk(E, p, s, v)
    requires forall u, x | (u, x) in E && (u == s || u in S) :: x in S
    ensures v in S
    decreases |p|
  {
    var u := p[|p| - 2];
    assert (p[|p| - 2], p[|p| - 1]) in E;
    if |p| > 2 { ClosedUnderWalks(E, S, s, p[..|p| - 1], u); }
  }

  ghost function Marked(seen: seq<bool>): set<nat> { set v | v in Range(|seen|) && seen[v] }

  /** All successors of `u` are marked. */
  ghost predicate Expanded(edges: seq<(nat, nat)>, seen: seq<bool>, u: nat) {
    forall v | v in Succs(edges, u) :: v < |seen| && seen[v]
  }

  /** Marks are truthful, the stack holds marked events, and every marked event off
      the stack is expanded. */
  ghost predicate Exploring(edges: seq<(nat, nat)>, n: nat, s: nat, seen: seq<bool>, stack: seq<nat>) {
    && |seen| == n
    && (forall v: nat | v < n && seen[v] :: Reach(EdgeSet(edges), s, v))
    && (forall k | 0 <= k < |stack| :: stack[k] < n && (stack[k] == s || seen[stack[k]]))
    && (forall x: nat | x < n && (x == s || seen[x]) && x !in stack :: Expanded(edges, seen, x))
  }

  /** Depth-first search from `s`; cycles are allowed. */
  method Search(n: nat, edges: seq<(nat, nat)>, succ: array<seq<nat>>, s: nat) returns (seen: seq<bool>)
    requires s < n && succ.Length == n && Within(EdgeSet(edges), n)
    requires forall j | 0 <= j < n :: succ[j] == Succs(edges, j)
    ensures |seen| == n && forall v | 0 <= v < n :: seen[v] <==> Reach(EdgeSet(edges), s, v)
  {
    hide Reach, Succs, EdgeSet, Within, Exploring, Marked;
    seen := seq(n, _ => false);
    var stack := [s];
    StartSearch(edges, n, s, seen, stack);
    while stack != []
      invariant |seen| == n && Exploring(edges, n, s, seen, stack)
      decreases |Range(n) - Marked(seen)|, |stack|
    {
      var u := stack[|stack| - 1];
      assert u < n by { TopOfStack(edges, n, s, seen, stack); }
      ghost var before := |Range(n) - Marked(seen)|;
      seen, stack := Expand(n, edges, succ[u], s, seen, stack);
    }
    forall v: nat | v < n ensures seen[v] <==> Reach(EdgeSet(edges), s, v) { SearchComplete(n, edges, seen, s, v); }
  }

  lemma StartSearch(edges: seq<(nat, nat)>, n: nat, s: nat, seen: seq<bool>, stack: seq<nat>)
    requires s < n && |seen| == n && stack == [s] && forall v | 0 <= v < n :: !seen[v]
    ensures Exploring(edges, n, s, seen, stack)
  {}

  lemma TopOfStack(edges: seq<(nat, nat)>, n: nat, s: nat, seen: seq<bool>, stack: seq<nat>)
    requires Exploring(edges, n, s, seen, stack) && stack != []
    ensures var u := stack[|stack| - 1]; u < n && (u == s || Reach(EdgeSet(edges), s, u))
  {}

  /** The state inside one expansion: `u` was popped and its first `k` successors
      have been looked at. */
  ghost predicate Expanding(edges: seq<(nat, nat)>, n: nat, s: nat, u: nat, k: nat, seen: seq<bool>, stack: seq<nat>) {
    && |seen| == n
    && (forall v: nat | v < n && seen[v] :: Reach(EdgeSet(edges), s, v))
    && (forall l | 0 <= l < |stack| :: stack[l] < n && (stack[l] == s || seen[stack[l]]))
    && (forall x: nat | x < n && (x == s || seen[x]) && x !in stack && x != u :: Expanded(edges, seen, x))
    && k <= |Succs(edges, u)|
    && (forall l | 0 <= l < k :: Succs(edges, u)[l] < n && seen[Succs(edges, u)[l]])
  }

  /** Pop one event; mark and push its unmarked successors. */
  method Expand(n: nat, edges: seq<(nat, nat)>, next: seq<nat>, ghost s: nat, seen0: seq<bool>, stack0: seq<nat>)
    returns (seen: seq<bool>, stack: seq<nat>)
    requires Within(EdgeSet(edges), n) && Exploring(edges, n, s, seen0, stack0) && |seen0| == n
    requires stack0 != [] && next == Succs(edges, stack0[|stack0| - 1])
    ensures |seen| == n && Exploring(edges, n, s, seen, stack)
    ensures (Marked(seen) == Marked(seen0) && |stack| < |stack0|)
            || |Range(n) - Marked(seen)| < |Range(n) - Marked(seen0)|
  {
    hide Reach, Succs, EdgeSet, Within, Exploring, Expanding, Marked;
    ghost var u := stack0[|stack0| - 1];
    seen, stack := seen0, stack0[..|stack0| - 1];
    TopOfStack(edges, n, s, seen0, stack0);
    StartExpand(edges, n, s, seen0, stack0);
    for k := 0 to |next|
      invariant |seen| == n && Expanding(edges, n, s, u, k, seen, stack)
      invariant (seen == seen0 && |stack| < |stack0|) || |Range(n) - Marked(seen)| < |Range(n) - Marked(seen0)|
    {
      var v := next[k];
      assert v < n by { SuccessorWithin(edges, n, u, v); }
      LookAt(edges, n, s, u, k, seen, stack);
      if !seen[v] {
        MarkOne(seen, v);
        seen := seen[v := true];
        stack := stack + [v];
      }
    }
    EndExpand(edges, n, s, u, seen, stack);
  }

  lemma SuccessorWithin(edges: seq<(nat, nat)>, n: nat, u: nat, v: nat)
    requires Within(EdgeSet(edges), n) && v in Succs(edges, u)
    ensures v < n && (u, v) in EdgeSet(edges)
  {
    SuccsAreEdges(edges, u, v);
    assert (u, v) in EdgeSet(edges);
  }

  lemma StartExpand(edges: seq<(nat, nat)>, n: nat, s: nat, seen: seq<bool>, stack: seq<nat>)
    requires Exploring(edges, n, s, seen, stack) && stack != []
    ensures Expanding(edges, n, s, stack[|stack| - 1], 0, seen, stack[..|stack| - 1])
  {
    hide Reach, Succs;
    var u, rest := stack[|stack| - 1], stack[..|stack| - 1];
    assert stack == rest + [u];
  }

  lemma LookAt(edges: seq<(nat, nat)>, n: nat, s: nat, u: nat, k: nat, seen: seq<bool>, stack: seq<nat>)
    requires Within(EdgeSet(edges), n) && Expanding(edges, n, s, u, k, seen, stack) && k < |Succs(edges, u)|
    requires u == s || Reach(EdgeSet(edges), s, u)
    ensures var v := Succs(edges, u)[k];
      v < n && if seen[v] then Expanding(edges, n, s, u, k + 1, seen, stack)
               else Expanding(edges, n, s, u, k + 1, seen[v := true], stack + [v])
  {
    hide Reach, Succs, EdgeSet, Expanded, Within;
    var v := Succs(edges, u)[k];
    SuccessorWithin(edges, n, u, v);
    StepReaches(EdgeSet(edges), s, u, v);
    if !seen[v] {
      forall x: nat | x < n && (x == s || seen[v := true][x]) && x !in stack + [v] && x != u
        ensures Expanded(edges, seen[v := true], x)
      {
        assert x != v by { assert v == (stack + [v])[|stack|]; }
        assert x !in stack by { assert forall y | y in stack :: y in stack + [v]; }
        ExpandedGrows(edges, seen, v, x);
      }
    }
  }

  lemma ExpandedGrows(edges: seq<(nat, nat)>, seen: seq<bool>, v: nat, x: nat)
    requires v < |seen| && Expanded(edges, seen, x)
    ensures Expanded(edges, seen[v := true], x)
  {
    hide Succs;
  }

  lemma EndExpand(edges: seq<(nat, nat)>, n: nat, s: nat, u: nat, seen: seq<bool>, stack: seq<nat>)
    requires Expanding(edges, n, s, u, |Succs(edges, u)|, seen, stack)
    ensures Exploring(edges, n, s, seen, stack)
  {
    hide Reach, Succs;
    assert Expanded(edges, seen, u);
  }

  lemma StepReaches(E: Edges, s: nat, u: nat, v: nat)
    requires (u, v) in E && (u == s || Reach(E, s, u))
    ensures Reach(E, s, v)
  {
    hide Reach;
    EdgeReaches(E, u, v);
    if u != s { ReachTransitive(E, s, u, v); }
  }

  lemma MarkOne(seen: seq<bool>, v: nat)
    requires v < |seen| && !seen[v]
    ensures Marked(seen[v := true]) == Marked(seen) + {v}
    ensures |Range(|seen|) - Marked(seen[v := true])| < |Range(|seen|) - Marked(seen)|
  {
    assert Marked(seen[v := true]) == Marked(seen) + {v};
    assert Range(|seen|) - Marked(seen) == (Range(|seen|) - Marked(seen[v := true])) + {v};
  }

  lemma SearchComplete(n: nat, edges: seq<(nat, nat)>, seen: seq<bool>, s: nat, v: nat)
    requires s < n && v < n && |seen| == n && Within(EdgeSet(edges), n) && Exploring(edges, n, s, seen, [])
    ensures seen[v] <==> Reach(EdgeSet(edges), s, v)
  {
    var E := EdgeSet(edges);
    if Reach(E, s, v) {
      forall u: nat, x: nat | (u, x) in E && (u == s || u in Marked(seen)) ensures x in Marked(seen) {
        SuccsAreEdges(edges, u, x);
        assert Expanded(edges, seen, u);
      }
      var p: seq<nat> :| IsWalk(E, p, s, v);
      ClosedUnderWalks(E, Marked(seen), s, p, v);
    }
  }

  // ---------------------------------------------------------- concurrent pairs

  ghost predicate Spacelike(E: Edges, a: nat, b: nat) { !Reach(E, a, b) && !Reach(E, b, a) }

  ghost predicate PairLess(x: (nat, nat), y: (nat, nat)) { x.0 < y.0 || (x.0 == y.0 && x.1 < y.1) }

  ghost predicate PairsSorted(pairs: seq<(nat, nat)>) {
    forall i, j | 0 <= i < j < |pairs| :: PairLess(pairs[i], pairs[j])
  }

  function Ids(log: seq<CausalEvent>, pairs: seq<(nat, nat)>): seq<(string, string)>
    requires forall i | 0 <= i < |pairs| :: pairs[i].0 < |log| && pairs[i].1 < |log|
  {
    seq(|pairs|, i requires 0 <= i < |pairs| => (log[pairs[i].0].id, log[pairs[i].1].id))
  }

  /** `pairs` lists every unordered pair of unrelated events, each exactly once. */
  ghost predicate ListsSpacelike(E: Edges, n: nat, pairs: seq<(nat, nat)>) {
    && PairsSorted(pairs)
    && (forall i | 0 <= i < |pairs| :: pairs[i].0 < pairs[i].1 < n)
    && forall a: nat, b: nat | a < b < n :: (a, b) in pairs <==> Spacelike(E, a, b)
  }

  /** `out` names, by event id, exactly the pairs of unrelated events. */
  ghost predicate NamesSpacelike(log: seq<CausalEvent>, E: Edges, out: seq<(string, string)>) {
    exists pairs: seq<(nat, nat)> :: NamesPairs(log, E, pairs, out)
  }

  ghost predicate NamesPairs(log: seq<CausalEvent>, E: Edges, pairs: seq<(nat, nat)>, out: seq<(string, string)>) {
    && ListsSpacelike(E, |log|, pairs)
    && (forall i | 0 <= i < |pairs| :: pairs[i].0 < |log| && pairs[i].1 < |log|)
    && out == Ids(log, pairs)
  }

  ghost predicate SpacelikeAt(log: seq<CausalEvent>, E: Edges, a: nat, b: nat, name: (string, string)) {
    a < b < |log| && Spacelike(E, a, b) && name == (log[a].id, log[b].id)
  }

  ghost predicate NamesUnrelated(log: seq<CausalEvent>, E: Edges, name: (string, string)) {
    exists a: nat, b: nat :: SpacelikeAt(log, E, a, b, name)
  }

  /** Every entry names two unrelated events, the one listed earlier in the log first,
      and every two unrelated events are named. */
  ghost predicate ConcurrentNamed(log: seq<CausalEvent>, E: Edges, out: seq<(string, string)>) {
    && (forall k | 0 <= k < |out| :: NamesUnrelated(log, E, out[k]))
    && (forall a: nat, b: nat | a < b < |log| && Spacelike(E, a, b) :: (log[a].id, log[b].id) in out)
  }

  lemma NamedAt(log: seq<CausalEvent>, pairs: seq<(nat, nat)>, k: nat)
    requires k < |pairs| && forall i | 0 <= i < |pairs| :: pairs[i].0 < |log| && pairs[i].1 < |log|
    ensures |Ids(log, pairs)| == |pairs| && Ids(log, pairs)[k] == (log[pairs[k].0].id, log[pairs[k].1].id)
    ensures (log[pairs[k].0].id, log[pairs[k].1].id) in Ids(log, pairs)
  {
    assert Ids(log, pairs)[k] in Ids(log, pairs);
  }

  lemma PairsAreNamed(log: seq<CausalEvent>, E: Edges, pairs: seq<(nat, nat)>, out: seq<(string, string)>)
    requires NamesPairs(log, E, pairs, out)
    ensures ConcurrentNamed(log, E, out)
  {
    hide Spacelike, Ids, PairsSorted;
    assert |out| == |pairs| by { if pairs != [] { NamedAt(log, pairs, 0); } else { NoneNamed(log); } }
    forall k | 0 <= k < |out| ensures NamesUnrelated(log, E, out[k]) {
      var a, b := pairs[k].0, pairs[k].1;
      assert (a, b) in pairs;
      NamedAt(log, pairs, k);
      assert SpacelikeAt(log, E, a, b, out[k]);
    }
    forall a: nat, b: nat | a < b < |log| && Spacelike(E, a, b) ensures (log[a].id, log[b].id) in out {
      var k :| 0 <= k < |pairs| && pairs[k] == (a, b);
      NamedAt(log, pairs, k);
    }
  }

  lemma NoneNamed(log: seq<CausalEvent>)
    ensures Ids(log, []) == []
  {}

  method ConcurrentPairs(log: seq<CausalEvent>, edges: seq<(nat, nat)>) returns (out: seq<(string, string)>)
    requires Within(EdgeSet(edges), |log|)
    ensures NamesSpacelike(log, EdgeSet(edges), out) && ConcurrentNamed(log, EdgeSet(edges), out)
  {
    hide Reach, Within, EdgeSet, Succs, CountIn;
    ghost var pairs: seq<(nat, nat)>;
    ghost var E := EdgeSet(edges);
    var n := |log|;
    assert forall e | e in edges :: e.0 < n && e.1 < n by { WithinListed(edges, n); }
    var indeg, succ := CountEdges(n, edges);
    var reach: seq<seq<bool>> := [];
    for s := 0 to n
      invariant forall j | 0 <= j < n :: succ[j] == Succs(edges, j)
      invariant |reach| == s && forall a | 0 <= a < s :: RowOf(E, n, a, reach[a])
    {
      var row := Search(n, edges, succ, s);
      reach := reach + [row];
    }
    out, pairs := [], [];
    for a := 0 to n
      invariant Listing(E, n, pairs, a, 0) && out == Ids(log, pairs)
    {
      StartRow(E, n, pairs, a);
      for b := a + 1 to n
        invariant Listing(E, n, pairs, a, b) && out == Ids(log, pairs)
      {
        NextPair(E, n, pairs, a, b);
        assert RowOf(E, n, a, reach[a]) && RowOf(E, n, b, reach[b]);
        if !reach[a][b] && !reach[b][a] {
          pairs := pairs + [(a, b)];
          out := out + [(log[a].id, log[b].id)];
        }
      }
      EndRow(E, n, pairs, a);
    }
    AllListed(E, n, pairs);
    assert NamesPairs(log, E, pairs, out);
    PairsAreNamed(log, E, pairs, out);
  }

  lemma WithinListed(edges: seq<(nat, nat)>, n: nat)
    requires Within(EdgeSet(edges), n)
    ensures forall e | e in edges :: e.0 < n && e.1 < n
  {
    forall e | e in edges ensures e.0 < n && e.1 < n { assert e in EdgeSet(edges); }
  }

  ghost predicate RowOf(E: Edges, n: nat, a: nat, row: seq<bool>) {
    |row| == n && forall v | 0 <= v < n :: row[v] <==> Reach(E, a, v)
  }

  /** The listing is complete for pairs below `(a, b)`. */
  ghost predicate Listing(E: Edges, n: nat, pairs: seq<(nat, nat)>, a: nat, b: nat) {
    && PairsSorted(pairs)
    && (forall i | 0 <= i < |pairs| :: pairs[i].0 < pairs[i].1 < n && PairLess(pairs[i], (a, b)))
    && forall x: nat, y: nat | x < y < n && PairLess((x, y), (a, b)) :: (x, y) in pairs <==> Spacelike(E, x, y)
  }

  lemma StartRow(E: Edges, n: nat, pairs: seq<(nat, nat)>, a: nat)
    requires Listing(E, n, pairs, a, 0) && a < n
    ensures Listing(E, n, pairs, a, a + 1)
  {}

  lemma NextPair(E: Edges, n: nat, pairs: seq<(nat, nat)>, a: nat, b: nat)
    requires Listing(E, n, pairs, a, b) && a < b < n
    ensures if Spacelike(E, a, b) then Listing(E, n, pairs + [(a, b)], a, b + 1) else Listing(E, n, pairs, a, b + 1)
  {
    hide Reach;
    assert (a, b) !in pairs;
    forall x: nat, y: nat | x < y < n && PairLess((x, y), (a, b + 1))
      ensures (x, y) == (a, b) || PairLess((x, y), (a, b)) {}
  }

  lemma EndRow(E: Edges, n: nat, pairs: seq<(nat, nat)>, a: nat)
    requires Listing(E, n, pairs, a, if a + 1 < n then n else a + 1) && a < n
    ensures Listing(E, n, pairs, a + 1, 0)
  {}

  lemma AllListed(E: Edges, n: nat, pairs: seq<(nat, nat)>)
    requires Listing(E, n, pairs, n, 0)
    ensures ListsSpacelike(E, n, pairs)
  {}

  // --------------------------------------------------------------- replay_log

  datatype Replayed = Replayed(
    timeline: seq<CausalEvent>,
    events: seq<string>,
    edges: seq<(string, string)>,
    concurrent: seq<(string, string)>)

  function Timeline(log: seq<CausalEvent>, order: seq<nat>): seq<CausalEvent>
    requires Positions(log, order)
  {
    seq(|order|, k requires 0 <= k < |order| => log[order[k]])
  }

  /** What the engine emits for an accepted log. */
  ghost predicate IsReplay(log: seq<CausalEvent>, order: seq<nat>, edges: seq<(nat, nat)>, pairs: seq<(nat, nat)>,
          r: Replayed) {
    && IsCanonical(log, LogEdges(log), order) && Positions(log, order)
    && ListsEdges(log, edges) && ListsInOrder(log, edges)
    && (forall i | 0 <= i < |edges| :: edges[i].0 < |log| && edges[i].1 < |log|)
    && ListsSpacelike(LogEdges(log), |log|, pairs)
    && r.timeline == Timeline(log, order)
    && r.events == seq(|order|, k requires 0 <= k < |order| => log[order[k]].id)
    && r.edges == Ids(log, edges)
    && r.concurrent == Ids(log, pairs)
  }

  ghost predicate EdgeAt(log: seq<CausalEvent>, i: nat, j: nat, name: (string, string)) {
    i < |log| && j < |log| && (ProgramEdge(log, i, j) || MessageEdge(log, i, j)) && name == (log[i].id, log[j].id)
  }

  ghost predicate NamesEdge(log: seq<CausalEvent>, name: (string, string)) {
    exists i: nat, j: nat :: EdgeAt(log, i, j, name)
  }

  /** Every entry names an edge, cause first, and every edge is named. */
  ghost predicate EdgesNamed(log: seq<CausalEvent>, out: seq<(string, string)>) {
    && (forall k | 0 <= k < |out| :: NamesEdge(log, out[k]))
    && (forall i: nat, j: nat | i < |log| && j < |log| && (ProgramEdge(log, i, j) || MessageEdge(log, i, j)) ::
          (log[i].id, log[j].id) in out)
  }

  lemma ListedEdgesNamed(log: seq<CausalEvent>, edges: seq<(nat, nat)>, out: seq<(string, string)>)
    requires ListsEdges(log, edges) && forall k | 0 <= k < |edges| :: edges[k].0 < |log| && edges[k].1 < |log|
    requires out == Ids(log, edges)
    ensures EdgesNamed(log, out)
  {
    hide ListsEdges, ProgramEdge, MessageEdge, Ids, LogEdges;
    assert |out| == |edges| by { if edges != [] { NamedAt(log, edges, 0); } else { NoneNamed(log); } }
    forall k | 0 <= k < |out| ensures NamesEdge(log, out[k]) {
      var i, j := edges[k].0, edges[k].1;
      assert (i, j) in edges;
      ListedEdges(log, edges, i, j);
      LogEdge(log, i, j);
      NamedAt(log, edges, k);
      assert EdgeAt(log, i, j, out[k]);
    }
    forall i: nat, j: nat | i < |log| && j < |log| && (ProgramEdge(log, i, j) || MessageEdge(log, i, j))
      ensures (log[i].id, log[j].id) in out
    {
      LogEdge(log, i, j);
      ListedEdges(log, edges, i, j);
      var k :| 0 <= k < |edges| && edges[k] == (i, j);
      NamedAt(log, edges, k);
    }
  }

  /** What the engine's result says in the log's own terms: the events once each, in
      the order of the timeline; the arrows from cause to effect; the unrelated pairs. */
  ghost predicate Reads(log: seq<CausalEvent>, r: Replayed) {
    && multiset(r.timeline) == multiset(log)
    && |r.events| == |r.timeline| && (forall k | 0 <= k < |r.events| :: r.events[k] == r.timeline[k].id)
    && EdgesNamed(log, r.edges) && ConcurrentNamed(log, LogEdges(log), r.concurrent)
  }

  lemma {:induction false} TimelineLists(log: seq<CausalEvent>, order: seq<nat>, n: nat)
    requires n <= |log| && |order| == n && Distinct(order) && forall k | 0 <= k < n :: order[k] < n
    ensures Positions(log, order) && multiset(Timeline(log, order)) == multiset(log[..n])
  {
    hide Timeline;
    if n == 0 {
      EmptyTimeline(log);
      assert order == [] && log[..0] == [];
    } else {
      ExtensionCovers({}, n, order, n - 1);
      var k :| 0 <= k < n && order[k] == n - 1;
      var rest := order[..k] + order[k + 1..];
      RestOfOrder(order, n, k);
      TimelineLists(log, rest, n - 1);
      TimelineSplits(log, order, k);
      assert log[..n] == log[..n - 1] + [log[n - 1]];
    }
  }

  lemma EmptyTimeline(log: seq<CausalEvent>)
    ensures Timeline(log, []) == []
  {}

  lemma RestOfOrder(order: seq<nat>, n: nat, k: nat)
    requires k < |order| == n && Distinct(order) && order[k] == n - 1 && forall i | 0 <= i < n :: order[i] < n
    ensures var rest := order[..k] + order[k + 1..];
      |rest| == n - 1 && Distinct(rest) && forall i | 0 <= i < |rest| :: rest[i] < n - 1
  {
    var rest := order[..k] + order[k + 1..];
    assert forall i | 0 <= i < |rest| :: rest[i] == order[if i < k then i else i + 1];
  }

  lemma TimelineSplits(log: seq<CausalEvent>, order: seq<nat>, k: nat)
    requires Positions(log, order) && k < |order|
    ensures Positions(log, order[..k] + order[k + 1..])
    ensures multiset(Timeline(log, order)) == multiset(Timeline(log, order[..k] + order[k + 1..]))
            + multiset{log[order[k]]}
  {
    var before, after := Timeline(log, order[..k]), Timeline(log, order[k + 1..]);
    assert Timeline(log, order) == before + [log[order[k]]] + after;
    assert Timeline(log, order[..k] + order[k + 1..]) == before + after;
  }

  lemma ReplayReads(log: seq<CausalEvent>, order: seq<nat>, edges: seq<(nat, nat)>, pairs: seq<(nat, nat)>,
          r: Replayed)
    requires IsReplay(log, order, edges, pairs, r)
    ensures Reads(log, r)
  {
    hide Spacelike, ListsEdges, LogEdges, EdgesNamed, ConcurrentNamed, ListsInOrder, Ids;
    TimelineLists(log, order, |log|);
    assert log[..|log|] == log;
    ListedEdgesNamed(log, edges, r.edges);
    PairsAreNamed(log, LogEdges(log), pairs, r.concurrent);
  }

  /** On an accepted log with distinct event ids every arrow of the output points
      from an event to one with a later clock. */
  lemma ArrowsFollowClocks(log: seq<CausalEvent>, r: Replayed, i: nat, j: nat)
    requires Accepted(log) && Reads(log, r) && i < |log| && j < |log| && (log[i].id, log[j].id) in r.edges
    requires forall x, y | 0 <= x < y < |log| :: log[x].id != log[y].id
    ensures Lt(log[i].vclock, log[j].vclock)
  {
    hide Lt, ConcurrentNamed, Buildable, ProgramEdge, MessageEdge;
    var k :| 0 <= k < |r.edges| && r.edges[k] == (log[i].id, log[j].id);
    assert NamesEdge(log, r.edges[k]);
    var x: nat, y: nat :| EdgeAt(log, x, y, r.edges[k]);
    assert x == i && y == j;
    LogEdge(log, i, j);
  }

  /** A validated poset has no cycle: the clocks would have to increase around it. */
  lemma AcceptedIsAcyclic(log: seq<CausalEvent>)
    requires Consistent(log)
    ensures Acyclic(LogEdges(log))
  {
    hide Lt, Reach, LogEdges;
    forall v: nat ensures !Reach(LogEdges(log), v, v) {
      if Reach(LogEdges(log), v, v) {
        PathsIncreaseClocks(log, v, v);
        LtIrreflexive(log[v].vclock);
        assert false;
      }
    }
  }

  lemma LtIrreflexive(a: Clock)
    ensures !Lt(a, a)
  {}

  lemma EdgeSetOfListing(log: seq<CausalEvent>, edges: seq<(nat, nat)>)
    requires ListsEdges(log, edges)
    ensures EdgeSet(edges) == LogEdges(log) && Within(LogEdges(log), |log|)
    ensures forall i | 0 <= i < |edges| :: edges[i].0 < |log| && edges[i].1 < |log|
  {
    hide LogEdges, ListsEdges;
    forall i: nat, j: nat ensures (i, j) in EdgeSet(edges) <==> (i, j) in LogEdges(log) {
      ListedEdges(log, edges, i, j);
    }
    forall e | e in LogEdges(log) ensures e in EdgeSet(edges) && e.0 < |log| && e.1 < |log| {
      ListedEdges(log, edges, e.0, e.1);
    }
    forall e | e in EdgeSet(edges) ensures e in LogEdges(log) { ListedEdges(log, edges, e.0, e.1); }
    forall i | 0 <= i < |edges| ensures edges[i].0 < |log| && edges[i].1 < |log| {
      assert edges[i] in edges;
      ListedEdges(log, edges, edges[i].0, edges[i].1);
    }
  }

  /** `err` names the first listed edge that the recorded clocks contradict. */
  ghost predicate Refutes(log: seq<CausalEvent>, edges: seq<(nat, nat)>, err: ReplayError) {
    exists k: nat :: FirstContradicted(log, edges, k) && err == Inconsistent(log[edges[k].0].id, log[edges[k].1].id)
  }

  /** `replay_log` accepts exactly the consistent logs and never reports a cycle. */
  method ReplayLog(log: seq<CausalEvent>)
    returns (r: Result<Replayed>, ghost order: seq<nat>, ghost edges: seq<(nat, nat)>, ghost pairs: seq<(nat, nat)>)
    ensures r.Ok? <==> Accepted(log)
    ensures r.Ok? ==> IsReplay(log, order, edges, pairs, r.value) && Reads(log, r.value)
    ensures r.Err? ==> !r.error.Cycle?
    ensures r.Err? && !Buildable(log) ==> Complaint(log, r.error)
    ensures r.Err? && Buildable(log) ==> ListsEdges(log, edges) && Refutes(log, edges, r.error)
  {
    hide Buildable, Consistent, Acyclic, IsCanonical, LogEdges, ListsEdges, ListsSpacelike, Complaint, EdgeSet, Within,
        Reads, ConcurrentNamed;
    order, edges, pairs := [], [], [];
    var built := Build(log);
    if built.Err? {
      ComplaintKind(log, built.error);
      return Err(built.error), order, edges, pairs;
    }
    edges := built.value;
    EdgeSetOfListing(log, built.value);
    var valid := Validate(log, built.value);
    if valid.Err? {
      return Err(valid.error), order, edges, pairs;
    }
    AcceptedIsAcyclic(log);
    var sorted := Linearize(log, built.value);
    order := sorted.value;
    assert Positions(log, order) by { CanonicalPositions(log, LogEdges(log), order); }
    var concurrent := ConcurrentPairs(log, built.value);
    pairs :| NamesPairs(log, EdgeSet(built.value), pairs, concurrent);
    r := Ok(Replayed(Timeline(log, sorted.value),
        seq(|sorted.value|, k requires 0 <= k < |sorted.value| => log[sorted.value[k]].id),
                     Ids(log, built.value), concurrent));
    ReplayReads(log, order, edges, pairs, r.value);
  }

  lemma ComplaintKind(log: seq<CausalEvent>, err: ReplayError)
    requires Complaint(log, err)
    ensures !err.Cycle?
  {}

  lemma CanonicalPositions(log: seq<CausalEvent>, E: Edges, o: seq<nat>)
    requires IsCanonical(log, E, o)
    ensures Positions(log, o) && |o| == |log|
  {}
}
