/** The canonical linear extension of a poset (extension.rs). */
module Extensions {
  import opened Names
  import opened Events
  import opened Graphs
  import opened Posets

  // --------------------------------------------------------------- the key

  /** Heap order: `(lamport, actor, seq, index)`. */
  predicate KeyLess(log: seq<CausalEvent>, i: nat, j: nat)
    requires i < |log| && j < |log|
  {
    var d, e := log[i], log[j];
    d.lamport < e.lamport ||
    (d.lamport == e.lamport && (NameLess(d.actor, e.actor) ||
                                (d.actor == e.actor && (d.seqNo < e.seqNo || (d.seqNo == e.seqNo && i < j)))))
  }

  lemma KeyTotal(log: seq<CausalEvent>, i: nat, j: nat)
    requires i < |log| && j < |log|
    ensures i == j || KeyLess(log, i, j) || KeyLess(log, j, i)
  {
    NameLessTotal(log[i].actor, log[j].actor);
  }

  lemma KeyTransitive(log: seq<CausalEvent>, i: nat, j: nat, k: nat)
    requires i < |log| && j < |log| && k < |log| && KeyLess(log, i, j) && KeyLess(log, j, k)
    ensures KeyLess(log, i, k)
  {
    if NameLess(log[i].actor, log[j].actor) && NameLess(log[j].actor, log[k].actor) {
      NameLessTransitive(log[i].actor, log[j].actor, log[k].actor);
    }
  }

  lemma KeyAsymmetric(log: seq<CausalEvent>, i: nat, j: nat)
    requires i < |log| && j < |log| && KeyLess(log, i, j)
    ensures !KeyLess(log, j, i)
  {
    NameLessIrreflexive(log[i].actor);
    if NameLess(log[i].actor, log[j].actor) && NameLess(log[j].actor, log[i].actor) {
      NameLessTransitive(log[i].actor, log[j].actor, log[i].actor);
    }
  }

  ghost predicate IsLeastKey(log: seq<CausalEvent>, i: nat, s: set<nat>)
    requires forall x | x in s :: x < |log|
  {
    i in s && forall x | x in s :: x == i || KeyLess(log, i, x)
  }

  lemma {:induction false} LeastKeyExists(log: seq<CausalEvent>, s: set<nat>)
    requires s != {} && forall x | x in s :: x < |log|
    ensures exists i :: IsLeastKey(log, i, s)
    decreases |s|
  {
    var i :| i in s;
    var rest := s - {i};
    if rest == {} {
      assert s == {i};
      assert IsLeastKey(log, i, s);
    } else {
      LeastKeyExists(log, rest);
      var j :| IsLeastKey(log, j, rest);
      KeyTotal(log, i, j);
      if KeyLess(log, j, i) {
        assert IsLeastKey(log, j, s);
      } else {
        forall x | x in s ensures x == i || KeyLess(log, i, x) {
          if x != i && x != j { KeyTransitive(log, i, j, x); }
        }
        assert IsLeastKey(log, i, s);
      }
    }
  }

  // ------------------------------------------------------------ extensions

  ghost function Range(n: nat): (r: set<nat>)
    ensures |r| == n && forall x: nat :: x in r <==> x < n
  {
    if n == 0 then {} else Range(n - 1) + {n - 1}
  }

  ghost function SetOf(o: seq<nat>): set<nat> { set x | x in o }

  /** `o` lists `0..n`, each once, causes before effects. */
  ghost predicate IsExtension(E: Edges, n: nat, o: seq<nat>) {
    && |o| == n && Distinct(o) && (forall k | 0 <= k < n :: o[k] < n)
    && forall i, j | 0 <= i < n && 0 <= j < n && (o[i], o[j]) in E :: i < j
  }

  /** At the first difference, `o` has the smaller key. */
  ghost predicate Before(log: seq<CausalEvent>, o: seq<nat>, q: seq<nat>) {
    exists k: nat :: FirstSmaller(log, o, q, k)
  }

  ghost predicate FirstSmaller(log: seq<CausalEvent>, o: seq<nat>, q: seq<nat>, k: nat) {
    k < |o| && k < |q| && o[..k] == q[..k] && o[k] < |log| && q[k] < |log| && KeyLess(log, o[k], q[k])
  }

  /** The lexicographically least extension under the key. */
  ghost predicate IsCanonical(log: seq<CausalEvent>, E: Edges, o: seq<nat>) {
    && IsExtension(E, |log|, o)
    && forall q: seq<nat> | IsExtension(E, |log|, q) :: q == o || Before(log, o, q)
  }

  lemma BeforeAsymmetric(log: seq<CausalEvent>, o: seq<nat>, q: seq<nat>)
    requires Before(log, o, q)
    ensures !Before(log, q, o) && o != q
  {
    var k: nat :| FirstSmaller(log, o, q, k);
    KeyAsymmetric(log, o[k], q[k]);
    forall l: nat ensures !FirstSmaller(log, q, o, l) {
      if FirstSmaller(log, q, o, l) {
        if l < k { assert o[..k][l] == q[..k][l]; KeyAsymmetric(log, q[l], o[l]); }
      }
    }
  }

  lemma CanonicalUnique(log: seq<CausalEvent>, E: Edges, o: seq<nat>, q: seq<nat>)
    requires IsCanonical(log, E, o) && IsCanonical(log, E, q)
    ensures o == q
  {
    hide IsExtension, Before;
    if o != q {
      BeforeAsymmetric(log, o, q);
    }
  }

  // ------------------------------------------------------- Kahn's algorithm

  /** `j` is unscheduled and all its causes are in `D`. */
  ghost predicate Ready(E: Edges, n: nat, D: set<nat>, j: nat) {
    j < n && j !in D && forall a: nat | (a, j) in E :: a in D
  }

  ghost predicate GreedyAt(log: seq<CausalEvent>, E: Edges, o: seq<nat>, k: nat) {
    k < |o| && Ready(E, |log|, SetOf(o[..k]), o[k]) &&
    forall r: nat | Ready(E, |log|, SetOf(o[..k]), r) :: r == o[k] || KeyLess(log, o[k], r)
  }

  /** Each step takes the least ready event. */
  ghost predicate Greedy(log: seq<CausalEvent>, E: Edges, o: seq<nat>) {
    forall k: nat | k < |o| :: GreedyAt(log, E, o, k)
  }

  ghost predicate Stuck(E: Edges, n: nat, o: seq<nat>) { forall j: nat :: !Ready(E, n, SetOf(o), j) }

  lemma GreedyExtends(log: seq<CausalEvent>, E: Edges, o: seq<nat>, i: nat)
    requires Greedy(log, E, o) && Ready(E, |log|, SetOf(o), i)
    requires forall r: nat | Ready(E, |log|, SetOf(o), r) :: r == i || KeyLess(log, i, r)
    ensures Greedy(log, E, o + [i])
  {
    hide Ready;
    forall k: nat | k < |o + [i]| ensures GreedyAt(log, E, o + [i], k) {
      if k < |o| {
        assert GreedyAt(log, E, o, k);
        assert (o + [i])[..k] == o[..k];
      } else {
        assert (o + [i])[..k] == o;
      }
    }
  }

  /** Scheduled events are distinct, and causes come strictly earlier. */
  lemma GreedyOrder(log: seq<CausalEvent>, E: Edges, o: seq<nat>)
    requires Greedy(log, E, o)
    ensures Distinct(o) && forall k | 0 <= k < |o| :: o[k] < |log|
    ensures forall k, a: nat | 0 <= k < |o| && (a, o[k]) in E :: a in o[..k]
  {
    forall k, a: nat | 0 <= k < |o| && (a, o[k]) in E ensures a in o[..k] {
      assert GreedyAt(log, E, o, k);
    }
    forall k | 0 <= k < |o| ensures o[k] < |log| { assert GreedyAt(log, E, o, k); }
    forall i, j | 0 <= i < j < |o| ensures o[i] != o[j] {
      assert GreedyAt(log, E, o, j);
      assert o[..j][i] == o[i];
    }
  }

  /** A scheduled event is neither on a cycle nor downstream of one. */
  lemma {:induction false} CausesScheduledEarlier(log: seq<CausalEvent>, E: Edges, o: seq<nat>, a: nat, k: nat)
    requires Greedy(log, E, o) && k < |o| && Reach(E, a, o[k])
    ensures a in o[..k]
    decreases k
  {
    hide Reach, Greedy;
    GreedyOrder(log, E, o);
    var x := ReachLast(E, a, o[k]);
    assert x in o[..k];
    if x != a {
      var l: nat :| l < k && o[l] == x;
      CausesScheduledEarlier(log, E, o, a, l);
      assert o[..l] <= o[..k];
    }
  }

  lemma ScheduledIsNotTrapped(log: seq<CausalEvent>, E: Edges, o: seq<nat>, k: nat)
    requires Greedy(log, E, o) && k < |o|
    ensures !Trapped(E, o[k])
  {
    hide Reach, Greedy;
    GreedyOrder(log, E, o);
    forall c: nat ensures !(Reach(E, c, c) && (c == o[k] || Reach(E, c, o[k]))) {
      if Reach(E, c, c) && (c == o[k] || Reach(E, c, o[k])) {
        if c != o[k] { CausesScheduledEarlier(log, E, o, c, k); }
        var l: nat :| l < |o| && o[l] == c;
        CausesScheduledEarlier(log, E, o, c, l);
        assert false;
      }
    }
  }

  lemma UnscheduledIsTrapped(log: seq<CausalEvent>, E: Edges, o: seq<nat>, v: nat)
    requires Within(E, |log|) && Stuck(E, |log|, o) && v < |log| && v !in o
    ensures Trapped(E, v)
  {
    var U := Range(|log|) - SetOf(o);
    forall u | u in U ensures HasPredecessor(E, U, u) {
      assert !Ready(E, |log|, SetOf(o), u);
      var a: nat :| (a, u) in E && a !in SetOf(o);
      assert a in U;
    }
    NoSourceTraps(E, U, v, v, {v});
  }

  ghost function TrappedEvents(E: Edges, n: nat): set<nat> { set v | v in Range(n) && Trapped(E, v) }

  /** What a finished run of the algorithm has scheduled: everything that is not
      trapped behind a cycle. */
  lemma FinishedRun(log: seq<CausalEvent>, E: Edges, o: seq<nat>)
    requires Within(E, |log|) && Greedy(log, E, o) && Stuck(E, |log|, o)
    ensures |o| <= |log| && |log| - |o| == |TrappedEvents(E, |log|)|
    ensures |o| == |log| <==> Acyclic(E)
    ensures |o| == |log| ==> IsExtension(E, |log|, o)
  {
    hide Greedy, Stuck, Trapped, Reach;
    GreedyOrder(log, E, o);
    var all := Range(|log|);
    forall v: nat | v < |log| ensures v in o <==> !Trapped(E, v) {
      if v in o {
        var k: nat :| k < |o| && o[k] == v;
        ScheduledIsNotTrapped(log, E, o, k);
      } else {
        UnscheduledIsTrapped(log, E, o, v);
      }
    }
    assert all == SetOf(o) + TrappedEvents(E, |log|);
    assert SetOf(o) !! TrappedEvents(E, |log|);
    CountDistinct(o);
    AcyclicMeansNoneTrapped(E, |log|);
    if TrappedEvents(E, |log|) == {} {
      forall i, j | 0 <= i < |o| && 0 <= j < |o| && (o[i], o[j]) in E ensures i < j {
        var l :| 0 <= l < j && o[..j][l] == o[i];
      }
    }
  }

  lemma AcyclicMeansNoneTrapped(E: Edges, n: nat)
    requires Within(E, n)
    ensures Acyclic(E) <==> TrappedEvents(E, n) == {}
  {
    hide Reach;
    if !Acyclic(E) {
      var v: nat :| Reach(E, v, v);
      ReachWithin(E, n, v, v);
      assert Trapped(E, v);
      assert v in TrappedEvents(E, n);
    }
  }

  lemma {:induction false} CountDistinct(o: seq<nat>)
    requires Distinct(o)
    ensures |SetOf(o)| == |o|
  {
    if o != [] {
      var front, last := o[..|o| - 1], o[|o| - 1];
      CountDistinct(front);
      assert o == front + [last];
      assert SetOf(o) == SetOf(front) + {last};
      assert last !in front;
    }
  }

  lemma ExtensionCovers(E: Edges, n: nat, q: seq<nat>, a: nat)
    requires IsExtension(E, n, q) && a < n
    ensures a in q
  {
    CountDistinct(q);
    if a !in q {
      assert SetOf(q) <= Range(n) - {a};
      Subset(SetOf(q), Range(n) - {a});
      assert false;
    }
  }

  lemma {:induction false} Subset(s: set<nat>, t: set<nat>)
    requires s <= t
    ensures |s| <= |t|
    decreases |s|
  {
    if s != {} {
      var x :| x in s;
      Subset(s - {x}, t - {x});
    }
  }

  lemma {:induction false} FirstDifference(o: seq<nat>, q: seq<nat>) returns (k: nat)
    requires |o| == |q| && o != q
    ensures k < |o| && o[..k] == q[..k] && o[k] != q[k]
  {
    k := 0;
    while k < |o| && o[k] == q[k]
      invariant k <= |o| && o[..k] == q[..k]
    {
      k := k + 1;
    }
    assert o[..|o|] == o && q[..|q|] == q;
  }

  /** In any extension, the event at `k` is ready once those before it are done. */
  lemma NextIsReady(E: Edges, n: nat, q: seq<nat>, k: nat)
    requires Within(E, n) && IsExtension(E, n, q) && k < n
    ensures Ready(E, n, SetOf(q[..k]), q[k])
  {
    forall a: nat | (a, q[k]) in E ensures a in q[..k] {
      ExtensionCovers(E, n, q, a);
      var i :| 0 <= i < n && q[i] == a;
      assert q[..k][i] == a;
    }
  }

  /** The greedy choice yields the least extension. */
  lemma GreedyIsCanonical(log: seq<CausalEvent>, E: Edges, o: seq<nat>)
    requires Within(E, |log|) && Greedy(log, E, o) && IsExtension(E, |log|, o)
    ensures IsCanonical(log, E, o)
  {
    hide Ready, IsExtension;
    forall q: seq<nat> | IsExtension(E, |log|, q) && q != o ensures Before(log, o, q) {
      assert |o| == |q| == |log| by { ExtensionLength(E, |log|, o); ExtensionLength(E, |log|, q); }
      var k := FirstDifference(o, q);
      NextIsReady(E, |log|, q, k);
      assert GreedyAt(log, E, o, k);
      ExtensionBound(E, |log|, o, k);
      ExtensionBound(E, |log|, q, k);
      assert FirstSmaller(log, o, q, k);
    }
  }

  lemma ExtensionLength(E: Edges, n: nat, q: seq<nat>)
    requires IsExtension(E, n, q)
    ensures |q| == n
  {}

  lemma ExtensionBound(E: Edges, n: nat, q: seq<nat>, k: nat)
    requires IsExtension(E, n, q) && k < |q|
    ensures q[k] < n
  {}

  // ------------------------------------------------- the algorithm in place

  ghost function EdgeSet(edges: seq<(nat, nat)>): Edges { set e | e in edges }

  /** How many listed edges into `j` start outside `D`. */
  ghost function CountIn(edges: seq<(nat, nat)>, j: nat, D: set<nat>): nat {
    if edges == [] then 0
    else
      var e := edges[|edges| - 1];
      CountIn(edges[..|edges| - 1], j, D) + if e.1 == j && e.0 !in D then 1 else 0
  }

  /** Targets of the listed edges out of `a`, in list order, with repetitions. */
  ghost function Succs(edges: seq<(nat, nat)>, a: nat): seq<nat> {
    if edges == [] then []
    else
      var e := edges[|edges| - 1];
      Succs(edges[..|edges| - 1], a) + if e.0 == a then [e.1] else []
  }

  ghost function Occurs(s: seq<nat>, j: nat): nat { multiset(s)[j] }

  lemma {:induction false} CountZero(edges: seq<(nat, nat)>, j: nat, D: set<nat>)
    ensures CountIn(edges, j, D) == 0 <==> forall a: nat | (a, j) in edges :: a in D
  {
    if edges != [] {
      CountZero(edges[..|edges| - 1], j, D);
      assert edges == edges[..|edges| - 1] + [edges[|edges| - 1]];
    }
  }

  lemma {:induction false} CountSplit(edges: seq<(nat, nat)>, j: nat, D: set<nat>, i: nat)
    requires i !in D
    ensures CountIn(edges, j, D) == CountIn(edges, j, D + {i}) + Occurs(Succs(edges, i), j)
  {
    if edges != [] {
      CountSplit(edges[..|edges| - 1], j, D, i);
    }
  }

  lemma {:induction false} SuccsAreEdges(edges: seq<(nat, nat)>, a: nat, j: nat)
    ensures j in Succs(edges, a) <==> (a, j) in edges
  {
    if edges != [] {
      SuccsAreEdges(edges[..|edges| - 1], a, j);
      assert edges == edges[..|edges| - 1] + [edges[|edges| - 1]];
    }
  }

  /** Fill `indeg` and `succ` from the edge list. */
  method CountEdges(n: nat, edges: seq<(nat, nat)>) returns (indeg: array<nat>, succ: array<seq<nat>>)
    requires forall e | e in edges :: e.0 < n && e.1 < n
    ensures fresh(indeg) && fresh(succ) && indeg.Length == n == succ.Length
    ensures forall j | 0 <= j < n :: indeg[j] == CountIn(edges, j, {}) && succ[j] == Succs(edges, j)
  {
    indeg := new nat[n](_ => 0);
    succ := new seq<nat>[n](_ => []);
    for k := 0 to |edges|
      invariant fresh(indeg) && fresh(succ) && indeg.Length == n == succ.Length
      invariant forall j | 0 <= j < n :: indeg[j] == CountIn(edges[..k], j, {}) && succ[j] == Succs(edges[..k], j)
    {
      var (a, b) := edges[k];
      assert edges[k] in edges;
      assert edges[..k + 1][..k] == edges[..k];
      succ[a] := succ[a] + [b];
      indeg[b] := indeg[b] + 1;
    }
    assert edges[..|edges|] == edges;
  }

  /** Drop one incoming edge for every successor just listed, and queue the events
      whose last cause that was. `D` includes the event being retired. */
  method Release(n: nat, edges: seq<(nat, nat)>, ghost D: set<nat>, succs: seq<nat>, indeg: array<nat>, heap: set<nat>)
    returns (ready: set<nat>)
    requires indeg.Length == n
    requires forall k | 0 <= k < |succs| :: succs[k] < n && succs[k] !in D
    requires forall j: nat | j < n :: indeg[j] == CountIn(edges, j, D) + Occurs(succs, j)
    requires forall j: nat :: j in heap <==> j < n && j !in D && indeg[j] == 0
    modifies indeg
    ensures forall j: nat | j < n :: indeg[j] == CountIn(edges, j, D)
    ensures forall j: nat :: j in ready <==> j < n && j !in D && CountIn(edges, j, D) == 0
  {
    ready := heap;
    for k := 0 to |succs|
      invariant forall j: nat | j < n :: indeg[j] == CountIn(edges, j, D) + Occurs(succs[k..], j)
      invariant forall j: nat :: j in ready <==> j < n && j !in D && indeg[j] == 0
    {
      var j := succs[k];
      assert succs[k..] == [j] + succs[k + 1..];
      indeg[j] := indeg[j] - 1;
      if indeg[j] == 0 {
        ready := ready + {j};
      }
    }
    assert succs[|succs|..] == [];
  }

  lemma ReadyInRange(E: Edges, n: nat, D: set<nat>, heap: set<nat>)
    requires forall j: nat :: j in heap <==> Ready(E, n, D, j)
    ensures forall x | x in heap :: x < n
  {}

  /** The heap's minimum. */
  method PopLeast(log: seq<CausalEvent>, heap: set<nat>) returns (i: nat)
    requires heap != {} && forall x | x in heap :: x < |log|
    ensures IsLeastKey(log, i, heap)
  {
    LeastKeyExists(log, heap);
    assert exists i :: i in heap && forall x | x in heap :: x == i || KeyLess(log, i, x);
    i :| i in heap && forall x | x in heap :: x == i || KeyLess(log, i, x);
  }

  /** The in-degrees and the heap as of the events retired in `D`. */
  ghost predicate Counted(n: nat, edges: seq<(nat, nat)>, D: set<nat>, indeg: array<nat>, heap: set<nat>)
    reads indeg
  {
    && indeg.Length == n
    && (forall j: nat | j < n :: indeg[j] == CountIn(edges, j, D))
    && (forall j: nat :: j in heap <==> Ready(EdgeSet(edges), n, D, j))
  }

  lemma OneFewer(n: nat, D: set<nat>, i: nat)
    requires i < n && i !in D
    ensures |Range(n) - (D + {i})| < |Range(n) - D|
  {
    hide Range;
    assert Range(n) - D == (Range(n) - (D + {i})) + {i};
  }

  /** One round: retire the least ready event. */
  method Retire(log: seq<CausalEvent>, edges: seq<(nat, nat)>, ghost order: seq<nat>, heap: set<nat>,
                indeg: array<nat>, succ: array<seq<nat>>)
    returns (i: nat, ready: set<nat>)
    requires Within(EdgeSet(edges), |log|) && Greedy(log, EdgeSet(edges), order) && heap != {}
    requires Counted(|log|, edges, SetOf(order), indeg, heap) && succ.Length == |log|
    requires forall j | 0 <= j < |log| :: succ[j] == Succs(edges, j)
    modifies indeg
    ensures Greedy(log, EdgeSet(edges), order + [i])
    ensures Counted(|log|, edges, SetOf(order + [i]), indeg, ready)
    ensures |Range(|log|) - SetOf(order + [i])| < |Range(|log|) - SetOf(order)|
  {
    hide Greedy, CountIn, Succs, Occurs, KeyLess, IsLeastKey, SetOf, Ready, Range, Within, EdgeSet;
    ghost var E, n, D := EdgeSet(edges), |log|, SetOf(order);
    assert forall x | x in heap :: x < n by { ReadyInRange(E, n, D, heap); }
    i := PopLeast(log, heap);
    RetireKahn(log, edges, order, heap, i);
    ready := Release(|log|, edges, D + {i}, succ[i], indeg, heap - {i});
    forall j: nat ensures j in ready <==> Ready(E, n, D + {i}, j) { ReadyCounts(edges, n, D + {i}, j); }
    OneFewer(n, D, i);
  }

  /** `linearize`: drain ready events, smallest key first. */
  method Linearize(log: seq<CausalEvent>, edges: seq<(nat, nat)>) returns (r: Result<seq<nat>>)
    requires Within(EdgeSet(edges), |log|)
    ensures r.Ok? <==> Acyclic(EdgeSet(edges))
    ensures r.Ok? ==> IsCanonical(log, EdgeSet(edges), r.value)
    ensures r.Err? ==> r.error == Cycle(|TrappedEvents(EdgeSet(edges), |log|)|)
  {
    hide Greedy, Acyclic, IsCanonical, TrappedEvents, IsExtension, Stuck, Ready, SetOf, CountIn, Succs;
    ghost var E := EdgeSet(edges);
    var n := |log|;
    var indeg, succ := CountEdges(n, edges);
    var heap: set<nat> := set j | 0 <= j < n && indeg[j] == 0;
    var order: seq<nat> := [];
    StartKahn(log, edges, heap, order);
    while heap != {}
      invariant fresh(indeg) && fresh(succ) && succ.Length == n
      invariant Greedy(log, E, order) && Counted(n, edges, SetOf(order), indeg, heap)
      invariant forall j | 0 <= j < n :: succ[j] == Succs(edges, j)
      decreases |Range(n) - SetOf(order)|
    {
      var i, ready := Retire(log, edges, order, heap, indeg, succ);
      heap := ready;
      order := order + [i];
    }
    assert Stuck(E, n, order) by { NothingReady(E, n, order); }
    FinishedRun(log, E, order);
    if |order| != n {
      return Err(Cycle(n - |order|));
    }
    GreedyIsCanonical(log, E, order);
    r := Ok(order);
  }

  lemma NothingReady(E: Edges, n: nat, o: seq<nat>)
    requires forall j: nat :: !Ready(E, n, SetOf(o), j)
    ensures Stuck(E, n, o)
  {}

  lemma ReadyCounts(edges: seq<(nat, nat)>, n: nat, D: set<nat>, j: nat)
    ensures Ready(EdgeSet(edges), n, D, j) <==> j < n && j !in D && CountIn(edges, j, D) == 0
  {
    CountZero(edges, j, D);
  }

  lemma StartKahn(log: seq<CausalEvent>, edges: seq<(nat, nat)>, heap: set<nat>, o: seq<nat>)
    requires o == [] && forall j: nat :: j in heap <==> j < |log| && CountIn(edges, j, {}) == 0
    ensures Greedy(log, EdgeSet(edges), o) && SetOf(o) == {}
    ensures forall j: nat :: j in heap <==> Ready(EdgeSet(edges), |log|, SetOf(o), j)
  {
    forall j: nat ensures j in heap <==> Ready(EdgeSet(edges), |log|, SetOf(o), j) {
      ReadyCounts(edges, |log|, {}, j);
      assert SetOf(o) == {};
    }
  }

  /** Taking the least ready event keeps the run greedy, and its successors are all
      still unscheduled. */
  lemma RetireKahn(log: seq<CausalEvent>, edges: seq<(nat, nat)>, o: seq<nat>, heap: set<nat>, i: nat)
    requires Within(EdgeSet(edges), |log|) && Greedy(log, EdgeSet(edges), o)
    requires forall j: nat :: j in heap <==> Ready(EdgeSet(edges), |log|, SetOf(o), j)
    requires (forall x | x in heap :: x < |log|) && IsLeastKey(log, i, heap)
    ensures Greedy(log, EdgeSet(edges), o + [i])
    ensures i < |log| && i !in SetOf(o) && SetOf(o + [i]) == SetOf(o) + {i}
    ensures forall k | 0 <= k < |Succs(edges, i)| :: Succs(edges, i)[k] < |log| && Succs(edges, i)[k] !in SetOf(o) + {i}
    ensures forall j: nat | j < |log| ::
      CountIn(edges, j, SetOf(o)) == CountIn(edges, j, SetOf(o) + {i}) + Occurs(Succs(edges, i), j)
    ensures forall j: nat ::
      j in heap - {i} <==> j < |log| && j !in SetOf(o) + {i} && CountIn(edges, j, SetOf(o)) == 0
  {
    hide Greedy;
    var E, D := EdgeSet(edges), SetOf(o);
    assert Ready(E, |log|, D, i);
    GreedyExtends(log, E, o, i);
    GreedyOrder(log, E, o);
    forall k | 0 <= k < |Succs(edges, i)| ensures Succs(edges, i)[k] < |log| && Succs(edges, i)[k] !in D + {i} {
      var s := Succs(edges, i)[k];
      SuccsAreEdges(edges, i, s);
      assert (i, s) in E;
    }
    forall j: nat | j < |log| ensures CountIn(edges, j, D) == CountIn(edges, j, D + {i}) + Occurs(Succs(edges, i), j) {
      CountSplit(edges, j, D, i);
    }
    forall j: nat ensures j in heap - {i} <==> j < |log| && j !in D + {i} && CountIn(edges, j, D) == 0 {
      ReadyCounts(edges, |log|, D, j);
    }
  }
}
