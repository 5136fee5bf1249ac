/** Finite directed graphs on `0..n`, given by their edge sets. */
module Graphs {

  type Edges = set<(nat, nat)>

  ghost predicate IsWalk(E: Edges, p: seq<nat>, a: nat, b: nat) {
    && |p| >= 2 && p[0] == a && p[|p| - 1] == b
    && forall i | 0 <= i < |p| - 1 :: (p[i], p[i + 1]) in E
  }

  /** A path of length at least one. */
  ghost predicate Reach(E: Edges, a: nat, b: nat) {
    exists p: seq<nat> :: IsWalk(E, p, a, b)
  }

  ghost predicate Acyclic(E: Edges) { forall v: nat :: !Reach(E, v, v) }

  ghost predicate Within(E: Edges, n: nat) { forall e | e in E :: e.0 < n && e.1 < n }

  /** `v` lies on a cycle or downstream of one. */
  ghost predicate Trapped(E: Edges, v: nat) {
    exists c: nat :: Reach(E, c, c) && (c == v || Reach(E, c, v))
  }

  lemma EdgeReaches(E: Edges, a: nat, b: nat)
    requires (a, b) in E
    ensures Reach(E, a, b)
  {
    assert IsWalk(E, [a, b], a, b);
  }

  lemma ReachTransitive(E: Edges, a: nat, b: nat, c: nat)
    requires Reach(E, a, b) && Reach(E, b, c)
    ensures Reach(E, a, c)
  {
    var p: seq<nat> :| IsWalk(E, p, a, b);
    var q: seq<nat> :| IsWalk(E, q, b, c);
    var r := p + q[1..];
    forall i | 0 <= i < |r| - 1 ensures (r[i], r[i + 1]) in E {
      if i < |p| - 1 {
        assert (p[i], p[i + 1]) in E;
      } else {
        assert (q[i - |p| + 1], q[i - |p| + 2]) in E;
      }
    }
    assert IsWalk(E, r, a, c);
  }

  /** The last edge of a path. */
  lemma ReachLast(E: Edges, a: nat, b: nat) returns (x: nat)
    requires Reach(E, a, b)
    ensures (x, b) in E && (x == a || Reach(E, a, x))
  {
    var p: seq<nat> :| IsWalk(E, p, a, b);
    x := p[|p| - 2];
    assert (p[|p| - 2], p[|p| - 1]) in E;
    if |p| > 2 { assert IsWalk(E, p[..|p| - 1], a, x); }
  }

  /** The first edge of a path. */
  lemma ReachFirst(E: Edges, a: nat, b: nat) returns (x: nat)
    requires Reach(E, a, b)
    ensures (a, x) in E && (x == b || Reach(E, x, b))
  {
    var p: seq<nat> :| IsWalk(E, p, a, b);
    x := p[1];
    if |p| > 2 { assert IsWalk(E, p[1..], x, b); }
  }

  lemma ReachWithin(E: Edges, n: nat, a: nat, b: nat)
    requires Within(E, n) && Reach(E, a, b)
    ensures a < n && b < n
  {
    var x := ReachLast(E, a, b);
    var y := ReachFirst(E, a, b);
  }

  ghost predicate HasPredecessor(E: Edges, U: set<nat>, u: nat) { exists x | x in U :: (x, u) in E }

  ghost predicate NoSource(E: Edges, U: set<nat>) {
    forall u {:trigger HasPredecessor(E, U, u)} | u in U :: HasPredecessor(E, U, u)
  }

  /** A finite set in which everything has a predecessor hangs off a cycle. The
      walk goes backwards from `v`; `seen` is where it has been, `h` where it is. */
  lemma {:induction false} NoSourceTraps(E: Edges, U: set<nat>, v: nat, h: nat, seen: set<nat>)
    requires NoSource(E, U)
    requires h in seen && v in seen && seen <= U
    requires forall s | s in seen :: s == h || Reach(E, h, s)
    ensures Trapped(E, v)
    decreases |U - seen|
  {
    hide Reach;
    assert HasPredecessor(E, U, h);
    var x :| x in U && (x, h) in E;
    EdgeReaches(E, x, h);
    if x in seen {
      if x != h { ReachTransitive(E, h, x, h); }
      assert Reach(E, h, h) && (h == v || Reach(E, h, v));
    } else {
      forall s | s in seen ensures Reach(E, x, s) {
        if s != h { ReachTransitive(E, x, h, s); }
      }
      assert U - seen == (U - (seen + {x})) + {x};
      NoSourceTraps(E, U, v, x, seen + {x});
    }
  }

  /** Along every path a strictly ordered labelling strictly increases. */
  lemma {:induction false} IncreasingAlongPaths(E: Edges, less: (nat, nat) -> bool, p: seq<nat>, a: nat, b: nat)
    requires IsWalk(E, p, a, b)
    requires forall e | e in E :: less(e.0, e.1)
    requires forall x, y, z :: less(x, y) && less(y, z) ==> less(x, z)
    ensures less(a, b)
  {
    assert (p[0], p[1]) in E;
    if |p| > 2 {
      IncreasingAlongPaths(E, less, p[1..], p[1], b);
    }
  }

  lemma OrderedMeansAcyclic(E: Edges, less: (nat, nat) -> bool)
    requires forall e | e in E :: less(e.0, e.1)
    requires forall x, y, z :: less(x, y) && less(y, z) ==> less(x, z)
    requires forall x :: !less(x, x)
    ensures Acyclic(E)
  {
    forall v: nat ensures !Reach(E, v, v) {
      if Reach(E, v, v) {
        var p: seq<nat> :| IsWalk(E, p, v, v);
        IncreasingAlongPaths(E, less, p, v, v);
      }
    }
  }
}
