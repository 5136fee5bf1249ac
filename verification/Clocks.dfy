/** Vector clocks and Lamport stamps (lichtung-clock).

    A clock value is a finite map with absent components read as zero. The class
    `VectorClock` carries the in-place operations; each is proved against a
    function or relation on clock values, whose order theory follows. */
module Clocks {
  import opened Names

  type Clock = map<Name, nat>

  datatype Ordering = Less | Equal | Greater

  // ------------------------------------------------------------ clock values

  function Get(c: Clock, k: Name): nat { if k in c then c[k] else 0 }

  function Increment(c: Clock, k: Name): Clock { c[k := Get(c, k) + 1] }

  function Max(a: nat, b: nat): nat { if a < b then b else a }

  function Merge(c: Clock, d: Clock): Clock {
    map k | k in c.Keys + d.Keys && (k in d ==> Max(Get(c, k), d[k]) != 0) :: Max(Get(c, k), Get(d, k))
  }

  /** Product order and the equality that does not see zero components. */
  ghost predicate Leq(a: Clock, b: Clock) { forall k | k in a :: a[k] <= Get(b, k) }

  ghost predicate Same(a: Clock, b: Clock) { Leq(a, b) && Leq(b, a) }

  ghost predicate Lt(a: Clock, b: Clock) { Leq(a, b) && !Leq(b, a) }

  ghost predicate Incomparable(a: Clock, b: Clock) { !Leq(a, b) && !Leq(b, a) }

  ghost function Compare(a: Clock, b: Clock): Option<Ordering> {
    if Same(a, b) then Some(Equal)
    else if Leq(a, b) then Some(Less)
    else if Leq(b, a) then Some(Greater)
    else None
  }

  /** No stored zero: the representation every operation maintains. */
  ghost predicate Canonical(c: Clock) { forall k | k in c :: c[k] != 0 }

  // ------------------------------------------------------------ order theory

  lemma SamePointwise(a: Clock, b: Clock)
    ensures Same(a, b) <==> forall k :: Get(a, k) == Get(b, k)
  {
    if Same(a, b) {
      forall k ensures Get(a, k) == Get(b, k) {}
    }
    if forall k :: Get(a, k) == Get(b, k) {
      forall k | k in a ensures a[k] <= Get(b, k) { assert Get(a, k) == Get(b, k); }
      forall k | k in b ensures b[k] <= Get(a, k) { assert Get(a, k) == Get(b, k); }
    }
  }

  lemma LeqTransitive(a: Clock, b: Clock, c: Clock)
    requires Leq(a, b) && Leq(b, c)
    ensures Leq(a, c)
  {
    forall k | k in a ensures a[k] <= Get(c, k) {
      assert a[k] <= Get(b, k) <= Get(c, k);
    }
  }

  /** The strict order is a strict partial order, so it can never close a loop. */
  lemma LtTransitive(a: Clock, b: Clock, c: Clock)
    requires Lt(a, b) && Lt(b, c)
    ensures Lt(a, c)
  {
    LeqTransitive(a, b, c);
    if Leq(c, a) { LeqTransitive(c, a, b); }
  }

  function Count(b: bool): nat { if b then 1 else 0 }

  /** Exactly one of `<`, `>`, equal, concurrent, and it is the one `Compare` names. */
  lemma ExactlyOneRelation(a: Clock, b: Clock)
    ensures Count(Lt(a, b)) + Count(Lt(b, a)) + Count(Same(a, b)) + Count(Incomparable(a, b)) == 1
    ensures Lt(a, b) <==> Compare(a, b) == Some(Less)
    ensures Lt(b, a) <==> Compare(a, b) == Some(Greater)
    ensures Same(a, b) <==> Compare(a, b) == Some(Equal)
    ensures Incomparable(a, b) <==> Compare(a, b) == None
  {}

  /** `Merge` is the least upper bound of the product order. */
  lemma MergeIsLeastUpperBound(a: Clock, b: Clock, c: Clock)
    ensures Leq(a, Merge(a, b)) && Leq(b, Merge(a, b))
    ensures Leq(Merge(a, b), c) <==> Leq(a, c) && Leq(b, c)
  {
    var m := Merge(a, b);
    forall k ensures Get(m, k) == Max(Get(a, k), Get(b, k)) { MergeGet(a, b, k); }
    forall k | k in a ensures a[k] <= Get(m, k) { assert Get(m, k) == Max(Get(a, k), Get(b, k)); }
    forall k | k in b ensures b[k] <= Get(m, k) { assert Get(m, k) == Max(Get(a, k), Get(b, k)); }
    if Leq(m, c) {
      LeqTransitive(a, m, c);
      LeqTransitive(b, m, c);
    }
    if Leq(a, c) && Leq(b, c) {
      forall k | k in m ensures m[k] <= Get(c, k) {
        assert Get(a, k) <= Get(c, k) && Get(b, k) <= Get(c, k);
      }
    }
  }

  lemma MergeGet(a: Clock, b: Clock, k: Name)
    ensures Get(Merge(a, b), k) == Max(Get(a, k), Get(b, k))
  {}

  /** Operations never store a zero that was not there. */
  lemma CanonicalKept(a: Clock, b: Clock, k: Name)
    requires Canonical(a)
    ensures Canonical(Increment(a, k))
    ensures Canonical(Merge(a, b))
  {}

  /** On canonical clocks zero-blind equality is plain map equality. */
  lemma CanonicalSameIsEqual(a: Clock, b: Clock)
    requires Canonical(a) && Canonical(b) && Same(a, b)
    ensures a == b
  {
    forall k | k in a ensures k in b && a[k] == b[k] { assert a[k] <= Get(b, k); }
    forall k | k in b ensures k in a && a[k] == b[k] { assert b[k] <= Get(a, k); }
    assert a.Keys == b.Keys;
  }

  // ------------------------------------------------------- in-place clocks

  class Lamport {
    var value: nat

    constructor ()
      ensures value == 0
    {
      value := 0;
    }

    method Tick() returns (r: nat)
      modifies this
      ensures value == old(value) + 1 && r == value
    {
      value := value + 1;
      r := value;
    }

    method Update(other: nat) returns (r: nat)
      modifies this
      ensures value == Max(old(value), other) + 1 && r == value
    {
      value := (if value < other then other else value) + 1;
      r := value;
    }
  }

  class VectorClock {
    var entries: Clock

    constructor ()
      ensures entries == map[]
    {
      entries := map[];
    }

    function Read(actor: Name): (r: nat)
      reads this
      ensures r == Get(entries, actor)
    {
      if actor in entries then entries[actor] else 0
    }

    method Set(actor: Name, value: nat)
      modifies this
      ensures forall k :: Get(entries, k) == if k == actor then value else Get(old(entries), k)
      ensures Canonical(old(entries)) ==> Canonical(entries)
    {
      if value == 0 {
        entries := entries - {actor};
      } else {
        entries := entries[actor := value];
      }
    }

    method Bump(actor: Name)
      modifies this
      ensures entries == Increment(old(entries), actor)
    {
      if actor !in entries { entries := entries[actor := 0]; }
      entries := entries[actor := entries[actor] + 1];
    }

    /** One pass over the other clock's components, updating this clock as it goes. */
    method MergeFrom(other: VectorClock)
      requires other != this
      modifies this
      ensures entries == Merge(old(entries), other.entries)
    {
      ghost var was := entries;
      ghost var done: set<Name> := {};
      var ks := SortedKeys(other.entries.Keys);
      DistinctWhenSorted(ks);
      for i := 0 to |ks|
        invariant other.entries == old(other.entries)
        invariant done <= other.entries.Keys
        invariant forall j :: 0 <= j < |ks| ==> (ks[j] in done <==> j < i)
        invariant entries == MergeOver(was, other.entries, done)
      {
        var actor := ks[i];
        assert actor in ks;
        var merged := Max(Read(actor), other.entries[actor]);
        MergeOverStep(was, other.entries, done, actor);
        if merged == 0 {
          entries := entries - {actor};
        } else {
          entries := entries[actor := merged];
        }
        done := done + {actor};
      }
      assert done == other.entries.Keys by {
        forall k | k in other.entries ensures k in done { assert k in ks; }
      }
      assert MergeOver(was, other.entries, other.entries.Keys) == Merge(was, other.entries);
    }

    /** The comparison loop, with its early exit on the first sign of concurrency. */
    method PartialCmp(other: VectorClock) returns (r: Option<Ordering>)
      ensures r == Compare(entries, other.entries)
    {
      var mine := SortedKeys(entries.Keys);
      var theirs := SortedKeys(other.entries.Keys);
      var ks := mine + theirs;
      var sawLess, sawGreater := false, false;
      for i := 0 to |ks|
        invariant sawLess <==> exists j :: 0 <= j < i && Get(entries, ks[j]) < Get(other.entries, ks[j])
        invariant sawGreater <==> exists j :: 0 <= j < i && Get(entries, ks[j]) > Get(other.entries, ks[j])
        invariant !(sawLess && sawGreater)
      {
        var a, b := Read(ks[i]), other.Read(ks[i]);
        if a < b {
          sawLess := true;
        } else if a > b {
          sawGreater := true;
        }
        if sawLess && sawGreater {
          return None;
        }
      }
      forall k | k in entries ensures exists j :: 0 <= j < |ks| && ks[j] == k {
        assert k in mine;
        var j :| 0 <= j < |mine| && mine[j] == k;
        assert ks[j] == k;
      }
      forall k | k in other.entries ensures exists j :: 0 <= j < |ks| && ks[j] == k {
        assert k in theirs;
        var j :| 0 <= j < |theirs| && theirs[j] == k;
        assert ks[|mine| + j] == k;
      }
      r := if sawLess then Some(Less) else if sawGreater then Some(Greater) else Some(Equal);
    }

    method HappensBefore(other: VectorClock) returns (r: bool)
      ensures r <==> Lt(entries, other.entries)
    {
      var c := PartialCmp(other);
      r := c == Some(Less);
    }

    method Concurrent(other: VectorClock) returns (r: bool)
      ensures r <==> Incomparable(entries, other.entries)
    {
      var c := PartialCmp(other);
      r := c == None;
    }
  }

  /** `c` merged with the components of `d` named in `ks` only. */
  ghost function MergeOver(c: Clock, d: Clock, ks: set<Name>): Clock
    requires ks <= d.Keys
  {
    map k | k in c.Keys + ks && (k in ks ==> Max(Get(c, k), d[k]) != 0) ::
      if k in ks then Max(Get(c, k), d[k]) else Get(c, k)
  }

  lemma MergeOverStep(c: Clock, d: Clock, ks: set<Name>, k: Name)
    requires ks <= d.Keys && k in d && k !in ks
    ensures var m, before := Max(Get(c, k), d[k]), MergeOver(c, d, ks);
      Get(before, k) == Get(c, k) &&
      MergeOver(c, d, ks + {k}) == if m == 0 then before - {k} else before[k := m]
  {
    var m, before := Max(Get(c, k), d[k]), MergeOver(c, d, ks);
    var expected := if m == 0 then before - {k} else before[k := m];
    assert MergeOver(c, d, ks + {k}).Keys == expected.Keys;
  }

  lemma DistinctWhenSorted(ks: seq<Name>)
    requires StrictlySorted(ks)
    ensures forall i, j :: 0 <= i < |ks| && 0 <= j < |ks| && i != j ==> ks[i] != ks[j]
  {
    forall i, j | 0 <= i < j < |ks| ensures ks[i] != ks[j] { NameLessIrreflexive(ks[i]); }
  }

  // ------------------------------------------------------------- wire form

  /** Rebuild a clock from a wire map by repeated `Set`. */
  method FromWire(wire: Clock) returns (c: VectorClock)
    ensures fresh(c)
    ensures c.entries == VclockFrom(wire)
  {
    c := new VectorClock();
    var ks := SortedKeys(wire.Keys);
    DistinctWhenSorted(ks);
    ghost var done: set<Name> := {};
    for i := 0 to |ks|
      invariant fresh(c) && Canonical(c.entries)
      invariant forall j :: 0 <= j < |ks| ==> (ks[j] in done <==> j < i)
      invariant forall k :: Get(c.entries, k) == if k in done then Get(wire, k) else 0
    {
      assert ks[i] in ks;
      c.Set(ks[i], wire[ks[i]]);
      done := done + {ks[i]};
    }
    forall k ensures Get(c.entries, k) == Get(wire, k) {
      if k in wire { assert k in ks; }
    }
    SamePointwise(c.entries, VclockFrom(wire));
    CanonicalSameIsEqual(c.entries, VclockFrom(wire));
  }

  function VclockFrom(wire: Clock): Clock { map k | k in wire && wire[k] != 0 :: wire[k] }

  /** Reading a clock back from its wire form never changes what it means, and
      gives the identical clock exactly when no zero was stored. */
  lemma WireRoundTrip(c: Clock)
    ensures Same(VclockFrom(c), c) && Canonical(VclockFrom(c))
    ensures VclockFrom(c) == c <==> Canonical(c)
  {
    if Canonical(c) { assert VclockFrom(c) == c; }
  }

  /** So comparing wire maps gives what comparing the clocks read from them gives. */
  lemma WireAgrees(a: Clock, b: Clock)
    ensures Leq(VclockFrom(a), VclockFrom(b)) <==> Leq(a, b)
    ensures Compare(VclockFrom(a), VclockFrom(b)) == Compare(a, b)
  {
    WireRoundTrip(a);
    WireRoundTrip(b);
    LeqAcross(a, b, VclockFrom(a), VclockFrom(b));
    LeqAcross(b, a, VclockFrom(b), VclockFrom(a));
  }

  lemma LeqAcross(a: Clock, b: Clock, a2: Clock, b2: Clock)
    requires Same(a2, a) && Same(b2, b)
    ensures Leq(a2, b2) <==> Leq(a, b)
  {
    if Leq(a, b) {
      LeqTransitive(a2, a, b);
      LeqTransitive(a2, b, b2);
    }
    if Leq(a2, b2) {
      LeqTransitive(a, a2, b2);
      LeqTransitive(a, b2, b);
    }
  }
}
