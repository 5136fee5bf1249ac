/** The happens-before poset of a log: its direct edges (poset.rs). */
module Posets {
  import opened Names
  import opened Clocks
  import opened Events
  import opened Graphs

  /** `j` is the next event of the same actor after `i`, by sequence number. */
  ghost predicate ProgramEdge(log: seq<CausalEvent>, i: nat, j: nat) {
    && i < |log| && j < |log| && log[i].actor == log[j].actor && log[i].seqNo < log[j].seqNo
    && forall k | 0 <= k < |log| && log[k].actor == log[i].actor ::
         log[k].seqNo <= log[i].seqNo || log[j].seqNo <= log[k].seqNo
  }

  /** The message key a receive looks for; a missing id reads as the empty string. */
  function RecvKey(e: CausalEvent): string { match e.msgId case None => "" case Some(m) => m }

  ghost predicate Emits(e: CausalEvent, m: string) { e.op == Emit && e.msgId == Some(m) }

  ghost predicate MessageEdge(log: seq<CausalEvent>, i: nat, j: nat) {
    i < |log| && j < |log| && log[j].op == Recv && Emits(log[i], RecvKey(log[j]))
  }

  /** A receive is joined to the emit whose message id it carries; one without a message
      id, to an emit whose id is the empty string. */
  lemma MessageEdgeMeans(log: seq<CausalEvent>, i: nat, j: nat)
    requires i < |log| && j < |log|
    ensures MessageEdge(log, i, j) <==>
            log[i].op == Emit && log[j].op == Recv && log[i].msgId.Some?
            && if log[j].msgId.None? then log[i].msgId == Some("") else log[i].msgId == log[j].msgId
  {}

  ghost function ProgramEdges(log: seq<CausalEvent>): Edges {
    set i: nat, j: nat | i < |log| && j < |log| && ProgramEdge(log, i, j) :: (i, j)
  }

  ghost function MessageEdges(log: seq<CausalEvent>): Edges {
    set i: nat, j: nat | i < |log| && j < |log| && MessageEdge(log, i, j) :: (i, j)
  }

  ghost function LogEdges(log: seq<CausalEvent>): Edges { ProgramEdges(log) + MessageEdges(log) }

  lemma LogEdge(log: seq<CausalEvent>, i: nat, j: nat)
    ensures (i, j) in LogEdges(log) <==> ProgramEdge(log, i, j) || MessageEdge(log, i, j)
  {}

  // ------------------------------------------------- what `build` demands

  ghost predicate UniqueSeqs(log: seq<CausalEvent>) {
    forall i, j | 0 <= i < j < |log| && log[i].actor == log[j].actor :: log[i].seqNo != log[j].seqNo
  }

  ghost predicate UniqueEmits(log: seq<CausalEvent>) {
    forall i, j | 0 <= i < j < |log| && log[i].op == Emit && log[j].op == Emit && log[i].msgId.Some? ::
      log[i].msgId != log[j].msgId
  }

  ghost predicate Emitted(log: seq<CausalEvent>, m: string) { exists i | 0 <= i < |log| :: Emits(log[i], m) }

  ghost predicate RecvsPaired(log: seq<CausalEvent>) {
    forall j | 0 <= j < |log| && log[j].op == Recv :: Emitted(log, RecvKey(log[j]))
  }

  ghost predicate Buildable(log: seq<CausalEvent>) {
    UniqueSeqs(log) && UniqueEmits(log) && RecvsPaired(log)
  }

  /** Every edge is reflected in the recorded clocks. */
  ghost predicate Consistent(log: seq<CausalEvent>) {
    forall i: nat, j: nat | i < |log| && j < |log| && (i, j) in LogEdges(log) :: Lt(log[i].vclock, log[j].vclock)
  }

  /** The logs the offline engine accepts. */
  ghost predicate Accepted(log: seq<CausalEvent>) { Buildable(log) && Consistent(log) }

  /** On a log whose edges respect the clocks, paths do too. */
  lemma PathsIncreaseClocks(log: seq<CausalEvent>, i: nat, j: nat)
    requires Consistent(log) && Reach(LogEdges(log), i, j)
    ensures i < |log| && j < |log| && Lt(log[i].vclock, log[j].vclock)
  {
    hide Lt;
    var E := LogEdges(log);
    var less := (x: nat, y: nat) => x < |log| && y < |log| && Lt(log[x].vclock, log[y].vclock);
    forall x: nat, y: nat, z: nat | less(x, y) && less(y, z) ensures less(x, z) {
      LtTransitive(log[x].vclock, log[y].vclock, log[z].vclock);
    }
    forall e | e in E ensures less(e.0, e.1) { LogEdge(log, e.0, e.1); }
    var p: seq<nat> :| IsWalk(E, p, i, j);
    IncreasingAlongPaths(E, less, p, i, j);
  }

  // ----------------------------------------------------------------- results

  datatype ReplayError =
    | MissingEmit(event: string, mid: string)
    | DuplicateEmit(mid: string)
    | DuplicateSeq(actor: Name, seqNo: nat)
    | Inconsistent(before: string, after: string)
    | Cycle(left: nat)

  datatype Result<+T> = Ok(value: T) | Err(error: ReplayError)

  ghost predicate DupSeq(log: seq<CausalEvent>, a: Name, n: nat) {
    exists i, j | 0 <= i < j < |log| :: log[i].actor == a == log[j].actor && log[i].seqNo == n == log[j].seqNo
  }

  ghost predicate DupEmitAt(log: seq<CausalEvent>, j: nat) {
    j < |log| && log[j].op == Emit && log[j].msgId.Some? && exists i | 0 <= i < j :: Emits(log[i], log[j].msgId.value)
  }

  ghost predicate MissingAt(log: seq<CausalEvent>, j: nat) {
    j < |log| && log[j].op == Recv && !Emitted(log, RecvKey(log[j]))
  }

  /** Which complaint `build` raises: the least duplicate coordinate, else the first
      repeated emit, else the first unpaired receive. */
  ghost predicate Complaint(log: seq<CausalEvent>, err: ReplayError) {
    match err
    case DuplicateSeq(a, n) =>
      DupSeq(log, a, n) && forall b, m | DupSeq(log, b, m) :: NameLess(a, b) || (a == b && n <= m)
    case DuplicateEmit(m) =>
      UniqueSeqs(log) &&
      exists j: nat :: DupEmitAt(log, j) && log[j].msgId == Some(m) && forall k: nat | k < j :: !DupEmitAt(log, k)
    case MissingEmit(id, m) =>
      UniqueSeqs(log) && UniqueEmits(log) &&
      exists j: nat ::
        MissingAt(log, j) && log[j].id == id && RecvKey(log[j]) == m && forall k: nat | k < j :: !MissingAt(log, k)
    case _ => false
  }

  /** The edge list names every edge of both kinds, an edge of both kinds twice. */
  ghost predicate ListsEdges(log: seq<CausalEvent>, edges: seq<(nat, nat)>) {
    multiset(edges) == multiset(ProgramEdges(log)) + multiset(MessageEdges(log))
  }

  lemma ListedEdges(log: seq<CausalEvent>, edges: seq<(nat, nat)>, i: nat, j: nat)
    requires ListsEdges(log, edges)
    ensures (i, j) in edges <==> (i, j) in LogEdges(log)
    ensures (i, j) in edges ==> i < |log| && j < |log|
  {
    assert (i, j) in edges <==> (i, j) in multiset(edges);
  }

  /** Line order: by actor name, then by sequence number. */
  predicate LineLess(log: seq<CausalEvent>, x: nat, y: nat)
    requires x < |log| && y < |log|
  {
    NameLess(log[x].actor, log[y].actor) || (log[x].actor == log[y].actor && log[x].seqNo < log[y].seqNo)
  }

  /** Program-order edges line by line. */
  ghost predicate LineByLine(log: seq<CausalEvent>, edges: seq<(nat, nat)>) {
    && (forall k | 0 <= k < |edges| :: edges[k].0 < |log|)
    && forall k, l | 0 <= k < l < |edges| :: LineLess(log, edges[k].0, edges[l].0)
  }

  /** Message edges in the order their receives are logged. */
  ghost predicate ByReceive(edges: seq<(nat, nat)>) {
    forall k, l | 0 <= k < l < |edges| :: edges[k].1 < edges[l].1
  }

  /** The order of the edge list: program order line by line, then messages by receive. */
  ghost predicate ListsInOrder(log: seq<CausalEvent>, edges: seq<(nat, nat)>) {
    exists program: seq<(nat, nat)>, messages: seq<(nat, nat)> :: TwoParts(log, edges, program, messages)
  }

  ghost predicate TwoParts(log: seq<CausalEvent>, edges: seq<(nat, nat)>, program: seq<(nat, nat)>,
                           messages: seq<(nat, nat)>) {
    && edges == program + messages
    && multiset(program) == multiset(ProgramEdges(log)) && LineByLine(log, program)
    && multiset(messages) == multiset(MessageEdges(log)) && ByReceive(messages)
  }

  // --------------------------------------------------------- sorting by seq

  /** A list of positions in the log. */
  ghost predicate Positions(log: seq<CausalEvent>, s: seq<nat>) { forall k | 0 <= k < |s| :: s[k] < |log| }

  ghost predicate SortedBySeq(log: seq<CausalEvent>, s: seq<nat>)
    requires Positions(log, s)
  {
    forall i, j | 0 <= i < j < |s| :: log[s[i]].seqNo <= log[s[j]].seqNo
  }

  ghost predicate StrictlyBySeq(log: seq<CausalEvent>, s: seq<nat>)
    requires Positions(log, s)
  {
    forall i, j | 0 <= i < j < |s| :: log[s[i]].seqNo < log[s[j]].seqNo
  }

  /** Where a stable insertion puts `x`: after every element with the same key. */
  function Slot(log: seq<CausalEvent>, x: nat, s: seq<nat>): (c: nat)
    requires x < |log| && Positions(log, s)
    ensures c <= |s| && (c > 0 ==> log[s[c - 1]].seqNo <= log[x].seqNo)
    ensures forall i | c <= i < |s| :: log[x].seqNo < log[s[i]].seqNo
  {
    if s == [] || log[s[|s| - 1]].seqNo <= log[x].seqNo then |s| else Slot(log, x, s[..|s| - 1])
  }

  function Insert(log: seq<CausalEvent>, x: nat, s: seq<nat>): (r: seq<nat>)
    requires x < |log| && Positions(log, s)
    ensures Positions(log, r)
  {
    var c := Slot(log, x, s);
    s[..c] + [x] + s[c..]
  }

  lemma InsertAt(s: seq<nat>, c: nat, x: nat)
    requires c <= |s|
    ensures multiset(s[..c] + [x] + s[c..]) == multiset(s) + multiset{x}
  {
    assert s == s[..c] + s[c..];
  }

  lemma InsertKeeps(log: seq<CausalEvent>, x: nat, s: seq<nat>)
    requires x < |log| && Positions(log, s)
    ensures multiset(Insert(log, x, s)) == multiset(s) + multiset{x}
  {
    var c := Slot(log, x, s);
    InsertAt(s, c, x);
  }

  lemma InsertSorts(log: seq<CausalEvent>, x: nat, s: seq<nat>)
    requires x < |log| && Positions(log, s) && SortedBySeq(log, s)
    ensures SortedBySeq(log, Insert(log, x, s))
  {
    var c, r := Slot(log, x, s), Insert(log, x, s);
    assert forall i | 0 <= i < |r| :: r[i] == if i < c then s[i] else if i == c then x else s[i - 1];
    forall i, j | 0 <= i < j < |r| ensures log[r[i]].seqNo <= log[r[j]].seqNo {
      if c > 0 && i < c { assert log[s[i]].seqNo <= log[s[c - 1]].seqNo; }
    }
  }

  function SortBySeq(log: seq<CausalEvent>, s: seq<nat>): (r: seq<nat>)
    requires Positions(log, s)
    ensures multiset(r) == multiset(s)
    ensures Positions(log, r) && SortedBySeq(log, r)
  {
    if s == [] then []
    else
      assert s == s[..|s| - 1] + [s[|s| - 1]];
      var sorted := SortBySeq(log, s[..|s| - 1]);
      InsertKeeps(log, s[|s| - 1], sorted);
      InsertSorts(log, s[|s| - 1], sorted);
      Insert(log, s[|s| - 1], sorted)
  }

  lemma SameElements(log: seq<CausalEvent>, s: seq<nat>, r: seq<nat>, x: nat)
    requires multiset(r) == multiset(s)
    ensures x in r <==> x in s
  {
    assert x in r <==> x in multiset(r);
    assert x in s <==> x in multiset(s);
  }

  // ------------------------------------------------------------------- build

  ghost predicate Distinct<T>(s: seq<T>) { forall i, j | 0 <= i < j < |s| :: s[i] != s[j] }

  /** `s` lists the positions of `a`'s events below `n`, each once. */
  ghost predicate LineOf(log: seq<CausalEvent>, n: nat, a: Name, s: seq<nat>)
    requires n <= |log|
  {
    && (forall k: nat :: k in s <==> k < n && log[k].actor == a)
    && Distinct(s)
  }

  ghost function ProgramEdgesOf(log: seq<CausalEvent>, a: Name): Edges {
    set e | e in ProgramEdges(log) && log[e.0].actor == a
  }

  function Neighbours(s: seq<nat>, k: nat): (nat, nat)
    requires k + 1 < |s|
  {
    (s[k], s[k + 1])
  }

  ghost function NeighboursBelow(s: seq<nat>, w: nat): Edges
    requires s == [] || w < |s|
  {
    set k: nat | k < w && k + 1 < |s| :: Neighbours(s, k)
  }

  /** One actor's program-order edges, from its events sorted by sequence number. */
  method ProgramOrder(log: seq<CausalEvent>, actor: Name, idxs: seq<nat>) returns (r: Result<seq<(nat, nat)>>)
    requires LineOf(log, |log|, actor, idxs) && idxs != []
    ensures r.Ok? ==> forall n :: !DupSeq(log, actor, n)
    ensures r.Ok? ==> multiset(r.value) == multiset(ProgramEdgesOf(log, actor))
    ensures r.Ok? ==> LineByLine(log, r.value) && forall k | 0 <= k < |r.value| :: log[r.value[k].0].actor == actor
    ensures r.Err? ==> r.error.DuplicateSeq? && r.error.actor == actor && DupSeq(log, actor, r.error.seqNo)
    ensures r.Err? ==> forall n | DupSeq(log, actor, n) :: r.error.seqNo <= n
  {
    hide SortBySeq, DupSeq, ProgramEdgesOf, LineOf, NeighboursBelow, StrictlyBySeq;
    assert Positions(log, idxs) by { LinePositions(log, |log|, actor, idxs); }
    var s := SortBySeq(log, idxs);
    SortedLine(log, actor, idxs, s);
    var edges: seq<(nat, nat)> := [];
    LineStart(log, actor, s);
    for w := 0 to |s| - 1
      invariant Positions(log, s[..w + 1]) && StrictlyBySeq(log, s[..w + 1])
      invariant multiset(edges) == multiset(NeighboursBelow(s, w))
      invariant |edges| == w && forall k | 0 <= k < w :: edges[k] == (s[k], s[k + 1])
    {
      if log[s[w]].seqNo == log[s[w + 1]].seqNo {
        LeastDuplicate(log, actor, s, w);
        return Err(DuplicateSeq(actor, log[s[w]].seqNo));
      }
      StrictlyGrows(log, s, w);
      NeighboursGrow(s, w);
      edges := edges + [(s[w], s[w + 1])];
    }
    assert s[..|s|] == s;
    StrictLine(log, actor, s);
    LineInOrder(log, actor, s, edges);
    r := Ok(edges);
  }

  lemma LineInOrder(log: seq<CausalEvent>, a: Name, s: seq<nat>, edges: seq<(nat, nat)>)
    requires LineOf(log, |log|, a, s) && Positions(log, s) && StrictlyBySeq(log, s) && |edges| == |s| - 1
    requires forall k | 0 <= k < |edges| :: edges[k] == (s[k], s[k + 1])
    ensures LineByLine(log, edges) && forall k | 0 <= k < |edges| :: log[edges[k].0].actor == a
  {
    forall k | 0 <= k < |edges| ensures edges[k].0 == s[k] && s[k] < |log| && log[s[k]].actor == a {
      assert s[k] in s && edges[k] == (s[k], s[k + 1]);
    }
    forall k, l | 0 <= k < l < |edges| ensures LineLess(log, edges[k].0, edges[l].0) {
      assert edges[k].0 == s[k] && edges[l].0 == s[l];
      assert log[s[k]].seqNo < log[s[l]].seqNo;
    }
  }

  lemma LineStart(log: seq<CausalEvent>, a: Name, s: seq<nat>)
    requires Positions(log, s) && LineOf(log, |log|, a, s) && s != []
    ensures StrictlyBySeq(log, s[..1]) && NeighboursBelow(s, 0) == {} && Distinct(s)
  {}

  lemma LinePositions(log: seq<CausalEvent>, n: nat, a: Name, s: seq<nat>)
    requires n <= |log| && LineOf(log, n, a, s)
    ensures Positions(log, s)
  {
    forall k | 0 <= k < |s| ensures s[k] < |log| { assert s[k] in s; }
  }

  lemma StrictlyGrows(log: seq<CausalEvent>, s: seq<nat>, w: nat)
    requires Positions(log, s) && SortedBySeq(log, s) && w + 1 < |s|
    requires StrictlyBySeq(log, s[..w + 1]) && log[s[w]].seqNo != log[s[w + 1]].seqNo
    ensures StrictlyBySeq(log, s[..w + 2])
  {
    var r := s[..w + 2];
    forall i, j | 0 <= i < j < |r| ensures log[r[i]].seqNo < log[r[j]].seqNo {
      if j <= w {
        assert log[s[..w + 1][i]].seqNo < log[s[..w + 1][j]].seqNo;
      } else {
        assert log[s[i]].seqNo <= log[s[w]].seqNo <= log[s[w + 1]].seqNo;
      }
    }
  }

  lemma NeighboursGrow(s: seq<nat>, w: nat)
    requires Distinct(s) && w + 1 < |s|
    ensures Neighbours(s, w) !in NeighboursBelow(s, w)
    ensures NeighboursBelow(s, w + 1) == NeighboursBelow(s, w) + {Neighbours(s, w)}
  {
    forall k: nat | k < w ensures Neighbours(s, k) != Neighbours(s, w) {
      assert s[k] != s[w];
    }
  }

  lemma SortedLine(log: seq<CausalEvent>, a: Name, idxs: seq<nat>, s: seq<nat>)
    requires LineOf(log, |log|, a, idxs) && multiset(s) == multiset(idxs)
    ensures LineOf(log, |log|, a, s) && |s| == |idxs|
  {
    forall k: nat ensures k in s <==> k in idxs { SameElements(log, idxs, s, k); }
    assert |multiset(s)| == |multiset(idxs)|;
    forall i, j | 0 <= i < j < |s| ensures s[i] != s[j] {
      if s[i] == s[j] {
        TwiceIn(s, i, j);
        assert s[i] in s;
        var k :| 0 <= k < |idxs| && idxs[k] == s[i];
        OnceIn(idxs, k);
      }
    }
  }

  lemma TwiceIn<T>(s: seq<T>, i: nat, j: nat)
    requires i < j < |s| && s[i] == s[j]
    ensures multiset(s)[s[i]] >= 2
  {
    assert s == s[..j] + [s[j]] + s[j + 1..];
    assert s[..j][i] in s[..j];
    assert multiset(s[..j])[s[i]] >= 1;
  }

  lemma OnceIn<T>(s: seq<T>, k: nat)
    requires k < |s| && Distinct(s)
    ensures multiset(s)[s[k]] == 1
  {
    assert s == s[..k] + [s[k]] + s[k + 1..];
    assert s[k] !in s[..k] && s[k] !in s[k + 1..];
    assert multiset(s[..k])[s[k]] == 0 && multiset(s[k + 1..])[s[k]] == 0;
  }

  lemma LeastDuplicate(log: seq<CausalEvent>, a: Name, s: seq<nat>, w: nat)
    requires LineOf(log, |log|, a, s) && Positions(log, s) && SortedBySeq(log, s) && w + 1 < |s|
    requires StrictlyBySeq(log, s[..w + 1])
    requires log[s[w]].seqNo == log[s[w + 1]].seqNo
    ensures DupSeq(log, a, log[s[w]].seqNo)
    ensures forall n | DupSeq(log, a, n) :: log[s[w]].seqNo <= n
  {
    var i, j := s[w], s[w + 1];
    assert i in s && j in s;
    if i < j { assert DupSeq(log, a, log[i].seqNo); } else { assert DupSeq(log, a, log[j].seqNo); }
    forall n | DupSeq(log, a, n) ensures log[s[w]].seqNo <= n {
      var x: nat, y: nat :| x < y < |log| && log[x].actor == a == log[y].actor && log[x].seqNo == n == log[y].seqNo;
      var p :| 0 <= p < |s| && s[p] == x;
      var q :| 0 <= q < |s| && s[q] == y;
      EarlierDiffer(log, s, w, p, q);
    }
  }

  lemma EarlierDiffer(log: seq<CausalEvent>, s: seq<nat>, w: nat, p: nat, q: nat)
    requires Positions(log, s) && SortedBySeq(log, s) && w < |s| && p < |s| && q < |s| && p != q
    requires StrictlyBySeq(log, s[..w + 1]) && log[s[p]].seqNo == log[s[q]].seqNo
    ensures log[s[w]].seqNo <= log[s[p]].seqNo
  {
    var r := s[..w + 1];
    assert forall k | 0 <= k <= w :: r[k] == s[k];
  }

  /** In a strictly sorted line, neighbours are exactly the program edges. */
  lemma StrictLine(log: seq<CausalEvent>, a: Name, s: seq<nat>)
    requires LineOf(log, |log|, a, s) && Positions(log, s) && StrictlyBySeq(log, s) && s != []
    ensures NeighboursBelow(s, |s| - 1) == ProgramEdgesOf(log, a)
    ensures forall n :: !DupSeq(log, a, n)
  {
    forall e | e in NeighboursBelow(s, |s| - 1) ensures e in ProgramEdgesOf(log, a) {
      var k: nat :| k + 1 < |s| && e == Neighbours(s, k);
      NeighbourIsEdge(log, a, s, k);
    }
    forall e | e in ProgramEdgesOf(log, a) ensures e in NeighboursBelow(s, |s| - 1) {
      EdgeIsNeighbour(log, a, s, e.0, e.1);
    }
    forall x: nat, y: nat | x < y < |log| && log[x].actor == a == log[y].actor
      ensures log[x].seqNo != log[y].seqNo
    {
      var p :| 0 <= p < |s| && s[p] == x;
      var q :| 0 <= q < |s| && s[q] == y;
      assert if p < q then log[s[p]].seqNo < log[s[q]].seqNo else log[s[q]].seqNo < log[s[p]].seqNo;
    }
  }

  lemma NeighbourIsEdge(log: seq<CausalEvent>, a: Name, s: seq<nat>, k: nat)
    requires LineOf(log, |log|, a, s) && Positions(log, s) && StrictlyBySeq(log, s) && k + 1 < |s|
    ensures (s[k], s[k + 1]) in ProgramEdgesOf(log, a)
  {
    var i, j := s[k], s[k + 1];
    assert i in s && j in s;
    forall x: nat | x < |log| && log[x].actor == a ensures log[x].seqNo <= log[i].seqNo
        || log[j].seqNo <= log[x].seqNo {
      var p :| 0 <= p < |s| && s[p] == x;
      if p < k { assert log[s[p]].seqNo < log[s[k]].seqNo; }
      if p > k + 1 { assert log[s[k + 1]].seqNo < log[s[p]].seqNo; }
    }
    assert ProgramEdge(log, i, j);
    assert (i, j) in ProgramEdges(log);
  }

  lemma EdgeIsNeighbour(log: seq<CausalEvent>, a: Name, s: seq<nat>, i: nat, j: nat)
    requires LineOf(log, |log|, a, s) && Positions(log, s) && StrictlyBySeq(log, s) && s != []
    requires (i, j) in ProgramEdgesOf(log, a)
    ensures (i, j) in NeighboursBelow(s, |s| - 1)
  {
    assert ProgramEdge(log, i, j);
    assert i in s && j in s;
    var p: nat :| p < |s| && s[p] == i;
    var q: nat :| q < |s| && s[q] == j;
    if p + 1 < |s| {
      assert s[p + 1] in s;
      assert log[s[p + 1]].actor == a;
    }
    assert Neighbours(s, p) == (i, j);
  }

  /** `Poset::build`: program order per actor, then messages, refusing duplicate
      coordinates, duplicate emits and unpaired receives in that order. */
  method Build(log: seq<CausalEvent>) returns (r: Result<seq<(nat, nat)>>)
    ensures r.Ok? <==> Buildable(log)
    ensures r.Ok? ==> ListsEdges(log, r.value) && ListsInOrder(log, r.value)
    ensures r.Err? ==> Complaint(log, r.error)
  {
    hide LineByLine, ByReceive, Complaint, DupSeq, ProgramEdgesOf, UniqueSeqs, UniqueEmits, RecvsPaired, LineOf;
    var byActor := GroupByActor(log);
    var actors := SortedKeys(byActor.Keys);
    var edges: seq<(nat, nat)> := [];
    NoLines(log);
    for i := 0 to |actors|
      invariant forall k, n | 0 <= k < i :: !DupSeq(log, actors[k], n)
      invariant multiset(edges) == multiset(ProgramEdgesUpTo(log, actors, i))
      invariant LineByLine(log, edges) && LinesAmong(log, edges, actors, i)
    {
      assert actors[i] in actors;
      LineNonEmpty(log, actors[i], byActor[actors[i]]);
      var line := ProgramOrder(log, actors[i], byActor[actors[i]]);
      if line.Err? {
        FirstDuplicate(log, byActor, actors, i, line.error.seqNo);
        return Err(line.error);
      }
      NextLine(log, edges, line.value, actors, i);
      edges := edges + line.value;
      AddActor(log, actors, i);
    }
    NoDuplicates(log, byActor, actors);
    ghost var program := edges;
    var emitOf := IndexEmits(log);
    if emitOf.Err? {
      return Err(emitOf.error);
    }
    var messages := MessageOrder(log, emitOf.value);
    if messages.Err? {
      return Err(messages.error);
    }
    edges := edges + messages.value;
    assert multiset(edges) == multiset(program) + multiset(messages.value);
    assert TwoParts(log, edges, program, messages.value);
    r := Ok(edges);
  }

  lemma NoLines(log: seq<CausalEvent>)
    ensures LineByLine(log, [])
  {}

  /** The edges so far belong to the first `n` actors. */
  ghost predicate LinesAmong(log: seq<CausalEvent>, edges: seq<(nat, nat)>, actors: seq<Name>, n: nat)
    requires n <= |actors|
  {
    forall k | 0 <= k < |edges| :: edges[k].0 < |log| && log[edges[k].0].actor in actors[..n]
  }

  lemma NextLine(log: seq<CausalEvent>, edges: seq<(nat, nat)>, line: seq<(nat, nat)>, actors: seq<Name>, i: nat)
    requires i < |actors| && StrictlySorted(actors) && LineByLine(log, edges) && LinesAmong(log, edges, actors, i)
    requires LineByLine(log, line) && forall k | 0 <= k < |line| :: log[line[k].0].actor == actors[i]
    ensures LineByLine(log, edges + line) && LinesAmong(log, edges + line, actors, i + 1)
  {
    var all := edges + line;
    assert actors[..i + 1] == actors[..i] + [actors[i]];
    forall k | 0 <= k < |all| ensures all[k].0 < |log| && log[all[k].0].actor in actors[..i + 1] {
      assert all[k] == if k < |edges| then edges[k] else line[k - |edges|];
    }
    forall k, l | 0 <= k < l < |all| ensures LineLess(log, all[k].0, all[l].0) {
      if l < |edges| {
        assert LineLess(log, edges[k].0, edges[l].0);
      } else if k >= |edges| {
        assert LineLess(log, line[k - |edges|].0, line[l - |edges|].0);
      } else {
        var j :| 0 <= j < i && actors[..i][j] == log[edges[k].0].actor;
        assert NameLess(actors[j], actors[i]);
      }
    }
  }

  /** Each actor's positions in log order. */
  method GroupByActor(log: seq<CausalEvent>) returns (byActor: map<Name, seq<nat>>)
    ensures forall a :: a in byActor <==> exists k :: 0 <= k < |log| && log[k].actor == a
    ensures forall a | a in byActor :: LineOf(log, |log|, a, byActor[a])
  {
    byActor := map[];
    for i := 0 to |log|
      invariant forall a :: a in byActor <==> exists k :: 0 <= k < i && log[k].actor == a
      invariant forall a | a in byActor :: LineOf(log, i, a, byActor[a])
    {
      var a := log[i].actor;
      var line := if a in byActor then byActor[a] else [];
      LineGrows(log, i, a, line);
      forall b | b in byActor && b != a ensures LineOf(log, i + 1, b, byActor[b]) {}
      byActor := byActor[a := line + [i]];
    }
  }

  lemma LineGrows(log: seq<CausalEvent>, i: nat, a: Name, line: seq<nat>)
    requires i < |log| && log[i].actor == a && LineOf(log, i, a, line)
    ensures LineOf(log, i + 1, a, line + [i])
  {
    assert forall k | 0 <= k < |line| :: line[k] in line;
  }

  lemma LineNonEmpty(log: seq<CausalEvent>, a: Name, line: seq<nat>)
    requires LineOf(log, |log|, a, line) && exists k :: 0 <= k < |log| && log[k].actor == a
    ensures line != []
  {
    var k: nat :| k < |log| && log[k].actor == a;
    assert k in line;
  }

  ghost function ProgramEdgesUpTo(log: seq<CausalEvent>, actors: seq<Name>, i: nat): Edges
    requires i <= |actors|
  {
    set e | e in ProgramEdges(log) && log[e.0].actor in actors[..i]
  }

  lemma AddActor(log: seq<CausalEvent>, actors: seq<Name>, i: nat)
    requires i < |actors| && StrictlySorted(actors)
    ensures multiset(ProgramEdgesUpTo(log, actors, i + 1)) ==
            multiset(ProgramEdgesUpTo(log, actors, i)) + multiset(ProgramEdgesOf(log, actors[i]))
  {
    var before, mine := ProgramEdgesUpTo(log, actors, i), ProgramEdgesOf(log, actors[i]);
    assert actors[i] !in actors[..i] by {
      forall k | 0 <= k < i ensures actors[k] != actors[i] { NameLessIrreflexive(actors[i]); }
    }
    assert actors[..i + 1] == actors[..i] + [actors[i]];
    assert before + mine == ProgramEdgesUpTo(log, actors, i + 1);
    assert before !! mine;
  }

  lemma NoDuplicates(log: seq<CausalEvent>, byActor: map<Name, seq<nat>>, actors: seq<Name>)
    requires forall a :: a in byActor <==> exists k :: 0 <= k < |log| && log[k].actor == a
    requires forall a :: a in actors <==> a in byActor
    requires forall k, n | 0 <= k < |actors| :: !DupSeq(log, actors[k], n)
    ensures UniqueSeqs(log)
    ensures ProgramEdgesUpTo(log, actors, |actors|) == ProgramEdges(log)
  {
    assert actors[..|actors|] == actors;
    forall i, j | 0 <= i < j < |log| && log[i].actor == log[j].actor ensures log[i].seqNo != log[j].seqNo {
      assert log[i].actor in actors;
      var k :| 0 <= k < |actors| && actors[k] == log[i].actor;
      assert !DupSeq(log, actors[k], log[i].seqNo);
    }
  }

  lemma FirstDuplicate(log: seq<CausalEvent>, byActor: map<Name, seq<nat>>, actors: seq<Name>, i: nat, n: nat)
    requires forall a :: a in byActor <==> exists k :: 0 <= k < |log| && log[k].actor == a
    requires forall a :: a in actors <==> a in byActor
    requires StrictlySorted(actors) && i < |actors|
    requires forall k, m | 0 <= k < i :: !DupSeq(log, actors[k], m)
    requires DupSeq(log, actors[i], n) && forall m | DupSeq(log, actors[i], m) :: n <= m
    ensures Complaint(log, DuplicateSeq(actors[i], n)) && !UniqueSeqs(log)
  {
    forall b, m | DupSeq(log, b, m) ensures NameLess(actors[i], b) || (actors[i] == b && n <= m) {
      assert b in actors;
      var k :| 0 <= k < |actors| && actors[k] == b;
      assert !(k < i);
    }
  }

  /** The emit of each message id; the first repeated id is refused. */
  method IndexEmits(log: seq<CausalEvent>) returns (r: Result<map<string, nat>>)
    requires UniqueSeqs(log)
    ensures r.Ok? <==> UniqueEmits(log)
    ensures r.Ok? ==> forall m :: m in r.value <==> Emitted(log, m)
    ensures r.Ok? ==> forall m | m in r.value :: r.value[m] < |log| && Emits(log[r.value[m]], m)
    ensures r.Err? ==> Complaint(log, r.error)
  {
    hide UniqueSeqs;
    var emitOf: map<string, nat> := map[];
    for i := 0 to |log|
      invariant forall m :: m in emitOf <==> exists k :: 0 <= k < i && Emits(log[k], m)
      invariant forall m | m in emitOf :: emitOf[m] < i && Emits(log[emitOf[m]], m)
      invariant forall k: nat | k < i :: !DupEmitAt(log, k)
    {
      var e := log[i];
      if e.op == Emit && e.msgId.Some? {
        var m := e.msgId.value;
        if m in emitOf {
          assert DupEmitAt(log, i);
          assert !UniqueEmits(log) by {
            var k: nat :| k < i && Emits(log[k], m);
          }
          return Err(DuplicateEmit(m));
        }
        assert Emits(log[i], m);
        emitOf := emitOf[m := i];
      }
    }
    assert UniqueEmits(log) by {
      forall i, j | 0 <= i < j < |log| && log[i].op == Emit && log[j].op == Emit && log[i].msgId.Some?
        ensures log[i].msgId != log[j].msgId
      {
        assert !DupEmitAt(log, j);
        assert Emits(log[i], log[i].msgId.value);
      }
    }
    r := Ok(emitOf);
  }

  ghost function MessageEdgesBelow(log: seq<CausalEvent>, n: nat): Edges {
    set e | e in MessageEdges(log) && e.1 < n
  }

  /** Pair each receive, in log order, with its emit. */
  method MessageOrder(log: seq<CausalEvent>, emitOf: map<string, nat>) returns (r: Result<seq<(nat, nat)>>)
    requires UniqueSeqs(log) && UniqueEmits(log)
    requires forall m :: m in emitOf <==> Emitted(log, m)
    requires forall m | m in emitOf :: emitOf[m] < |log| && Emits(log[emitOf[m]], m)
    ensures r.Ok? <==> RecvsPaired(log)
    ensures r.Ok? ==> multiset(r.value) == multiset(MessageEdges(log)) && ByReceive(r.value)
    ensures r.Err? ==> Complaint(log, r.error)
  {
    hide UniqueSeqs, Emitted, MessageEdges;
    var edges: seq<(nat, nat)> := [];
    for i := 0 to |log|
      invariant forall k: nat | k < i :: !MissingAt(log, k)
      invariant multiset(edges) == multiset(MessageEdgesBelow(log, i))
      invariant ByReceive(edges) && forall k | 0 <= k < |edges| :: edges[k].1 < i
    {
      NextReceive(log, emitOf, i);
      if log[i].op == Recv {
        var m := RecvKey(log[i]);
        if m !in emitOf {
          assert MissingAt(log, i);
          return Err(MissingEmit(log[i].id, m));
        }
        edges := edges + [(emitOf[m], i)];
      }
    }
    AllReceives(log);
    assert RecvsPaired(log) by {
      forall j | 0 <= j < |log| && log[j].op == Recv ensures Emitted(log, RecvKey(log[j])) {
        assert !MissingAt(log, j);
      }
    }
    r := Ok(edges);
  }

  lemma NextReceive(log: seq<CausalEvent>, emitOf: map<string, nat>, i: nat)
    requires i < |log| && UniqueEmits(log)
    requires forall m | m in emitOf :: emitOf[m] < |log| && Emits(log[emitOf[m]], m)
    ensures log[i].op != Recv ==> MessageEdgesBelow(log, i + 1) == MessageEdgesBelow(log, i)
    ensures var m := RecvKey(log[i]);
      log[i].op == Recv && m in emitOf ==>
        && (emitOf[m], i) !in MessageEdgesBelow(log, i)
        && MessageEdgesBelow(log, i + 1) == MessageEdgesBelow(log, i) + {(emitOf[m], i)}
  {
    hide UniqueEmits;
    forall e | e in MessageEdges(log) && e.1 == i && RecvKey(log[i]) in emitOf ensures e.0 == emitOf[RecvKey(log[i])] {
      OneEmit(log, e.0, emitOf[RecvKey(log[i])], RecvKey(log[i]));
    }
    if log[i].op == Recv && RecvKey(log[i]) in emitOf {
      assert MessageEdge(log, emitOf[RecvKey(log[i])], i);
    }
  }

  lemma OneEmit(log: seq<CausalEvent>, i: nat, j: nat, m: string)
    requires UniqueEmits(log) && i < |log| && j < |log| && Emits(log[i], m) && Emits(log[j], m)
    ensures i == j
  {}

  lemma AllReceives(log: seq<CausalEvent>)
    ensures MessageEdgesBelow(log, |log|) == MessageEdges(log)
  {
    forall e | e in MessageEdges(log) ensures e.1 < |log| {}
  }

  // ---------------------------------------------------------------- validate

  /** The strict clock order on wire maps, decided with an early exit. */
  method HbStrict(a: Clock, b: Clock) returns (r: bool)
    ensures r <==> Lt(a, b)
  {
    var mine := SortedKeys(a.Keys);
    var theirs := SortedKeys(b.Keys);
    var ks := mine + theirs;
    var sawLess := false;
    for i := 0 to |ks|
      invariant sawLess <==> exists j :: 0 <= j < i && Get(a, ks[j]) < Get(b, ks[j])
      invariant forall j | 0 <= j < i :: Get(a, ks[j]) <= Get(b, ks[j])
    {
      assert ks[i] in mine || ks[i] in theirs;
      var x, y := Get(a, ks[i]), Get(b, ks[i]);
      if x > y {
        assert ks[i] in a && !Leq(a, b);
        return false;
      }
      if x < y {
        sawLess := true;
      }
    }
    forall k | k in a ensures a[k] <= Get(b, k) {
      assert k in mine;
      var j :| 0 <= j < |mine| && mine[j] == k;
      assert ks[j] == k;
    }
    if !sawLess {
      forall k | k in b ensures b[k] <= Get(a, k) {
        assert k in theirs;
        var j :| 0 <= j < |theirs| && theirs[j] == k;
        assert ks[|mine| + j] == k;
      }
    }
    r := sawLess;
  }

  /** An edge that the recorded clocks do not reflect. */
  ghost predicate Contradicted(log: seq<CausalEvent>, i: nat, j: nat) {
    i < |log| && j < |log| && (i, j) in LogEdges(log) && !Lt(log[i].vclock, log[j].vclock)
  }

  /** Position `k` of the edge list is the first whose edge the clocks contradict. */
  ghost predicate FirstContradicted(log: seq<CausalEvent>, edges: seq<(nat, nat)>, k: nat) {
    && k < |edges| && Contradicted(log, edges[k].0, edges[k].1)
    && forall l: nat | l < k :: !Contradicted(log, edges[l].0, edges[l].1)
  }

  /** `Poset::validate`: the first listed edge that the clocks contradict. */
  method Validate(log: seq<CausalEvent>, edges: seq<(nat, nat)>) returns (r: Result<()>)
    requires ListsEdges(log, edges)
    ensures r.Ok? <==> Consistent(log)
    ensures r.Err? ==> exists k: nat :: FirstContradicted(log, edges, k)
                        && r.error == Inconsistent(log[edges[k].0].id, log[edges[k].1].id)
  {
    hide Lt, LogEdges, ListsEdges;
    forall i: nat, j: nat ensures ((i, j) in edges <==> (i, j) in LogEdges(log))
        && ((i, j) in edges ==> i < |log| && j < |log|) {
      ListedEdges(log, edges, i, j);
    }
    for k := 0 to |edges|
      invariant forall l | 0 <= l < k ::
                  && edges[l].0 < |log| && edges[l].1 < |log|
                  && Lt(log[edges[l].0].vclock, log[edges[l].1].vclock)
    {
      var (a, b) := edges[k];
      assert (a, b) in edges;
      var ordered := HbStrict(log[a].vclock, log[b].vclock);
      if !ordered {
        assert FirstContradicted(log, edges, k);
        return Err(Inconsistent(log[a].id, log[b].id));
      }
    }
    r := Ok(());
  }
}
