/**
 Kahn's algorithm as a state: in-degrees, the nodes taken so far, the queue, and what is left of
 the adjacency list being relaxed.  `adj[u]` lists the successors of `u`, repeated edges included.
 */
module Kahn {
  import opened Sequences

  predicate Graph(adj: seq<seq<nat>>) {
    forall u, i :: 0 <= u < |adj| && 0 <= i < |adj[u]| ==> adj[u][i] < |adj|
  }

  function Count(s: seq<nat>, v: nat): nat {
    if s == [] then 0 else (if s[0] == v then 1 else 0) + Count(s[1..], v)
  }

  lemma {:induction false} CountConcat(a: seq<nat>, b: seq<nat>, v: nat)
    ensures Count(a + b, v) == Count(a, v) + Count(b, v)
  {
    if a == [] {
      assert a + b == b;
    } else {
      CountConcat(a[1..], b, v);
      assert (a + b)[1..] == a[1..] + b;
    }
  }

  lemma {:induction false} CountZero(s: seq<nat>, v: nat)
    ensures Count(s, v) == 0 <==> v !in s
  {
    if s != [] {
      CountZero(s[1..], v);
      assert s == [s[0]] + s[1..];
    }
  }

  /** Edges into `v` from the nodes below `k` that are not in `done`. */
  function InBelow(adj: seq<seq<nat>>, k: nat, done: set<nat>, v: nat): nat
    requires k <= |adj|
  {
    if k == 0 then 0
    else InBelow(adj, k - 1, done, v) + (if k - 1 in done then 0 else Count(adj[k - 1], v))
  }

  function In(adj: seq<seq<nat>>, done: set<nat>, v: nat): nat {
    InBelow(adj, |adj|, done, v)
  }

  lemma {:induction false} InBelowTake(adj: seq<seq<nat>>, k: nat, done: set<nat>, u: nat, v: nat)
    requires k <= |adj| && u < |adj| && u !in done
    ensures InBelow(adj, k, done, v) == InBelow(adj, k, done + {u}, v) + if u < k then Count(adj[u], v) else 0
  {
    if k > 0 {
      InBelowTake(adj, k - 1, done, u, v);
    }
  }

  lemma {:induction false} InBelowZero(adj: seq<seq<nat>>, k: nat, done: set<nat>, v: nat)
    requires k <= |adj|
    ensures InBelow(adj, k, done, v) == 0 <==> forall u :: 0 <= u < k && u !in done ==> v !in adj[u]
  {
    if k > 0 {
      InBelowZero(adj, k - 1, done, v);
      CountZero(adj[k - 1], v);
    }
  }

  /** Adding one edge adds one to the in-degree of its target. */
  lemma {:induction false} InBelowAdd(adj: seq<seq<nat>>, k: nat, u: nat, s: seq<nat>, x: nat, v: nat)
    requires k <= |adj| && u < |adj|
    requires forall w :: Count(s, w) == Count(adj[u], w) + (if w == x then 1 else 0)
    ensures InBelow(adj[u := s], k, {}, v) == InBelow(adj, k, {}, v) + (if u < k && v == x then 1 else 0)
  {
    if k > 0 {
      InBelowAdd(adj, k - 1, u, s, x, v);
    }
  }

  lemma {:induction false} NoEdges(adj: seq<seq<nat>>, k: nat, v: nat)
    requires k <= |adj| && forall u :: 0 <= u < |adj| ==> adj[u] == []
    ensures InBelow(adj, k, {}, v) == 0
  {
    if k > 0 {
      NoEdges(adj, k - 1, v);
    }
  }

  // ----- Distinct node lists -----

  predicate AllBelow(s: seq<nat>, n: nat) {
    forall i :: 0 <= i < |s| ==> s[i] < n
  }

  function Nodes(n: nat): set<nat> {
    if n == 0 then {} else Nodes(n - 1) + {n - 1}
  }

  lemma {:induction false} NodesAre(n: nat)
    ensures |Nodes(n)| == n && forall v: nat :: v in Nodes(n) <==> v < n
  {
    if n > 0 {
      NodesAre(n - 1);
    }
  }

  /** A list of distinct nodes has at most as many entries as there are nodes. */
  lemma Pigeonhole(s: seq<nat>, n: nat)
    requires Distinct(s) && AllBelow(s, n)
    ensures |s| <= n
    ensures |s| == n ==> forall v :: 0 <= v < n ==> v in s
  {
    ElementsSize(s);
    NodesAre(n);
    assert Elements(s) <= Nodes(n);
    SubsetSize(Elements(s), Nodes(n));
    if |s| == n {
      forall v | 0 <= v < n ensures v in s {
        assert v in Nodes(n);
      }
    }
  }

  // ----- The algorithm's state -----

  /** Every predecessor of a taken node was taken before it. */
  predicate Ordered(adj: seq<seq<nat>>, done: seq<nat>) {
    forall i, u: nat :: 0 <= i < |done| && u < |adj| && done[i] in adj[u] ==> u in done[..i]
  }

  ghost predicate Degrees(adj: seq<seq<nat>>, indeg: seq<int>, done: set<nat>, pending: seq<nat>) {
    |indeg| == |adj| && forall v: nat :: v < |adj| ==> indeg[v] == In(adj, done, v) + Count(pending, v)
  }

  predicate Queued(indeg: seq<int>, taken: seq<nat>) {
    forall v: nat :: v < |indeg| ==> (v in taken <==> indeg[v] == 0)
  }

  ghost predicate State(adj: seq<seq<nat>>, indeg: seq<int>, done: seq<nat>, queue: seq<nat>, pending: seq<nat>) {
    && Graph(adj) && AllBelow(pending, |adj|)
    && Distinct(done + queue) && AllBelow(done + queue, |adj|)
    && Degrees(adj, indeg, Elements(done), pending)
    && Queued(indeg, done + queue)
    && Ordered(adj, done)
  }

  lemma Capacity(adj: seq<seq<nat>>, indeg: seq<int>, done: seq<nat>, queue: seq<nat>, pending: seq<nat>)
    requires State(adj, indeg, done, queue, pending)
    ensures |done| + |queue| <= |adj|
  {
    Pigeonhole(done + queue, |adj|);
  }

  lemma Starts(adj: seq<seq<nat>>, indeg: seq<int>, queue: seq<nat>)
    requires Graph(adj) && Degrees(adj, indeg, {}, [])
    requires Distinct(queue) && AllBelow(queue, |adj|) && Queued(indeg, queue)
    ensures State(adj, indeg, [], queue, [])
  {
    assert [] + queue == queue;
    assert Elements<nat>([]) == {};
  }

  lemma TakesNext(adj: seq<seq<nat>>, indeg: seq<int>, done: seq<nat>, queue: seq<nat>)
    requires State(adj, indeg, done, queue, []) && queue != []
    ensures queue[0] < |adj| && State(adj, indeg, done + [queue[0]], queue[1..], adj[queue[0]])
  {
    hide In;
    var u := queue[0];
    assert (done + queue)[|done|] == u;
    assert done + [u] + queue[1..] == done + queue;
    assert Elements(done + [u]) == Elements(done) + {u};
    NotYetTaken(done, queue);
    forall v: nat | v < |adj|
      ensures indeg[v] == In(adj, Elements(done + [u]), v) + Count(adj[u], v)
    {
      InTake(adj, Elements(done), u, v);
    }
    assert indeg[u] == 0;
    PredecessorsDone(adj, indeg, Elements(done), u);
    OrderedExtends(adj, done, u);
  }

  lemma NotYetTaken(done: seq<nat>, queue: seq<nat>)
    requires Distinct(done + queue) && queue != []
    ensures queue[0] !in done
  {
    forall i | 0 <= i < |done| ensures done[i] != queue[0] {
      assert (done + queue)[i] == done[i] && (done + queue)[|done|] == queue[0];
    }
  }

  lemma InTake(adj: seq<seq<nat>>, done: set<nat>, u: nat, v: nat)
    requires u < |adj| && u !in done
    ensures In(adj, done, v) == In(adj, done + {u}, v) + Count(adj[u], v)
  {
    InBelowTake(adj, |adj|, done, u, v);
  }

  lemma PredecessorsDone(adj: seq<seq<nat>>, indeg: seq<int>, done: set<nat>, v: nat)
    requires Degrees(adj, indeg, done, []) && v < |adj|
    ensures indeg[v] == 0 <==> forall u: nat :: u < |adj| && v in adj[u] ==> u in done
  {
    InBelowZero(adj, |adj|, done, v);
  }

  lemma OrderedExtends(adj: seq<seq<nat>>, done: seq<nat>, u: nat)
    requires Ordered(adj, done)
    requires forall w: nat :: w < |adj| && u in adj[w] ==> w in done
    ensures Ordered(adj, done + [u])
  {
    var d := done + [u];
    forall i, w: nat | 0 <= i < |d| && w < |adj| && d[i] in adj[w]
      ensures w in d[..i]
    {
      if i < |done| {
        assert d[..i] == done[..i];
      } else {
        assert d[..i] == done;
      }
    }
  }

  /** Relaxing one edge. */
  lemma Relaxes(adj: seq<seq<nat>>, indeg: seq<int>, done: seq<nat>, queue: seq<nat>, pending: seq<nat>)
    requires State(adj, indeg, done, queue, pending) && pending != []
    ensures var v := pending[0];
            var d := indeg[v := indeg[v] - 1];
            v < |indeg| && State(adj, d, done, if d[v] == 0 then queue + [v] else queue, pending[1..])
  {
    hide In;
    var v := pending[0];
    var d := indeg[v := indeg[v] - 1];
    var q := if d[v] == 0 then queue + [v] else queue;
    assert v < |adj|;
    assert indeg[v] > 0;
    assert v !in done + queue;
    assert AllBelow(pending[1..], |adj|);
    if d[v] == 0 {
      assert done + q == done + queue + [v];
      DistinctExtends(done + queue, v);
      assert AllBelow(done + q, |adj|);
    }
    assert Queued(d, done + q);
  }

  lemma DistinctExtends(s: seq<nat>, v: nat)
    requires Distinct(s) && v !in s
    ensures Distinct(s + [v])
  {
  }

  // ----- What is left at the end -----

  /** Each node of `p` is a successor of the one before it. */
  predicate Walk(adj: seq<seq<nat>>, p: seq<nat>) {
    AllBelow(p, |adj|) && forall i :: 0 <= i < |p| - 1 ==> p[i + 1] in adj[p[i]]
  }

  predicate Repeats(p: seq<nat>) {
    exists i, j :: 0 <= i < j < |p| && p[i] == p[j]
  }

  /** `v` lies on a cycle or can be reached from one. */
  ghost predicate BehindCycle(adj: seq<seq<nat>>, v: nat) {
    exists p: seq<nat> :: p != [] && Walk(adj, p) && p[|p| - 1] == v && Repeats(p)
  }

  predicate HasUntaken(adj: seq<seq<nat>>, done: seq<nat>, v: nat) {
    exists u :: 0 <= u < |adj| && u !in done && v in adj[u]
  }

  ghost predicate Finished(adj: seq<seq<nat>>, done: seq<nat>) {
    && Graph(adj) && Distinct(done) && AllBelow(done, |adj|) && Ordered(adj, done)
    && forall v: nat :: v < |adj| && v !in done ==> HasUntaken(adj, done, v)
  }

  lemma Finishes(adj: seq<seq<nat>>, indeg: seq<int>, done: seq<nat>)
    requires State(adj, indeg, done, [], [])
    ensures Finished(adj, done)
  {
    assert done + [] == done;
    forall v: nat | v < |adj| && v !in done
      ensures HasUntaken(adj, done, v)
    {
      PredecessorsDone(adj, indeg, Elements(done), v);
    }
  }

  function IndexIn(s: seq<nat>, x: nat): (i: nat)
    requires x in s
    ensures i < |s| && s[i] == x
  {
    if s[0] == x then 0 else 1 + IndexIn(s[1..], x)
  }

  lemma SamePosition(done: seq<nat>, x: nat, b: nat)
    requires Distinct(done) && b < |done| && done[b] == x
    ensures IndexIn(done, x) == b
  {
  }

  /** A predecessor of a taken node was taken earlier. */
  lemma StepsBack(adj: seq<seq<nat>>, done: seq<nat>, u: nat, v: nat)
    requires Finished(adj, done) && u < |adj| && v in adj[u] && v in done
    ensures u in done && IndexIn(done, u) < IndexIn(done, v)
  {
    var at := IndexIn(done, v);
    assert done[at] in adj[u];
    assert u in done[..at];
    var b :| 0 <= b < at && done[b] == u;
    SamePosition(done, u, b);
  }

  /** Along a walk that ends in a taken node, all nodes are taken and their positions grow. */
  lemma {:induction false} WalkClimbs(adj: seq<seq<nat>>, done: seq<nat>, p: seq<nat>, i: nat, j: nat)
    requires Finished(adj, done) && Walk(adj, p) && i < j < |p| && p[j] in done
    ensures p[i] in done && IndexIn(done, p[i]) < IndexIn(done, p[j])
    decreases j
  {
    hide Finished;
    assert p[j - 1 + 1] in adj[p[j - 1]];
    StepsBack(adj, done, p[j - 1], p[j]);
    if i < j - 1 {
      WalkClimbs(adj, done, p, i, j - 1);
    }
  }

  lemma HasUntakenPredecessor(adj: seq<seq<nat>>, done: seq<nat>, v: nat) returns (u: nat)
    requires Finished(adj, done) && v < |adj| && v !in done
    ensures u < |adj| && u !in done && v in adj[u]
  {
    hide Graph, Ordered, Distinct, AllBelow;
    assert HasUntaken(adj, done, v);
    u :| u < |adj| && u !in done && v in adj[u];
  }

  lemma WalkExtends(adj: seq<seq<nat>>, p: seq<nat>, v: nat)
    requires Walk(adj, p) && v < |adj| && (p != [] ==> v in adj[p[|p| - 1]])
    ensures Walk(adj, p + [v])
  {
    forall i | 0 <= i < |p + [v]| - 1 ensures (p + [v])[i + 1] in adj[(p + [v])[i]] {
      if i + 1 < |p| {
        assert (p + [v])[i + 1] == p[i + 1];
      }
    }
  }

  /** A walk of untaken nodes can be extended backwards as far as one likes. */
  lemma {:induction false} WalksBack(adj: seq<seq<nat>>, done: seq<nat>, v: nat, n: nat) returns (p: seq<nat>)
    requires Finished(adj, done) && v < |adj| && v !in done
    ensures |p| == n + 1 && Walk(adj, p) && p[n] == v
    decreases n
  {
    hide Finished;
    p := [];
    if n > 0 {
      var u := HasUntakenPredecessor(adj, done, v);
      p := WalksBack(adj, done, u, n - 1);
    }
    WalkExtends(adj, p, v);
    p := p + [v];
  }

  /** Exactly the nodes on or behind a cycle are left over. */
  lemma LeftOverIff(adj: seq<seq<nat>>, done: seq<nat>, v: nat)
    requires Finished(adj, done) && v < |adj|
    ensures v !in done <==> BehindCycle(adj, v)
  {
    hide Finished, Walk;
    if v !in done {
      var p := WalksBack(adj, done, v, |adj|);
      assert p[|p| - 1] == v;
      TooLong(adj, p);
    } else {
      forall p: seq<nat> | p != [] && Walk(adj, p) && p[|p| - 1] == v
        ensures !Repeats(p)
      {
        TakenWalk(adj, done, p);
      }
    }
  }

  lemma TooLong(adj: seq<seq<nat>>, p: seq<nat>)
    requires Walk(adj, p) && |p| > |adj|
    ensures Repeats(p)
  {
    if !Repeats(p) {
      Pigeonhole(p, |adj|);
    }
  }

  lemma TakenWalk(adj: seq<seq<nat>>, done: seq<nat>, p: seq<nat>)
    requires Finished(adj, done) && Walk(adj, p) && p != [] && p[|p| - 1] in done
    ensures !Repeats(p)
  {
    hide Finished;
    var last := |p| - 1;
    forall i, j | 0 <= i < j < |p| ensures p[i] != p[j] {
      if j < last {
        WalkClimbs(adj, done, p, j, last);
      }
      WalkClimbs(adj, done, p, i, j);
    }
  }
}
