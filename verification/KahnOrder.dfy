/**
 The order in which Kahn's algorithm takes nodes from a first-in first-out queue, when successors are listed in
 ascending order: by the greatest walk that ends in a node, longer walks being greater and equally long ones
 compared node by node from the front.
 */
module KahnOrder {
  import opened Sequences
  import opened Kahn

  predicate Ascending(s: seq<nat>) {
    forall i, j :: 0 <= i < j < |s| ==> s[i] < s[j]
  }

  predicate AscendingLists(adj: seq<seq<nat>>) {
    forall u :: 0 <= u < |adj| ==> Ascending(adj[u])
  }

  // ----- When a node joins the queue -----

  /** One more than the position of the last predecessor of `v` in `done`, or 0 if there is none. */
  function Ready(adj: seq<seq<nat>>, done: seq<nat>, v: nat): (r: nat)
    requires AllBelow(done, |adj|)
    ensures r <= |done| && (r > 0 ==> v in adj[done[r - 1]])
    ensures forall i :: r <= i < |done| ==> v !in adj[done[i]]
  {
    if done == [] then 0
    else if v in adj[done[|done| - 1]] then |done|
    else Ready(adj, done[..|done| - 1], v)
  }

  lemma ReadySnoc(adj: seq<seq<nat>>, done: seq<nat>, u: nat, v: nat)
    requires AllBelow(done + [u], |adj|) && AllBelow(done, |adj|) && u < |adj|
    ensures Ready(adj, done + [u], v) == if v in adj[u] then |done| + 1 else Ready(adj, done, v)
  {
    assert (done + [u])[..|done|] == done;
  }

  /** `v` joins the queue before `w`: it is ready earlier, or at the same time and has the smaller number. */
  predicate Joins(adj: seq<seq<nat>>, done: seq<nat>, v: nat, w: nat)
    requires AllBelow(done, |adj|)
  {
    Ready(adj, done, v) < Ready(adj, done, w) || (Ready(adj, done, v) == Ready(adj, done, w) && v < w)
  }

  predicate InTurns(adj: seq<seq<nat>>, done: seq<nat>, all: seq<nat>)
    requires AllBelow(done, |adj|)
  {
    forall a, b :: 0 <= a < b < |all| ==> Joins(adj, done, all[a], all[b])
  }

  ghost predicate Fifo(adj: seq<seq<nat>>, done: seq<nat>, queue: seq<nat>) {
    AllBelow(done, |adj|) && InTurns(adj, done, done + queue)
  }

  lemma FifoStarts(adj: seq<seq<nat>>, queue: seq<nat>)
    requires Ascending(queue)
    ensures Fifo(adj, [], queue)
  {
    hide InTurns;
    StartInTurns(adj, queue);
    assert [] + queue == queue;
  }

  lemma StartInTurns(adj: seq<seq<nat>>, queue: seq<nat>)
    requires Ascending(queue)
    ensures InTurns(adj, [], queue)
  {
    hide Joins;
    forall a, b | 0 <= a < b < |queue| ensures Joins(adj, [], queue[a], queue[b]) {
      JoinsByNumber(adj, queue[a], queue[b]);
    }
  }

  lemma JoinsByNumber(adj: seq<seq<nat>>, v: nat, w: nat)
    requires v < w
    ensures Joins(adj, [], v, w)
  {
  }

  /** Whatever has joined the queue has all its predecessors behind it. */
  lemma JoinedIsReady(adj: seq<seq<nat>>, indeg: seq<int>, done: seq<nat>, queue: seq<nat>, pending: seq<nat>, v: nat)
    requires State(adj, indeg, done, queue, pending) && v in done + queue
    ensures v < |adj| && v !in pending && forall u: nat :: u < |adj| && v in adj[u] ==> u in done
  {
    hide In;
    var at :| 0 <= at < |done + queue| && (done + queue)[at] == v;
    assert indeg[v] == 0;
    CountZero(pending, v);
    NoneLeft(adj, Elements(done), v);
  }

  lemma NoneLeft(adj: seq<seq<nat>>, done: set<nat>, v: nat)
    requires In(adj, done, v) == 0
    ensures forall u: nat :: u < |adj| && v in adj[u] ==> u in done
  {
    InBelowZero(adj, |adj|, done, v);
  }

  lemma FifoTakes(adj: seq<seq<nat>>, indeg: seq<int>, done: seq<nat>, queue: seq<nat>)
    requires State(adj, indeg, done, queue, []) && queue != [] && Fifo(adj, done, queue) && queue[0] < |adj|
    ensures Fifo(adj, done + [queue[0]], queue[1..])
  {
    hide State, Joins, Ready;
    var u, all := queue[0], done + queue;
    assert done + [u] + queue[1..] == all;
    NotTaken(adj, indeg, done, queue);
    forall v | v in all ensures Ready(adj, done + [u], v) == Ready(adj, done, v) {
      JoinedIsReady(adj, indeg, done, queue, [], v);
      ReadySnoc(adj, done, u, v);
    }
    forall a, b | 0 <= a < b < |all| ensures Joins(adj, done + [u], all[a], all[b]) {
      assert Joins(adj, done, all[a], all[b]);
      SameJoins(adj, done, done + [u], all[a], all[b]);
    }
  }

  lemma NotTaken(adj: seq<seq<nat>>, indeg: seq<int>, done: seq<nat>, queue: seq<nat>)
    requires State(adj, indeg, done, queue, []) && queue != []
    ensures queue[0] !in done
  {
    NotYetTaken(done, queue);
  }

  lemma SameJoins(adj: seq<seq<nat>>, done: seq<nat>, done': seq<nat>, v: nat, w: nat)
    requires AllBelow(done, |adj|) && AllBelow(done', |adj|)
    requires Ready(adj, done, v) == Ready(adj, done', v) && Ready(adj, done, w) == Ready(adj, done', w)
    ensures Joins(adj, done, v, w) == Joins(adj, done', v, w)
  {
    hide Ready;
  }

  /** The node whose last edge is relaxed joins behind all others. */
  lemma FifoJoins(adj: seq<seq<nat>>, indeg: seq<int>, done: seq<nat>, queue: seq<nat>, j: nat)
    requires done != [] && done[|done| - 1] < |adj| && j < |adj[done[|done| - 1]]|
    requires State(adj, indeg, done, queue, adj[done[|done| - 1]][j..])
    requires Fifo(adj, done, queue) && AscendingLists(adj)
    ensures Fifo(adj, done, queue + [adj[done[|done| - 1]][j]])
  {
    hide State, Ready;
    var u := done[|done| - 1];
    var all, v := done + queue, adj[u][j];
    assert done + (queue + [v]) == all + [v];
    ReadyNow(adj, done, v);
    forall a | 0 <= a < |all| ensures Joins(adj, done, all[a], v) {
      var w := all[a];
      assert w in all;
      JoinedIsReady(adj, indeg, done, queue, adj[u][j..], w);
      ReadyNow(adj, done, w);
      if w in adj[u] {
        assert adj[u] == adj[u][..j] + adj[u][j..];
        assert w in adj[u][..j];
      }
    }
  }

  lemma ReadyNow(adj: seq<seq<nat>>, done: seq<nat>, v: nat)
    requires AllBelow(done, |adj|) && done != []
    ensures Ready(adj, done, v) <= |done| && (Ready(adj, done, v) == |done| <==> v in adj[done[|done| - 1]])
  {
  }

  // ----- Comparing walks -----

  function Init(p: seq<nat>): seq<nat>
    requires p != []
  {
    p[..|p| - 1]
  }

  function Final(p: seq<nat>): nat
    requires p != []
  {
    p[|p| - 1]
  }

  /** Shorter, or equally long and smaller where they first differ. */
  predicate Lower(p: seq<nat>, q: seq<nat>)
    decreases |p|
  {
    |p| < |q| ||
    (|p| == |q| && p != [] && (Lower(Init(p), Init(q)) || (Init(p) == Init(q) && Final(p) < Final(q))))
  }

  lemma SnocParts(p: seq<nat>, x: nat)
    ensures Init(p + [x]) == p && Final(p + [x]) == x
  {
  }

  lemma LowerSnoc(p: seq<nat>, x: nat, q: seq<nat>, y: nat)
    ensures Lower(p + [x], q + [y]) <==> Lower(p, q) || (p == q && x < y)
  {
    SnocParts(p, x);
    SnocParts(q, y);
  }

  lemma {:induction false} LowerTransitive(p: seq<nat>, q: seq<nat>, r: seq<nat>)
    requires Lower(p, q) && Lower(q, r)
    ensures Lower(p, r)
    decreases |p|
  {
    if |p| == |r| && Lower(Init(p), Init(q)) && Lower(Init(q), Init(r)) {
      LowerTransitive(Init(p), Init(q), Init(r));
    }
  }

  lemma {:induction false} LowerIrreflexive(p: seq<nat>)
    ensures !Lower(p, p)
    decreases |p|
  {
    if p != [] {
      LowerIrreflexive(Init(p));
    }
  }

  // ----- The greatest walk into a node -----

  /** The walk of predecessors that were taken last, ending in the node at position `b`. */
  function Greatest(adj: seq<seq<nat>>, done: seq<nat>, b: nat): (p: seq<nat>)
    requires AllBelow(done, |adj|) && b < |done|
    ensures p != [] && Final(p) == done[b]
    decreases b
  {
    var r := Ready(adj, done, done[b]);
    if r == 0 || r > b then [done[b]] else Greatest(adj, done, r - 1) + [done[b]]
  }

  /** A finished order without leftovers in the queue: predecessors first, and first in, first out. */
  ghost predicate Drained(adj: seq<seq<nat>>, done: seq<nat>) {
    && Distinct(done) && AllBelow(done, |adj|) && Ordered(adj, done)
    && InTurns(adj, done, done)
  }

  lemma FifoEnds(adj: seq<seq<nat>>, done: seq<nat>)
    requires Finished(adj, done) && Fifo(adj, done, [])
    ensures Drained(adj, done)
  {
    assert done + [] == done;
  }

  lemma ReadyBefore(adj: seq<seq<nat>>, done: seq<nat>, b: nat)
    requires Drained(adj, done) && b < |done|
    ensures Ready(adj, done, done[b]) <= b
  {
    hide Ready, Joins;
    var r := ReadyAt(adj, done, done[b]);
    if r > 0 {
      assert done[r - 1] in done[..b];
      var c :| 0 <= c < b && done[c] == done[r - 1];
      assert c == r - 1;
    }
  }

  lemma ReadyAt(adj: seq<seq<nat>>, done: seq<nat>, v: nat) returns (r: nat)
    requires AllBelow(done, |adj|)
    ensures r == Ready(adj, done, v) && r <= |done| && (r > 0 ==> v in adj[done[r - 1]])
    ensures forall i :: r <= i < |done| ==> v !in adj[done[i]]
  {
    r := Ready(adj, done, v);
  }

  lemma GreatestStep(adj: seq<seq<nat>>, done: seq<nat>, b: nat)
    requires Drained(adj, done) && b < |done|
    ensures var r := Ready(adj, done, done[b]);
            r <= b && Greatest(adj, done, b) == (if r == 0 then [] else Greatest(adj, done, r - 1)) + [done[b]]
  {
    hide Ready, Joins, Ordered, Distinct;
    ReadyBefore(adj, done, b);
  }

  lemma InTurn(adj: seq<seq<nat>>, done: seq<nat>, a: nat, b: nat)
    requires Drained(adj, done) && a < b < |done|
    ensures var ra, rb := Ready(adj, done, done[a]), Ready(adj, done, done[b]);
            ra < rb || (ra == rb && done[a] < done[b])
  {
    hide Ready, Ordered, Distinct;
  }

  /** Later nodes have greater walks. */
  lemma {:induction false} GreatestRises(adj: seq<seq<nat>>, done: seq<nat>, a: nat, b: nat)
    requires Drained(adj, done) && a < b < |done|
    ensures Lower(Greatest(adj, done, a), Greatest(adj, done, b))
    decreases b
  {
    hide Greatest, Ready, Lower, Joins, Ordered, Distinct;
    InTurn(adj, done, a, b);
    GreatestStep(adj, done, a);
    GreatestStep(adj, done, b);
    var ra, rb := Ready(adj, done, done[a]), Ready(adj, done, done[b]);
    var p := if ra == 0 then [] else Greatest(adj, done, ra - 1);
    var q := if rb == 0 then [] else Greatest(adj, done, rb - 1);
    if 0 < ra < rb {
      GreatestRises(adj, done, ra - 1, rb - 1);
    } else if 0 == ra < rb {
      EmptyLower(q);
    }
    LowerSnoc(p, done[a], q, done[b]);
  }

  lemma EmptyLower(q: seq<nat>)
    requires q != []
    ensures Lower([], q)
  {
  }

  lemma {:induction false} GreatestWalks(adj: seq<seq<nat>>, done: seq<nat>, b: nat)
    requires Drained(adj, done) && b < |done|
    ensures Walk(adj, Greatest(adj, done, b))
    decreases b
  {
    hide Ready, Greatest, InTurns, Ordered, Distinct, Walk;
    GreatestStep(adj, done, b);
    var r := ReadyAt(adj, done, done[b]);
    var p := if r == 0 then [] else Greatest(adj, done, r - 1);
    if r == 0 {
      EmptyWalk(adj);
    } else {
      GreatestWalks(adj, done, r - 1);
    }
    WalkExtends(adj, p, done[b]);
  }

  lemma EmptyWalk(adj: seq<seq<nat>>)
    ensures Walk(adj, [])
  {
  }

  lemma WalkInit(adj: seq<seq<nat>>, p: seq<nat>)
    requires Walk(adj, p) && |p| > 1
    ensures Walk(adj, Init(p)) && Final(Init(p)) < |adj| && Final(p) in adj[Final(Init(p))]
  {
    assert p[|p| - 2 + 1] in adj[p[|p| - 2]];
  }

  /** A predecessor of the node at position `b` was taken before the node was ready. */
  lemma TakenFirst(adj: seq<seq<nat>>, done: seq<nat>, b: nat, u: nat) returns (c: nat)
    requires Drained(adj, done) && b < |done| && u < |adj| && done[b] in adj[u]
    ensures c < b && done[c] == u && c < Ready(adj, done, done[b])
  {
    hide Ready, InTurns, Distinct;
    assert u in done[..b];
    c :| 0 <= c < b && done[c] == u;
    var r := ReadyAt(adj, done, done[b]);
  }

  predicate AtMost(p: seq<nat>, q: seq<nat>) {
    p == q || Lower(p, q)
  }

  /** No walk into a node is greater. */
  lemma {:induction false} GreatestIsGreatest(adj: seq<seq<nat>>, done: seq<nat>, b: nat, p: seq<nat>)
    requires Drained(adj, done) && b < |done| && Walk(adj, p) && p != [] && Final(p) == done[b]
    ensures AtMost(p, Greatest(adj, done, b))
    decreases |p|
  {
    hide Greatest, Ready, Lower, InTurns, Ordered, Distinct, Walk;
    GreatestStep(adj, done, b);
    var r := Ready(adj, done, done[b]);
    var q := if r == 0 then [] else Greatest(adj, done, r - 1);
    var init := Init(p);
    assert p == init + [done[b]];
    if init == [] {
      if q != [] {
        EmptyLower(q);
      }
    } else {
      WalkInit(adj, p);
      var c := TakenFirst(adj, done, b, Final(init));
      GreatestIsGreatest(adj, done, c, init);
      if c < r - 1 {
        GreatestRises(adj, done, c, r - 1);
        if init != Greatest(adj, done, c) {
          LowerTransitive(init, Greatest(adj, done, c), q);
        }
      }
    }
    LowerSnoc(init, done[b], q, done[b]);
  }

  /** Some walk into `w` is greater than every walk into `v`. */
  ghost predicate Outranked(adj: seq<seq<nat>>, v: nat, w: nat) {
    exists p: seq<nat> :: p != [] && Walk(adj, p) && Final(p) == w && Tops(adj, p, v)
  }

  ghost predicate Tops(adj: seq<seq<nat>>, p: seq<nat>, v: nat) {
    forall q: seq<nat> :: q != [] && Walk(adj, q) && Final(q) == v ==> Lower(q, p)
  }

  /** A node is taken before another exactly if the other has the greater walk. */
  lemma TakenBeforeIff(adj: seq<seq<nat>>, done: seq<nat>, a: nat, b: nat)
    requires Drained(adj, done) && a < |done| && b < |done|
    ensures a < b <==> Outranked(adj, done[a], done[b])
  {
    hide Greatest, Lower, Walk, Joins, Ordered, Distinct;
    var g, h := Greatest(adj, done, a), Greatest(adj, done, b);
    GreatestWalks(adj, done, a);
    GreatestWalks(adj, done, b);
    if a < b {
      GreatestRises(adj, done, a, b);
      forall q: seq<nat> | q != [] && Walk(adj, q) && Final(q) == done[a] ensures Lower(q, h) {
        GreatestIsGreatest(adj, done, a, q);
        if q != g {
          LowerTransitive(q, g, h);
        }
      }
      assert Tops(adj, h, done[a]);
    } else {
      forall p: seq<nat> | p != [] && Walk(adj, p) && Final(p) == done[b] ensures !Lower(g, p) {
        GreatestIsGreatest(adj, done, b, p);
        if b < a {
          GreatestRises(adj, done, b, a);
        }
        if Lower(g, p) {
          if p != h {
            LowerTransitive(g, p, h);
          }
          if b < a {
            LowerTransitive(g, h, g);
          }
          LowerIrreflexive(g);
        }
      }
    }
  }
}
