/**
 Ordering the modules of a compilation: imports first, and whatever an import cycle holds up
 afterwards, in the order of discovery.
 */
module ModuleOrder {
  import opened Sequences
  import opened Options
  import opened Kahn

  /** Modules in discovery order: their names and the names they import. */
  datatype Unit = Unit(names: seq<string>, imports: seq<seq<string>>) {
    predicate Valid() {
      |names| == |imports|
    }
  }

  /** The first module called `x`. */
  function Resolve(names: seq<string>, x: string): (r: Option<nat>)
    ensures r.None? <==> x !in names
    ensures r.Some? ==> r.value < |names| && names[r.value] == x
    ensures r.Some? ==> forall k :: 0 <= k < r.value ==> names[k] != x
  {
    if names == [] then None
    else if names[0] == x then Some(0)
    else match Resolve(names[1..], x) case None => None case Some(k) => Some(k + 1)
  }

  /** Is `u` among the first `m` imports of `v`? */
  predicate ImportsWithin(c: Unit, v: nat, u: nat, m: nat)
    requires c.Valid() && v < |c.names| && m <= |c.imports[v]|
  {
    exists j :: 0 <= j < m && Resolve(c.names, c.imports[v][j]) == Some(u)
  }

  predicate Imports(c: Unit, v: nat, u: nat)
    requires c.Valid() && v < |c.names|
  {
    ImportsWithin(c, v, u, |c.imports[v]|)
  }

  predicate AllFound(c: Unit) {
    forall i, j :: 0 <= i < |c.imports| && 0 <= j < |c.imports[i]| ==> c.imports[i][j] in c.names
  }

  /** `v` is on an import cycle or imports one, directly or not: the walk goes from a module to an importer. */
  ghost predicate HeldByCycle(c: Unit, v: nat)
    requires c.Valid()
  {
    exists p: seq<nat> :: p != [] && ImportWalk(c, p) && p[|p| - 1] == v && Repeats(p)
  }

  predicate ImportWalk(c: Unit, p: seq<nat>)
    requires c.Valid()
  {
    AllBelow(p, |c.names|) && forall i :: 0 <= i < |p| - 1 ==> Imports(c, p[i + 1], p[i])
  }

  // ----- Building the edges -----

  /** How many imports of `v` have been seen when import `j` of module `i` is next. */
  function Seen(c: Unit, v: nat, i: nat, j: nat): nat
    requires c.Valid() && v < |c.names|
  {
    if v < i then |c.imports[v]| else if v == i && j <= |c.imports[v]| then j else 0
  }

  /** The edges recorded so far, each from an imported module to its importer. */
  ghost predicate Recorded(c: Unit, adj: seq<seq<nat>>, i: nat, j: nat)
    requires c.Valid() && |adj| == |c.names|
  {
    forall u: nat, v: nat :: u < |adj| && v < |adj| ==> (v in adj[u] <==> ImportsWithin(c, v, u, Seen(c, v, i, j)))
  }

  ghost predicate Built(c: Unit, adj: seq<seq<nat>>, indeg: seq<int>, i: nat, j: nat) {
    && c.Valid() && |adj| == |c.names| && Graph(adj)
    && Degrees(adj, indeg, {}, [])
    && Recorded(c, adj, i, j)
  }

  lemma BuiltStarts(c: Unit, adj: seq<seq<nat>>, indeg: seq<int>)
    requires c.Valid() && |adj| == |indeg| == |c.names|
    requires (forall u :: 0 <= u < |adj| ==> adj[u] == []) && (forall u :: 0 <= u < |indeg| ==> indeg[u] == 0)
    ensures Built(c, adj, indeg, 0, 0)
  {
    forall v: nat | v < |adj| ensures In(adj, {}, v) == 0 {
      NoEdges(adj, |adj|, v);
    }
  }

  lemma BuiltStep(c: Unit, adj: seq<seq<nat>>, indeg: seq<int>, i: nat, j: nat, u: nat)
    requires Built(c, adj, indeg, i, j) && i < |c.names| && j < |c.imports[i]|
    requires Resolve(c.names, c.imports[i][j]) == Some(u)
    ensures Built(c, adj[u := [i] + adj[u]], indeg[i := indeg[i] + 1], i, j + 1)
  {
    hide Resolve;
    var s := [i] + adj[u];
    var adj' := adj[u := s];
    var indeg' := indeg[i := indeg[i] + 1];
    forall w ensures Count(s, w) == Count(adj[u], w) + (if w == i then 1 else 0) {
      assert s[1..] == adj[u];
    }
    forall v: nat | v < |adj| ensures indeg'[v] == In(adj', {}, v) + Count([], v) {
      InBelowAdd(adj, |adj|, u, s, i, v);
    }
    RecordedStep(c, adj, i, j, u);
  }

  lemma RecordedStep(c: Unit, adj: seq<seq<nat>>, i: nat, j: nat, u: nat)
    requires c.Valid() && |adj| == |c.names| && Recorded(c, adj, i, j) && i < |c.names| && j < |c.imports[i]|
    requires u < |adj| && Resolve(c.names, c.imports[i][j]) == Some(u)
    ensures Recorded(c, adj[u := [i] + adj[u]], i, j + 1)
  {
    hide Resolve, ImportsWithin;
    var adj' := adj[u := [i] + adj[u]];
    forall w: nat, v: nat | w < |adj| && v < |adj|
      ensures v in adj'[w] <==> ImportsWithin(c, v, w, Seen(c, v, i, j + 1))
    {
      assert v in adj[w] <==> ImportsWithin(c, v, w, Seen(c, v, i, j));
      assert v in adj'[w] <==> v in adj[w] || (w == u && v == i);
      if v == i {
        OneMoreImport(c, i, w, j);
        assert Seen(c, v, i, j + 1) == j + 1;
      } else {
        assert Seen(c, v, i, j + 1) == Seen(c, v, i, j);
      }
    }
  }

  lemma OneMoreImport(c: Unit, i: nat, w: nat, j: nat)
    requires c.Valid() && i < |c.names| && j < |c.imports[i]|
    ensures ImportsWithin(c, i, w, j + 1) <==> ImportsWithin(c, i, w, j) || Resolve(c.names, c.imports[i][j]) == Some(w)
  {
    hide Resolve;
  }

  lemma BuiltNextModule(c: Unit, adj: seq<seq<nat>>, indeg: seq<int>, i: nat)
    requires c.Valid() && i < |c.names| && Built(c, adj, indeg, i, |c.imports[i]|)
    ensures Built(c, adj, indeg, i + 1, 0)
  {
    hide ImportsWithin;
    forall u: nat, v: nat | u < |adj| && v < |adj|
      ensures v in adj[u] <==> ImportsWithin(c, v, u, Seen(c, v, i + 1, 0))
    {
      assert Seen(c, v, i + 1, 0) == Seen(c, v, i, |c.imports[i]|);
    }
  }

  method BuildEdges(c: Unit) returns (ok: bool, adj: array<seq<nat>>, indeg: array<int>)
    requires c.Valid()
    ensures ok <==> AllFound(c)
    ensures fresh(adj) && fresh(indeg) && adj.Length == indeg.Length == |c.names|
    ensures ok ==> Built(c, adj[..], indeg[..], |c.names|, 0)
  {
    hide Resolve, Built;
    var n := |c.names|;
    adj := new seq<nat>[n](_ => []);
    indeg := new int[n](_ => 0);
    BuiltStarts(c, adj[..], indeg[..]);
    var i := 0;
    while i < n
      invariant 0 <= i <= n
      invariant Built(c, adj[..], indeg[..], i, 0)
      invariant forall a, b :: 0 <= a < i && 0 <= b < |c.imports[a]| ==> c.imports[a][b] in c.names
    {
      var j := 0;
      while j < |c.imports[i]|
        invariant 0 <= j <= |c.imports[i]|
        invariant Built(c, adj[..], indeg[..], i, j)
        invariant forall b :: 0 <= b < j ==> c.imports[i][b] in c.names
      {
        var dep := FindModule(c.names, c.imports[i][j]);
        if dep.None? {
          return false, adj, indeg;
        }
        ghost var before, degrees := adj[..], indeg[..];
        adj[dep.value] := [i] + adj[dep.value];
        indeg[i] := indeg[i] + 1;
        assert adj[..] == before[dep.value := [i] + before[dep.value]];
        assert indeg[..] == degrees[i := degrees[i] + 1];
        BuiltStep(c, before, degrees, i, j, dep.value);
        j := j + 1;
      }
      BuiltNextModule(c, adj[..], indeg[..], i);
      i := i + 1;
    }
    return true, adj, indeg;
  }

  method FindModule(names: seq<string>, x: string) returns (r: Option<nat>)
    ensures r == Resolve(names, x)
    ensures r.None? <==> x !in names
    ensures r.Some? ==> r.value < |names|
  {
    var k := 0;
    while k < |names|
      invariant 0 <= k <= |names|
      invariant forall i :: 0 <= i < k ==> names[i] != x
    {
      if names[k] == x {
        return Some(k);
      }
      k := k + 1;
    }
    return None;
  }

  // ----- Taking the modules -----

  /** The modules nothing holds up, in discovery order. */
  method Seed(indeg: array<int>, queue: array<nat>) returns (tail: nat)
    requires queue.Length == indeg.Length
    modifies queue
    ensures tail <= queue.Length
    ensures Distinct(queue[..tail]) && AllBelow(queue[..tail], indeg.Length) && Queued(indeg[..], queue[..tail])
  {
    tail := 0;
    var i := 0;
    while i < indeg.Length
      invariant 0 <= i <= indeg.Length && tail <= i
      invariant Distinct(queue[..tail]) && AllBelow(queue[..tail], i)
      invariant forall v: nat :: v < i ==> (v in queue[..tail] <==> indeg[v] == 0)
    {
      if indeg[i] == 0 {
        ghost var before := queue[..tail];
        queue[tail] := i;
        tail := tail + 1;
        assert queue[..tail] == before + [i];
      }
      i := i + 1;
    }
  }

  method Drain(ghost c: seq<seq<nat>>, adj: array<seq<nat>>, indeg: array<int>, queue: array<nat>, first: nat)
    returns (sorted: seq<nat>)
    requires adj[..] == c && indeg.Length == queue.Length == |c| && first <= queue.Length
    requires State(c, indeg[..], [], queue[..first], [])
    modifies indeg, queue
    ensures Finished(c, sorted)
  {
    hide State;
    var head, tail := 0, first;
    sorted := [];
    while head < tail
      invariant head <= tail <= queue.Length && adj[..] == c
      invariant sorted == queue[..head]
      invariant State(c, indeg[..], sorted, queue[head..tail], [])
      decreases queue.Length - head
    {
      TakesNext(c, indeg[..], sorted, queue[head..tail]);
      var u := queue[head];
      assert queue[head..tail][0] == u && queue[head..tail][1..] == queue[head + 1..tail];
      head := head + 1;
      sorted := sorted + [u];
      tail := RelaxAll(c, sorted, adj[u], indeg, queue, head, tail);
    }
    assert queue[head..tail] == [];
    Finishes(c, indeg[..], sorted);
  }

  /** One pass over an adjacency list; the queue never holds more entries than there are modules. */
  method RelaxAll(ghost c: seq<seq<nat>>, ghost sorted: seq<nat>, edges: seq<nat>, indeg: array<int>, queue: array<nat>,
                  head: nat, tail: nat) returns (tail': nat)
    requires indeg.Length == queue.Length == |c|
    requires head <= tail <= queue.Length && sorted == queue[..head]
    requires State(c, indeg[..], sorted, queue[head..tail], edges)
    modifies indeg, queue
    ensures tail <= tail' <= queue.Length && queue[..head] == sorted
    ensures State(c, indeg[..], sorted, queue[head..tail'], [])
  {
    hide State;
    tail' := tail;
    var e := 0;
    assert edges[0..] == edges;
    while e < |edges|
      invariant 0 <= e <= |edges| && tail <= tail' <= queue.Length && queue[..head] == sorted
      invariant State(c, indeg[..], sorted, queue[head..tail'], edges[e..])
    {
      Relaxes(c, indeg[..], sorted, queue[head..tail'], edges[e..]);
      assert edges[e..][0] == edges[e] && edges[e..][1..] == edges[e + 1..];
      var v := edges[e];
      ghost var degrees, waiting := indeg[..], queue[head..tail'];
      indeg[v] := indeg[v] - 1;
      assert indeg[..] == degrees[v := degrees[v] - 1];
      if indeg[v] == 0 {
        Capacity(c, indeg[..], sorted, waiting + [v], edges[e + 1..]);
        queue[tail'] := v;
        tail' := tail' + 1;
        assert queue[head..tail'] == waiting + [v];
      }
      e := e + 1;
    }
    assert edges[e..] == [];
  }

  predicate Increasing(s: seq<nat>) {
    forall i, j :: 0 <= i < j < |s| ==> s[i] < s[j]
  }

  /** Appends what is missing, in discovery order. */
  method AppendRest(n: nat, sorted: seq<nat>) returns (order: seq<nat>)
    requires Distinct(sorted) && AllBelow(sorted, n)
    ensures |order| == n && Distinct(order) && AllBelow(order, n)
    ensures sorted <= order && Increasing(order[|sorted|..])
  {
    order := sorted;
    if |sorted| != n {
      var i := 0;
      while i < n
        invariant 0 <= i <= n
        invariant Distinct(order) && AllBelow(order, n)
        invariant sorted <= order && Increasing(order[|sorted|..]) && AllBelow(order[|sorted|..], i)
        invariant forall v :: 0 <= v < i ==> v in order
      {
        if i !in order {
          DistinctExtends(order, i);
          assert (order + [i])[|sorted|..] == order[|sorted|..] + [i];
          order := order + [i];
        }
        i := i + 1;
      }
      Pigeonhole(order, n);
      AllTaken(order, n);
    } else {
      assert order[|sorted|..] == [];
    }
  }

  lemma AllTaken(order: seq<nat>, n: nat)
    requires Distinct(order) && forall v :: 0 <= v < n ==> v in order
    ensures |order| >= n
  {
    NodesAre(n);
    ElementsSize(order);
    assert Nodes(n) <= Elements(order);
    SubsetSize(Nodes(n), Elements(order));
  }

  lemma BuiltState(c: Unit, adj: seq<seq<nat>>, indeg: seq<int>, queue: seq<nat>)
    requires Built(c, adj, indeg, |c.names|, 0)
    requires Distinct(queue) && AllBelow(queue, |adj|) && Queued(indeg, queue)
    ensures State(adj, indeg, [], queue, [])
    ensures |adj| == |c.names| && EdgesAreImports(c, adj)
  {
    hide Degrees;
    Starts(adj, indeg, queue);
    forall u: nat, v: nat | u < |adj| && v < |adj| ensures v in adj[u] <==> Imports(c, v, u) {
      assert Seen(c, v, |c.names|, 0) == |c.imports[v]|;
    }
  }

  ghost predicate EdgesAreImports(c: Unit, adj: seq<seq<nat>>)
    requires c.Valid()
  {
    |adj| == |c.names| && forall u: nat, v: nat :: u < |adj| && v < |adj| ==> (v in adj[u] <==> Imports(c, v, u))
  }

  lemma WalksAgree(c: Unit, adj: seq<seq<nat>>, p: seq<nat>)
    requires c.Valid() && EdgesAreImports(c, adj)
    ensures Walk(adj, p) <==> ImportWalk(c, p)
  {
    hide Imports;
    if AllBelow(p, |adj|) {
      assert forall i :: 0 <= i < |p| - 1 ==> (p[i + 1] in adj[p[i]] <==> Imports(c, p[i + 1], p[i]));
    }
  }

  lemma HeldIff(c: Unit, adj: seq<seq<nat>>, v: nat)
    requires c.Valid() && EdgesAreImports(c, adj)
    ensures BehindCycle(adj, v) <==> HeldByCycle(c, v)
  {
    hide Walk, ImportWalk, Repeats, EdgesAreImports;
    forall p: seq<nat> ensures Walk(adj, p) <==> ImportWalk(c, p) {
      WalksAgree(c, adj, p);
    }
  }

  lemma SortedOrder(c: Unit, adj: seq<seq<nat>>, sorted: seq<nat>)
    requires c.Valid() && EdgesAreImports(c, adj) && Finished(adj, sorted)
    ensures Distinct(sorted) && AllBelow(sorted, |c.names|) && ImportsFirst(c, sorted)
    ensures forall v: nat :: v < |c.names| ==> (v in sorted <==> !HeldByCycle(c, v))
  {
    hide Imports, BehindCycle, HeldByCycle;
    forall v: nat | v < |c.names| ensures v in sorted <==> !HeldByCycle(c, v) {
      LeftOverIff(adj, sorted, v);
      HeldIff(c, adj, v);
    }
    forall i, u: nat | 0 <= i < |sorted| && u < |c.names| && Imports(c, sorted[i], u) ensures u in sorted[..i] {
      assert sorted[i] in adj[u];
    }
  }

  /**
   The order is a permutation of the modules.  In its first `settled` places every module comes after all
   its imports; the rest, in discovery order, are exactly the modules held up by an import cycle.
   */
  method SortModules(c: Unit) returns (r: Option<seq<nat>>, settled: nat)
    requires c.Valid()
    ensures r.None? <==> !AllFound(c)
    ensures r.Some? ==>
              var order := r.value;
              |order| == |c.names| && Distinct(order) && AllBelow(order, |c.names|)
              && settled <= |order| && ImportsFirst(c, order[..settled])
              && Increasing(order[settled..])
              && forall v: nat :: v < |c.names| ==> (v in order[..settled] <==> !HeldByCycle(c, v))
  {
    hide Built, State, Finished;
    settled := 0;
    var ok, adj, indeg := BuildEdges(c);
    if !ok {
      return None, 0;
    }
    ghost var g := adj[..];
    assert Built(c, g, indeg[..], |c.names|, 0);
    var queue := new nat[|c.names|];
    var tail := Seed(indeg, queue);
    BuiltState(c, g, indeg[..], queue[..tail]);
    var sorted := Drain(g, adj, indeg, queue, tail);
    SortedOrder(c, g, sorted);
    var order := AppendRest(|c.names|, sorted);
    assert order[..|sorted|] == sorted;
    return Some(order), |sorted|;
  }

  /** Every import of a listed module is listed before it. */
  predicate ImportsFirst(c: Unit, order: seq<nat>)
    requires c.Valid()
  {
    AllBelow(order, |c.names|) &&
    forall i, u: nat :: 0 <= i < |order| && u < |c.names| && Imports(c, order[i], u) ==> u in order[..i]
  }
}
