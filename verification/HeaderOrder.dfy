/**
 Ordering the types of a C header along the recorded dependencies: the struct, union, enum, slice and tuple types
 a type contains by value come before it, unless that is circular, in which case the old order stays.  The
 optionals and error unions it contains are looked through and record no dependency of their own; exactly when
 they come first as well is `ContainedFirstIff`.
 */
module HeaderOrder {
  import opened Sequences
  import opened Options
  import opened Kahn
  import opened KahnOrder

  /** Types as the dependency search sees them; `id` is a type's identity. */
  datatype Type =
    | Null
    | Pointer(id: nat)
    | FunctionLike(id: nat)
    | Optional(id: nat, payload: Type)
    | ErrorUnion(id: nat, payload: Type, errors: Type)
    | ByValue(id: nat)

  /** What the search records for a member of type `t`: it looks through optionals and error unions. */
  function Contained(t: Type): set<Type> {
    match t
    case Null => {}
    case Pointer(_) => {}
    case FunctionLike(_) => {}
    case Optional(_, p) => Contained(p)
    case ErrorUnion(_, p, e) => Contained(p) + Contained(e)
    case ByValue(_) => {t}
  }

  function ContainedIn(members: seq<Type>): set<Type> {
    if members == [] then {} else Contained(members[0]) + ContainedIn(members[1..])
  }

  function First(types: seq<Type>, t: Type): (r: Option<nat>)
    ensures r.None? <==> t !in types
    ensures r.Some? ==> r.value < |types| && types[r.value] == t && t !in types[..r.value]
  {
    if types == [] then None
    else if types[0] == t then Some(0)
    else match First(types[1..], t) case None => None case Some(k) => Some(k + 1)
  }

  /** Header `k` is another header's first entry for some type in `inside`. */
  predicate Hits(types: seq<Type>, inside: set<Type>, k: nat, j: nat) {
    k != j && k < |types| && types[k] in inside && First(types, types[k]) == Some(k)
  }

  /** Header `j` depends by value on header `k`. */
  predicate DependsOn(types: seq<Type>, members: seq<seq<Type>>, j: nat, k: nat)
    requires j < |members|
  {
    Hits(types, ContainedIn(members[j]), k, j)
  }

  // ----- Recording the edges -----

  function Size(t: Type): nat {
    match t
    case Optional(_, p) => 1 + Size(p)
    case ErrorUnion(_, p, e) => 1 + Size(p) + Size(e)
    case _ => 1
  }

  function TotalSize(ts: seq<Type>): nat {
    if ts == [] then 0 else Size(ts[0]) + TotalSize(ts[1..])
  }

  lemma {:induction false} Appended(a: seq<Type>, b: seq<Type>)
    ensures ContainedIn(a + b) == ContainedIn(a) + ContainedIn(b)
    ensures TotalSize(a + b) == TotalSize(a) + TotalSize(b)
  {
    if a == [] {
      assert a + b == b;
    } else {
      Appended(a[1..], b);
      assert (a + b)[1..] == a[1..] + b;
    }
  }

  /** The edges after headers below `j`, and for `j` the contained types in `seen`. */
  ghost predicate Recorded(types: seq<Type>, members: seq<seq<Type>>, adj: seq<seq<nat>>, j: nat, seen: set<Type>)
    requires |adj| == |types| == |members|
  {
    forall k: nat, v: nat :: k < |adj| && v < |adj| ==>
      (v in adj[k] <==> (v < j && DependsOn(types, members, v, k)) || (v == j && Hits(types, seen, k, j)))
  }

  ghost predicate Built(
    types: seq<Type>, members: seq<seq<Type>>, adj: seq<seq<nat>>, indeg: seq<int>, j: nat, seen: set<Type>) {
    && |adj| == |types| == |members| && Graph(adj)
    && Degrees(adj, indeg, {}, [])
    && AscendingLists(adj)
    && Recorded(types, members, adj, j, seen)
  }

  lemma BuiltStarts(types: seq<Type>, members: seq<seq<Type>>, adj: seq<seq<nat>>, indeg: seq<int>)
    requires |adj| == |indeg| == |types| == |members|
    requires (forall u :: 0 <= u < |adj| ==> adj[u] == []) && (forall u :: 0 <= u < |indeg| ==> indeg[u] == 0)
    ensures Built(types, members, adj, indeg, 0, {})
  {
    forall v: nat | v < |adj| ensures In(adj, {}, v) == 0 {
      NoEdges(adj, |adj|, v);
    }
  }

  lemma BuiltAdds(
    types: seq<Type>, members: seq<seq<Type>>, adj: seq<seq<nat>>, indeg: seq<int>, j: nat, seen: set<Type>, k: nat)
    requires Built(types, members, adj, indeg, j, seen) && j < |types| && k < |types| && k != j
    requires First(types, types[k]) == Some(k) && j !in adj[k]
    ensures Built(types, members, adj[k := adj[k] + [j]], indeg[j := indeg[j] + 1], j, seen + {types[k]})
  {
    hide First, DependsOn;
    var s := adj[k] + [j];
    var adj', indeg' := adj[k := s], indeg[j := indeg[j] + 1];
    forall w ensures Count(s, w) == Count(adj[k], w) + (if w == j then 1 else 0) {
      CountConcat(adj[k], [j], w);
      assert Count([j][1..], w) == 0;
    }
    forall v: nat | v < |adj| ensures indeg'[v] == In(adj', {}, v) + Count([], v) {
      InBelowAdd(adj, |adj|, k, s, j, v);
    }
    forall i | 0 <= i < |adj[k]| ensures adj[k][i] < j {
      assert adj[k][i] in adj[k] && adj[k][i] < |adj|;
    }
    RecordedAdds(types, members, adj, j, seen, k);
  }

  lemma RecordedAdds(types: seq<Type>, members: seq<seq<Type>>, adj: seq<seq<nat>>, j: nat, seen: set<Type>, k: nat)
    requires |adj| == |types| == |members| && Recorded(types, members, adj, j, seen)
    requires j < |types| && k < |types| && k != j && First(types, types[k]) == Some(k)
    ensures Recorded(types, members, adj[k := adj[k] + [j]], j, seen + {types[k]})
  {
    hide First, DependsOn;
    var adj' := adj[k := adj[k] + [j]];
    var seen' := seen + {types[k]};
    forall w: nat, v: nat | w < |adj| && v < |adj|
      ensures v in adj'[w] <==> (v < j && DependsOn(types, members, v, w)) || (v == j && Hits(types, seen', w, j))
    {
      assert v in adj'[w] <==> v in adj[w] || (w == k && v == j);
      assert Hits(types, seen', w, j) <==> Hits(types, seen, w, j) || (w == k);
    }
  }

  /** Contained types that are no header, the header itself, or already recorded add no edge. */
  lemma BuiltSkips(
    types: seq<Type>, members: seq<seq<Type>>, adj: seq<seq<nat>>, indeg: seq<int>, j: nat, seen: set<Type>, t: Type)
    requires Built(types, members, adj, indeg, j, seen) && j < |types|
    requires var k := First(types, t); k.None? || k.value == j || j in adj[k.value]
    ensures Built(types, members, adj, indeg, j, seen + {t})
  {
    hide First, DependsOn;
    FirstFacts(types, t);
    var k := First(types, t);
    forall w: nat, v: nat | w < |adj| && v < |adj|
      ensures v in adj[w] <==> (v < j && DependsOn(types, members, v, w)) || (v == j && Hits(types, seen + {t}, w, j))
    {
      assert v in adj[w] <==> (v < j && DependsOn(types, members, v, w)) || (v == j && Hits(types, seen, w, j));
      assert Hits(types, seen + {t}, w, j) <==> Hits(types, seen, w, j) || (w != j && k == Some(w));
    }
  }

  lemma FirstFacts(types: seq<Type>, t: Type)
    ensures var r := First(types, t);
            (r.None? <==> t !in types) && (r.Some? ==> r.value < |types| && types[r.value] == t)
  {
  }

  lemma BuiltNext(types: seq<Type>, members: seq<seq<Type>>, adj: seq<seq<nat>>, indeg: seq<int>, j: nat)
    requires j < |members| && Built(types, members, adj, indeg, j, ContainedIn(members[j]))
    ensures Built(types, members, adj, indeg, j + 1, {})
  {
    hide First, ContainedIn;
    forall k: nat, v: nat | k < |adj| && v < |adj|
      ensures v in adj[k] <==>
              (v < j + 1 && DependsOn(types, members, v, k)) || (v == j + 1 && Hits(types, {}, k, j + 1))
    {
      assert v in adj[k] <==>
             (v < j && DependsOn(types, members, v, k)) || (v == j && Hits(types, ContainedIn(members[j]), k, j));
    }
  }

  method FindHeader(types: seq<Type>, t: Type) returns (r: Option<nat>)
    ensures r == First(types, t)
    ensures r.Some? ==> r.value < |types| && types[r.value] == t
  {
    var i := 0;
    while i < |types|
      invariant 0 <= i <= |types|
      invariant forall a :: 0 <= a < i ==> types[a] != t
    {
      if types[i] == t {
        return Some(i);
      }
      i := i + 1;
    }
    return None;
  }

  /** The dependencies of header `j`: the list grows while it is walked. */
  method RecordHeader(
    types: seq<Type>, ghost members: seq<seq<Type>>, direct: seq<Type>, j: nat, adj0: seq<seq<nat>>, indeg0: seq<int>)
    returns (adj: seq<seq<nat>>, indeg: seq<int>)
    requires j < |types| && Built(types, members, adj0, indeg0, j, {})
    ensures Built(types, members, adj, indeg, j, ContainedIn(direct))
  {
    hide First, Built;
    adj, indeg := adj0, indeg0;
    var deps := direct;
    var d := 0;
    ghost var seen: set<Type> := {};
    assert deps[0..] == deps;
    while d < |deps|
      invariant 0 <= d <= |deps|
      invariant Built(types, members, adj, indeg, j, seen)
      invariant seen + ContainedIn(deps[d..]) == ContainedIn(direct)
      decreases TotalSize(deps[d..])
    {
      ghost var before := deps[d..];
      var dep := deps[d];
      assert before[0] == dep && before[1..] == deps[d + 1..];
      if dep.Optional? {
        Appended(deps[d + 1..], [dep.payload]);
        Singleton(dep.payload);
        deps := deps + [dep.payload];
        assert deps[d + 1..] == before[1..] + [dep.payload];
      } else if dep.ErrorUnion? {
        Appended(deps[d + 1..], [dep.payload, dep.errors]);
        Pair(dep.payload, dep.errors);
        deps := deps + [dep.payload, dep.errors];
        assert deps[d + 1..] == before[1..] + [dep.payload, dep.errors];
      } else if dep.ByValue? {
        var k := FindHeader(types, dep);
        SameSize(types, members, adj, indeg, j, seen);
        if k.Some? && k.value != j && j !in adj[k.value] {
          BuiltAdds(types, members, adj, indeg, j, seen, k.value);
          adj := adj[k.value := adj[k.value] + [j]];
          indeg := indeg[j := indeg[j] + 1];
        } else {
          BuiltSkips(types, members, adj, indeg, j, seen, dep);
        }
        seen := seen + {dep};
      }
      d := d + 1;
    }
    assert deps[d..] == [];
  }

  lemma SameSize(
    types: seq<Type>, members: seq<seq<Type>>, adj: seq<seq<nat>>, indeg: seq<int>, j: nat, seen: set<Type>)
    requires Built(types, members, adj, indeg, j, seen)
    ensures |adj| == |types| == |members| == |indeg|
  {
  }

  lemma Singleton(t: Type)
    ensures ContainedIn([t]) == Contained(t) && TotalSize([t]) == Size(t)
  {
    assert [t][1..] == [];
  }

  lemma Pair(t: Type, u: Type)
    ensures ContainedIn([t, u]) == Contained(t) + Contained(u) && TotalSize([t, u]) == Size(t) + Size(u)
  {
    assert [t, u] == [t] + [u];
    Appended([t], [u]);
    Singleton(t);
    Singleton(u);
  }

  // ----- Sorting -----

  ghost predicate EdgesAreDependencies(types: seq<Type>, members: seq<seq<Type>>, adj: seq<seq<nat>>) {
    |adj| == |types| == |members| &&
    forall k: nat, v: nat :: k < |adj| && v < |adj| ==> (v in adj[k] <==> DependsOn(types, members, v, k))
  }

  /** A chain of headers, each depending on the one before it. */
  predicate Chain(types: seq<Type>, members: seq<seq<Type>>, p: seq<nat>) {
    AllBelow(p, |members|) && forall i :: 0 <= i < |p| - 1 ==> DependsOn(types, members, p[i + 1], p[i])
  }

  ghost predicate Circular(types: seq<Type>, members: seq<seq<Type>>) {
    exists p: seq<nat> :: Chain(types, members, p) && Repeats(p)
  }

  /** Everything a header depends on stands before it. */
  predicate DependenciesFirst(types: seq<Type>, members: seq<seq<Type>>, order: seq<nat>) {
    AllBelow(order, |members|) &&
    forall i, k: nat :: 0 <= i < |order| && k < |types| && DependsOn(types, members, order[i], k) ==> k in order[..i]
  }

  lemma BuiltState(types: seq<Type>, members: seq<seq<Type>>, adj: seq<seq<nat>>, indeg: seq<int>, queue: seq<nat>)
    requires Built(types, members, adj, indeg, |types|, {})
    requires Distinct(queue) && AllBelow(queue, |adj|) && Queued(indeg, queue)
    ensures State(adj, indeg, [], queue, [])
    ensures EdgesAreDependencies(types, members, adj) && AscendingLists(adj)
  {
    hide DependsOn, Degrees;
    Starts(adj, indeg, queue);
  }

  lemma ChainsAgree(types: seq<Type>, members: seq<seq<Type>>, adj: seq<seq<nat>>, p: seq<nat>)
    requires EdgesAreDependencies(types, members, adj)
    ensures Walk(adj, p) <==> Chain(types, members, p)
  {
    hide DependsOn;
    if AllBelow(p, |adj|) {
      assert forall i :: 0 <= i < |p| - 1 ==> (p[i + 1] in adj[p[i]] <==> DependsOn(types, members, p[i + 1], p[i]));
    }
  }

  lemma SortedIff(types: seq<Type>, members: seq<seq<Type>>, adj: seq<seq<nat>>, sorted: seq<nat>)
    requires EdgesAreDependencies(types, members, adj) && Finished(adj, sorted)
    ensures |sorted| == |types| <==> !Circular(types, members)
    ensures |sorted| <= |types| && Distinct(sorted) && DependenciesFirst(types, members, sorted)
  {
    hide DependsOn, BehindCycle, Repeats;
    Pigeonhole(sorted, |adj|);
    forall i, k: nat | 0 <= i < |sorted| && k < |types| && DependsOn(types, members, sorted[i], k)
      ensures k in sorted[..i]
    {
      assert sorted[i] in adj[k];
    }
    if |sorted| == |types| {
      forall p: seq<nat> | Chain(types, members, p) ensures !Repeats(p) {
        CompleteChain(types, members, adj, sorted, p);
      }
    } else {
      var v := Missing(sorted, |adj|);
      LeftOverIff(adj, sorted, v);
      FromWalk(types, members, adj, v);
    }
  }

  lemma CompleteChain(types: seq<Type>, members: seq<seq<Type>>, adj: seq<seq<nat>>, sorted: seq<nat>, p: seq<nat>)
    requires EdgesAreDependencies(types, members, adj) && Finished(adj, sorted) && |sorted| == |adj|
    requires Chain(types, members, p)
    ensures !Repeats(p)
  {
    hide EdgesAreDependencies, DependsOn;
    ChainsAgree(types, members, adj, p);
    Pigeonhole(sorted, |adj|);
    if p != [] {
      TakenWalk(adj, sorted, p);
    }
  }

  lemma FromWalk(types: seq<Type>, members: seq<seq<Type>>, adj: seq<seq<nat>>, v: nat)
    requires EdgesAreDependencies(types, members, adj) && BehindCycle(adj, v)
    ensures Circular(types, members)
  {
    hide EdgesAreDependencies, Repeats;
    var p: seq<nat> :| p != [] && Walk(adj, p) && p[|p| - 1] == v && Repeats(p);
    ChainsAgree(types, members, adj, p);
  }

  lemma Missing(s: seq<nat>, n: nat) returns (v: nat)
    requires Distinct(s) && AllBelow(s, n) && |s| < n
    ensures v < n && v !in s
  {
    NodesAre(n);
    ElementsSize(s);
    assert Nodes(n) != Elements(s);
    assert Elements(s) <= Nodes(n);
    assert !(Nodes(n) <= Elements(s));
    v :| v in Nodes(n) && v !in Elements(s);
  }

  method Seed(indeg: seq<int>) returns (queue: seq<nat>)
    ensures Distinct(queue) && AllBelow(queue, |indeg|) && Queued(indeg, queue) && Ascending(queue)
  {
    queue := [];
    var j := 0;
    while j < |indeg|
      invariant 0 <= j <= |indeg|
      invariant Distinct(queue) && AllBelow(queue, j) && Ascending(queue)
      invariant forall v: nat :: v < j ==> (v in queue <==> indeg[v] == 0)
    {
      if indeg[j] == 0 {
        queue := queue + [j];
      }
      j := j + 1;
    }
  }

  method Drain(adj: seq<seq<nat>>, indeg0: seq<int>, queue0: seq<nat>) returns (sorted: seq<nat>)
    requires State(adj, indeg0, [], queue0, []) && AscendingLists(adj) && Ascending(queue0)
    ensures Finished(adj, sorted) && Drained(adj, sorted)
  {
    hide State, Finished, Fifo, AscendingLists;
    FifoStarts(adj, queue0);
    var indeg, queue := indeg0, queue0;
    sorted := [];
    while |queue| > 0
      invariant State(adj, indeg, sorted, queue, []) && Fifo(adj, sorted, queue)
      invariant |sorted| <= |adj|
      decreases |adj| - |sorted|
    {
      Capacity(adj, indeg, sorted, queue, []);
      TakesNext(adj, indeg, sorted, queue);
      FifoTakes(adj, indeg, sorted, queue);
      var u := queue[0];
      queue := queue[1..];
      sorted := sorted + [u];
      var j := 0;
      assert adj[u][0..] == adj[u];
      while j < |adj[u]|
        invariant 0 <= j <= |adj[u]|
        invariant State(adj, indeg, sorted, queue, adj[u][j..]) && Fifo(adj, sorted, queue)
      {
        FifoJoins(adj, indeg, sorted, queue, j);
        Relaxes(adj, indeg, sorted, queue, adj[u][j..]);
        assert adj[u][j..][0] == adj[u][j] && adj[u][j..][1..] == adj[u][j + 1..];
        var v := adj[u][j];
        indeg := indeg[v := indeg[v] - 1];
        if indeg[v] == 0 {
          queue := queue + [v];
        }
        j := j + 1;
      }
      assert adj[u][j..] == [];
    }
    Finishes(adj, indeg, sorted);
    FifoEnds(adj, sorted);
  }

  /** Header `j` has a chain of dependencies greater than every one that header `k` has. */
  ghost predicate Outranks(types: seq<Type>, members: seq<seq<Type>>, j: nat, k: nat) {
    exists p: seq<nat> :: p != [] && Chain(types, members, p) && Final(p) == j && TopsChains(types, members, p, k)
  }

  ghost predicate TopsChains(types: seq<Type>, members: seq<seq<Type>>, p: seq<nat>, k: nat) {
    forall q: seq<nat> :: q != [] && Chain(types, members, q) && Final(q) == k ==> Lower(q, p)
  }

  /** What the sort leaves: the headers by rank, or as they were if dependencies are circular. */
  ghost predicate Arranged(types: seq<Type>, members: seq<seq<Type>>, order: seq<nat>) {
    && |order| == |types| == |members| && Distinct(order) && AllBelow(order, |types|)
    && (!Circular(types, members) ==>
          forall a, b :: 0 <= a < |order| && 0 <= b < |order| ==>
            (a < b <==> Outranks(types, members, order[b], order[a])))
    && (Circular(types, members) ==> forall i :: 0 <= i < |order| ==> order[i] == i)
  }

  lemma RanksAgree(types: seq<Type>, members: seq<seq<Type>>, adj: seq<seq<nat>>, j: nat, k: nat)
    requires EdgesAreDependencies(types, members, adj)
    ensures Outranked(adj, k, j) <==> Outranks(types, members, j, k)
  {
    hide Walk, Chain, EdgesAreDependencies, Lower;
    forall p: seq<nat> ensures Walk(adj, p) <==> Chain(types, members, p) {
      ChainsAgree(types, members, adj, p);
    }
    forall p: seq<nat> ensures Tops(adj, p, k) <==> TopsChains(types, members, p, k) {
    }
  }

  lemma ArrangedByRank(types: seq<Type>, members: seq<seq<Type>>, adj: seq<seq<nat>>, order: seq<nat>)
    requires EdgesAreDependencies(types, members, adj) && Drained(adj, order) && |order| == |types|
    requires !Circular(types, members)
    ensures Arranged(types, members, order)
  {
    hide EdgesAreDependencies, Outranks, Outranked, Joins, Ordered, Circular;
    SizesAgree(types, members, adj);
    forall a, b | 0 <= a < |order| && 0 <= b < |order| ensures a < b <==> Outranks(types, members, order[b], order[a]) {
      TakenBeforeIff(adj, order, a, b);
      RanksAgree(types, members, adj, order[b], order[a]);
    }
  }

  lemma SizesAgree(types: seq<Type>, members: seq<seq<Type>>, adj: seq<seq<nat>>)
    requires EdgesAreDependencies(types, members, adj)
    ensures |adj| == |types| == |members|
  {
  }

  /**
   `members[j]` lists what header type `j` is made of, in the order of its declaration; `adj` are the recorded
   edges.
   */
  method SortHeaders(types: seq<Type>, members: seq<seq<Type>>) returns (order: seq<nat>, ghost adj: seq<seq<nat>>)
    requires |types| == |members|
    ensures |order| == |types| && Distinct(order) && AllBelow(order, |types|)
    ensures !Circular(types, members) ==> DependenciesFirst(types, members, order)
    ensures Circular(types, members) ==> forall i :: 0 <= i < |order| ==> order[i] == i
    ensures Arranged(types, members, order)
    ensures EdgesAreDependencies(types, members, adj) && (!Circular(types, members) ==> Drained(adj, order))
  {
    hide Built, First, State, Finished, Drained, Outranks, EdgesAreDependencies, DependenciesFirst, Circular;
    var edges: seq<seq<nat>> := seq(|types|, _ => []);
    var indeg: seq<int> := seq(|types|, _ => 0);
    BuiltStarts(types, members, edges, indeg);
    var j := 0;
    while j < |types|
      invariant 0 <= j <= |types|
      invariant Built(types, members, edges, indeg, j, {})
    {
      edges, indeg := RecordHeader(types, members, members[j], j, edges, indeg);
      BuiltNext(types, members, edges, indeg, j);
      j := j + 1;
    }
    SameSize(types, members, edges, indeg, j, {});
    var queue := Seed(indeg);
    BuiltState(types, members, edges, indeg, queue);
    var sorted := Drain(edges, indeg, queue);
    adj := edges;
    SortedIff(types, members, edges, sorted);
    if |sorted| == |types| {
      ArrangedByRank(types, members, edges, sorted);
      order := sorted;
    } else {
      order := seq(|types|, i => i);
    }
  }

  // ----- Optionals and error unions -----

  /** Everything a member of type `t` contains by value, optionals and error unions included. */
  function Within(t: Type): set<Type> {
    match t
    case Null => {}
    case Pointer(_) => {}
    case FunctionLike(_) => {}
    case Optional(_, p) => {t} + Within(p)
    case ErrorUnion(_, p, e) => {t} + Within(p) + Within(e)
    case ByValue(_) => {t}
  }

  function WithinAll(members: seq<Type>): set<Type> {
    if members == [] then {} else Within(members[0]) + WithinAll(members[1..])
  }

  /** Header `j` contains header `k` by value. */
  predicate Contains(types: seq<Type>, members: seq<seq<Type>>, j: nat, k: nat)
    requires j < |members|
  {
    Hits(types, WithinAll(members[j]), k, j)
  }

  /** Every header contained in another by value stands before it. */
  predicate ContainedFirst(types: seq<Type>, members: seq<seq<Type>>, order: seq<nat>) {
    AllBelow(order, |members|) &&
    forall i, k: nat :: 0 <= i < |order| && k < |types| && Contains(types, members, order[i], k) ==> k in order[..i]
  }

  /**
   Everything contained by value stands first exactly if each header that contains another outranks it, or, where
   dependencies are circular, was listed after it.
   */
  lemma ContainedFirstIff(types: seq<Type>, members: seq<seq<Type>>, order: seq<nat>)
    requires Arranged(types, members, order)
    ensures !Circular(types, members) ==>
      (ContainedFirst(types, members, order) <==>
       forall j: nat, k: nat :: j < |members| && Contains(types, members, j, k) ==> Outranks(types, members, j, k))
    ensures Circular(types, members) ==>
      (ContainedFirst(types, members, order) <==>
       forall j: nat, k: nat :: j < |members| && Contains(types, members, j, k) ==> k < j)
  {
    hide Contains, Outranks, Circular, Arranged;
    ContainsHeaders(types, members);
    PositionsIn(types, members, order);
    if ContainedFirst(types, members, order) {
      forall j: nat, k: nat | j < |members| && Contains(types, members, j, k)
        ensures if Circular(types, members) then k < j else Outranks(types, members, j, k)
      {
        var b := IndexIn(order, j);
        assert Contains(types, members, order[b], k);
        BeforeIff(types, members, order, b, k);
      }
    }
    forall b: nat, k: nat | b < |order| && k < |types| && Contains(types, members, order[b], k)
      ensures k in order[..b] <==> if Circular(types, members) then k < order[b]
        else Outranks(types, members, order[b], k)
    {
      BeforeIff(types, members, order, b, k);
    }
  }

  lemma PositionsIn(types: seq<Type>, members: seq<seq<Type>>, order: seq<nat>)
    requires Arranged(types, members, order)
    ensures |types| == |members| && AllBelow(order, |members|) && forall j: nat :: j < |members| ==> j in order
  {
    hide Outranks, Circular;
    Pigeonhole(order, |types|);
  }

  lemma BeforeIff(types: seq<Type>, members: seq<seq<Type>>, order: seq<nat>, b: nat, k: nat)
    requires Arranged(types, members, order) && b < |order| && k < |types|
    ensures k in order[..b] <==> if Circular(types, members) then k < order[b]
      else Outranks(types, members, order[b], k)
  {
    hide Outranks, Circular;
    Pigeonhole(order, |types|);
    FrontIff(order, b, k);
  }

  lemma FrontIff(order: seq<nat>, b: nat, k: nat)
    requires Distinct(order) && b <= |order| && k in order
    ensures k in order[..b] <==> IndexIn(order, k) < b
  {
    if k in order[..b] {
      var c :| 0 <= c < b && order[c] == k;
      SamePosition(order, k, c);
    }
    if IndexIn(order, k) < b {
      assert order[..b][IndexIn(order, k)] == k;
    }
  }

  lemma ContainsHeaders(types: seq<Type>, members: seq<seq<Type>>)
    ensures forall j: nat, k: nat :: j < |members| && Contains(types, members, j, k) ==> k < |types|
  {
  }

  lemma {:induction false} RecordedWithin(t: Type, u: Type)
    ensures Contained(t) <= Within(t) && (u in Within(t) ==> Contained(u) <= Contained(t))
  {
    match t
    case Optional(_, p) => RecordedWithin(p, u);
    case ErrorUnion(_, p, e) =>
      RecordedWithin(p, u);
      RecordedWithin(e, u);
    case _ =>
  }

  lemma {:induction false} RecordedWithinAll(ts: seq<Type>, u: Type)
    ensures u in WithinAll(ts) ==> Contained(u) <= ContainedIn(ts)
  {
    if ts != [] {
      RecordedWithin(ts[0], u);
      RecordedWithinAll(ts[1..], u);
    }
  }

  /** The members of an optional or error union are its payload and errors. */
  predicate Listed(t: Type, ms: seq<Type>) {
    (t.Optional? ==> ms == [t.payload]) && (t.ErrorUnion? ==> ms == [t.payload, t.errors])
  }

  lemma ListedRecords(t: Type, ms: seq<Type>)
    requires (t.Optional? || t.ErrorUnion?) && Listed(t, ms)
    ensures ContainedIn(ms) == Contained(t)
  {
    if t.Optional? {
      Singleton(t.payload);
    } else {
      Pair(t.payload, t.errors);
    }
  }

  /** An optional or error union listed before a header that contains it, and not containing it, stays before it. */
  lemma ListedFirstStays(types: seq<Type>, members: seq<seq<Type>>, adj: seq<seq<nat>>, order: seq<nat>, a: nat, b: nat)
    requires EdgesAreDependencies(types, members, adj) && Drained(adj, order) && a < |order| && b < |order|
    requires (types[order[a]].Optional? || types[order[a]].ErrorUnion?) && Listed(types[order[a]], members[order[a]])
    requires Contains(types, members, order[b], order[a]) && order[a] < order[b]
    requires !DependsOn(types, members, order[a], order[b])
    ensures a < b
  {
    hide First, Ready, Contained, ContainedIn, Within, WithinAll;
    var k, j := order[a], order[b];
    ListedRecords(types[k], members[k]);
    RecordedWithinAll(members[j], types[k]);
    var rk := ReadyAt(adj, order, k);
    var rj := ReadyAt(adj, order, j);
    if rk > 0 {
      var u := order[rk - 1];
      assert k in adj[u] && DependsOn(types, members, k, u);
      assert DependsOn(types, members, j, u);
      assert j in adj[order[rk - 1]];
    }
    assert rk <= rj;
    if b < a {
      InTurn(adj, order, b, a);
    }
  }

  /** Three headers: `A = struct { x: ?B }`, `B = struct { p: *A }` and `?B`. */
  function ExampleTypes(): seq<Type> {
    var b := ByValue(1);
    [ByValue(0), b, Optional(2, b)]
  }

  function ExampleMembers(): seq<seq<Type>> {
    [[Optional(2, ByValue(1))], [Pointer(3)], [ByValue(1)]]
  }

  lemma ExampleDependencies()
    ensures forall j: nat, k: nat :: j < 3 ==>
      (DependsOn(ExampleTypes(), ExampleMembers(), j, k) <==> k == 1 && (j == 0 || j == 2))
    ensures Contains(ExampleTypes(), ExampleMembers(), 0, 2)
  {
    var ts, ms := ExampleTypes(), ExampleMembers();
    Singleton(ms[0][0]);
    Singleton(ms[1][0]);
    Singleton(ms[2][0]);
    assert WithinAll(ms[0]) == Within(ms[0][0]) by {
      assert ms[0][1..] == [];
    }
    assert ts[1..][0] == ts[1] && ts[1..][1..][0] == ts[2];
    assert First(ts, ts[1]) == Some(1) && First(ts, ts[2]) == Some(2);
  }

  lemma ExampleChains(p: seq<nat>)
    requires Chain(ExampleTypes(), ExampleMembers(), p) && p != []
    ensures p == [Final(p)] || p == [1, Final(p)]
    ensures !Repeats(p)
  {
    hide Chain;
    if |p| > 1 {
      ExampleStep(p, 0);
      if |p| > 2 {
        ExampleStep(p, 1);
        assert false;
      }
      assert p == [1, p[1]];
    }
  }

  lemma ExampleStep(p: seq<nat>, i: nat)
    requires Chain(ExampleTypes(), ExampleMembers(), p) && i + 1 < |p|
    ensures p[i] == 1 && p[i + 1] != 1
  {
    hide DependsOn;
    ExampleDependencies();
    assert DependsOn(ExampleTypes(), ExampleMembers(), p[i + 1], p[i]);
  }

  /** There `?B` ends up behind `A`, which contains it. */
  lemma OptionalMisplaced(order: seq<nat>)
    requires Arranged(ExampleTypes(), ExampleMembers(), order)
    ensures !Circular(ExampleTypes(), ExampleMembers())
    ensures Contains(ExampleTypes(), ExampleMembers(), 0, 2) && !ContainedFirst(ExampleTypes(), ExampleMembers(), order)
  {
    hide DependsOn, Contains, ContainedFirst, Lower;
    var ts, ms := ExampleTypes(), ExampleMembers();
    forall p: seq<nat> | Chain(ts, ms, p) ensures !Repeats(p) {
      if p != [] {
        ExampleChains(p);
      }
    }
    ExampleDependencies();
    var q: seq<nat> := [1, 2];
    assert Chain(ts, ms, q);
    forall p: seq<nat> | p != [] && Chain(ts, ms, p) && Final(p) == 0 ensures !Lower(q, p) {
      ExampleChains(p);
      NotLower();
    }
    ContainedFirstIff(ts, ms, order);
  }

  lemma NotLower()
    ensures !Lower([1, 2], [0]) && !Lower([1, 2], [1, 0])
  {
    assert [1, 2] == [1] + [2] && [1, 0] == [1] + [0];
    LowerSnoc([1], 2, [1], 0);
    LowerIrreflexive([1]);
  }
}
