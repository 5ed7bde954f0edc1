/**
 Allocation states of pointer variables, kept as a chain of per-scope deltas.  `View` is the
 plain map a chain stands for.
 */
module AllocationStates {
  import opened Options

  datatype AllocState = Unknown | Uninitialized | Allocated | Freed | Transferred

  /** A tracked pointer: its state, the depth it was declared at, whether it was returned, where it was freed. */
  datatype Tracked = Tracked(state: AllocState, depth: nat, returned: bool, firstFree: nat)

  type Flat = map<string, Tracked>

  // ----- Merging -----

  function MergeStates(a: AllocState, b: AllocState): AllocState {
    if a == b then a else Unknown
  }

  function Merge(a: Tracked, b: Tracked): Tracked {
    if a.state == b.state then a
    else
      var s := MergeStates(a.state, b.state);
      if s == Unknown then a.(state := s, firstFree := 0) else a.(state := s)
  }

  /** Merging along a list, first to last. */
  function Fold(ts: seq<Tracked>): Tracked
    requires ts != []
  {
    if |ts| == 1 then ts[0] else Merge(Fold(ts[..|ts| - 1]), ts[|ts| - 1])
  }

  /** The fold keeps a state only if all agree on it. */
  lemma {:induction false} FoldIsJoin(ts: seq<Tracked>)
    requires ts != []
    ensures Fold(ts).state == if forall t <- ts :: t.state == ts[0].state then ts[0].state else Unknown
  {
    if |ts| > 1 {
      var init, last := ts[..|ts| - 1], ts[|ts| - 1];
      FoldIsJoin(init);
      assert init[0] == ts[0];
      assert forall t <- ts :: t in init || t == last;
    }
  }

  /** Neither the order of the merged states nor repetition matters. */
  lemma FoldAnyOrder(ts: seq<Tracked>, us: seq<Tracked>)
    requires ts != [] && us != [] && forall t :: t in ts <==> t in us
    ensures Fold(ts).state == Fold(us).state
  {
    FoldIsJoin(ts);
    FoldIsJoin(us);
    assert ts[0] in us && us[0] in ts;
  }

  lemma {:induction false} FoldSame(t: Tracked, ts: seq<Tracked>)
    requires ts != [] && forall i :: 0 <= i < |ts| ==> ts[i] == t
    ensures Fold(ts) == t
  {
    if |ts| > 1 {
      FoldSame(t, ts[..|ts| - 1]);
    }
  }

  /** All views know every name of `a`. */
  predicate Covers(views: seq<Flat>, a: Flat) {
    forall i :: 0 <= i < |views| ==> a.Keys <= views[i].Keys
  }

  function Column(views: seq<Flat>, a: Flat, n: string): (c: seq<Tracked>)
    requires Covers(views, a) && n in a
    ensures |c| == |views| && forall i :: 0 <= i < |c| ==> c[i] == views[i][n]
  {
    seq(|views|, i requires 0 <= i < |views| => views[i][n])
  }

  /** The pointwise join of several views, on the names of `a`. */
  function JoinViews(views: seq<Flat>, a: Flat): (j: Flat)
    requires views != [] && Covers(views, a)
    ensures j.Keys == a.Keys
  {
    map n | n in a :: Fold(Column(views, a, n))
  }

  /** The states `v` gives the names of `a`. */
  function Restrict(v: Flat, a: Flat): (r: Flat)
    ensures r.Keys == a.Keys
  {
    map n | n in a :: if n in v then v[n] else a[n]
  }

  /** The pointwise merge of `a` with what `v` says about its names. */
  function MergeInto(a: Flat, v: Flat): (r: Flat)
    ensures r.Keys == a.Keys
  {
    map n | n in a :: if n in v then Merge(a[n], v[n]) else a[n]
  }

  // ----- One scope's own entries -----

  type Deltas = seq<(string, Tracked)>

  function Own(ds: Deltas): Flat {
    if ds == [] then map[] else Own(ds[1..])[ds[0].0 := ds[0].1]
  }

  predicate DistinctNames(ds: Deltas) {
    forall i, j :: 0 <= i < j < |ds| ==> ds[i].0 != ds[j].0
  }

  lemma {:induction false} OwnKeys(ds: Deltas)
    ensures forall n :: n in Own(ds) <==> exists i :: 0 <= i < |ds| && ds[i].0 == n
  {
    if ds != [] {
      OwnKeys(ds[1..]);
      forall n ensures n in Own(ds) <==> exists i :: 0 <= i < |ds| && ds[i].0 == n {
        if n in Own(ds[1..]) {
          var i :| 0 <= i < |ds[1..]| && ds[1..][i].0 == n;
          assert ds[i + 1].0 == n;
        }
        if i :| 0 <= i < |ds| && ds[i].0 == n {
          assert i > 0 ==> ds[1..][i - 1].0 == n;
        }
      }
    }
  }

  lemma {:induction false} OwnAt(ds: Deltas, i: nat, t: Tracked)
    requires DistinctNames(ds) && i < |ds|
    ensures ds[i].0 in Own(ds) && Own(ds)[ds[i].0] == ds[i].1
    ensures Own(ds[i := (ds[i].0, t)]) == Own(ds)[ds[i].0 := t]
  {
    if i > 0 {
      assert ds[1..][i - 1] == ds[i];
      assert DistinctNames(ds[1..]);
      OwnAt(ds[1..], i - 1, t);
      assert ds[i := (ds[i].0, t)][1..] == ds[1..][i - 1 := (ds[i].0, t)];
    } else {
      assert ds[0 := (ds[0].0, t)][1..] == ds[1..];
    }
  }

  ghost predicate Lists(names: seq<string>, keys: set<string>) {
    (forall i, j :: 0 <= i < j < |names| ==> names[i] != names[j]) && forall n :: n in names <==> n in keys
  }

  lemma ReplacesEntry(ds: Deltas, i: nat, t: Tracked, names: seq<string>)
    requires DistinctNames(ds) && i < |ds| && Lists(names, Own(ds).Keys)
    ensures var ds' := ds[i := (ds[i].0, t)];
            DistinctNames(ds') && Own(ds') == Own(ds)[ds[i].0 := t] && Lists(names, Own(ds').Keys)
  {
    OwnAt(ds, i, t);
    assert Own(ds)[ds[i].0 := t].Keys == Own(ds).Keys;
  }

  lemma AddsEntry(ds: Deltas, n: string, t: Tracked, names: seq<string>)
    requires DistinctNames(ds) && (forall j :: 0 <= j < |ds| ==> ds[j].0 != n) && Lists(names, Own(ds).Keys)
    ensures var ds' := [(n, t)] + ds;
            DistinctNames(ds') && Own(ds') == Own(ds)[n := t] && Lists(names + [n], Own(ds').Keys)
  {
    OwnKeys(ds);
    assert ([(n, t)] + ds)[1..] == ds;
    assert n !in names;
  }

  // ----- The chain -----

  class StateMap {
    var deltas: Deltas             // newest first
    var modified: seq<string>      // names set in this scope
    const parent: StateMap?
    ghost const depth: nat
    ghost const chain: set<StateMap>

    ghost predicate Valid()
      reads this, chain
      decreases depth
    {
      && this in chain
      && (parent == null ==> chain == {this})
      && (parent != null ==>
            parent.depth < depth && parent in chain && this !in parent.chain && chain == {this} + parent.chain
            && parent.Valid())
      && DistinctNames(deltas)
      && Lists(modified, Own(deltas).Keys)
    }

    /** The flat map of the whole chain. */
    ghost function View(): Flat
      requires Valid()
      reads this, chain
      decreases depth
    {
      Above() + Own(deltas)
    }

    /** The flat map of the enclosing scopes. */
    ghost function Above(): Flat
      requires Valid()
      reads this, chain
      decreases depth, 0
    {
      if parent == null then map[] else parent.View()
    }

    constructor (p: StateMap?)
      requires p != null ==> p.Valid()
      ensures Valid() && parent == p && deltas == []
      ensures View() == if p == null then map[] else p.View()
      ensures chain == {this} + if p == null then {} else p.chain
    {
      deltas, modified, parent := [], [], p;
      depth := if p == null then 0 else p.depth + 1;
      chain := {this} + if p == null then {} else p.chain;
    }

    lemma Parts()
      requires Valid()
      ensures DistinctNames(deltas) && Lists(modified, Own(deltas).Keys) && View() == Above() + Own(deltas)
    {
      hide Own, Lists, DistinctNames;
    }

    /** Other entries in this scope leave the enclosing scopes alone. */
    method Store(ds: Deltas, names: seq<string>)
      requires Valid() && DistinctNames(ds) && Lists(names, Own(ds).Keys)
      modifies this
      ensures Valid() && deltas == ds && Above() == old(Above())
    {
      hide Own, Lists, DistinctNames;
      deltas, modified := ds, names;
    }

    method SetState(name: string, t: Tracked)
      requires Valid()
      modifies this
      ensures Valid()
      ensures Own(deltas) == old(Own(deltas))[name := t]
      ensures View() == old(View())[name := t]
    {
      hide Own, Lists, DistinctNames, StateMap.Valid, StateMap.View, StateMap.Above;
      Parts();
      var i := 0;
      while i < |deltas|
        invariant 0 <= i <= |deltas|
        invariant forall j :: 0 <= j < i ==> deltas[j].0 != name
      {
        if deltas[i].0 == name {
          ReplacesEntry(deltas, i, t, modified);
          Store(deltas[i := (name, t)], modified);
          Parts();
          return;
        }
        i := i + 1;
      }
      AddsEntry(deltas, name, t, modified);
      Store([(name, t)] + deltas, modified + [name]);
      Parts();
    }

    method GetState(name: string) returns (r: Option<Tracked>)
      requires Valid()
      ensures r == if name in View() then Some(View()[name]) else None
      decreases depth
    {
      OwnKeys(deltas);
      var i := 0;
      while i < |deltas|
        invariant 0 <= i <= |deltas|
        invariant forall j :: 0 <= j < i ==> deltas[j].0 != name
      {
        if deltas[i].0 == name {
          OwnAt(deltas, i, deltas[i].1);
          return Some(deltas[i].1);
        }
        i := i + 1;
      }
      assert name !in Own(deltas);
      if parent != null {
        r := parent.GetState(name);
      } else {
        r := None;
      }
    }

    method HasVariable(name: string) returns (r: bool)
      requires Valid()
      ensures r <==> name in View()
    {
      var t := GetState(name);
      r := t.Some?;
    }

    method Fork() returns (child: StateMap)
      requires Valid()
      ensures fresh(child) && child.Valid() && child.parent == this
      ensures child.View() == View() && child.deltas == []
    {
      child := new StateMap(this);
    }
  }
}
