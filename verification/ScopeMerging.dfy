/** Bringing the changes of forked scopes back into the scope they were forked from. */
module ScopeMerging {
  import opened AllocationStates

  /** `a` with the names listed taken from `w`. */
  ghost function Blend(a: Flat, names: set<string>, w: Flat): (b: Flat)
    requires w.Keys == a.Keys
    ensures b.Keys == a.Keys
  {
    map n | n in a :: if n in names then w[n] else a[n]
  }

  ghost function Listed(names: seq<string>): set<string> {
    set n | n in names
  }

  lemma BlendNothing(a: Flat, w: Flat)
    requires w.Keys == a.Keys
    ensures Blend(a, {}, w) == a
  {
  }

  lemma NothingListed(names: seq<string>)
    ensures Listed(names[..0]) == {}
  {
  }

  lemma BlendNext(a: Flat, names: seq<string>, i: nat, w: Flat)
    requires w.Keys == a.Keys && i < |names|
    ensures var b := Blend(a, Listed(names[..i]), w);
            Blend(a, Listed(names[..i + 1]), w) == if names[i] in a then b[names[i] := w[names[i]]] else b
  {
    assert names[..i + 1] == names[..i] + [names[i]];
    assert Listed(names[..i + 1]) == Listed(names[..i]) + {names[i]};
  }

  lemma BlendAll(a: Flat, names: seq<string>, w: Flat)
    requires w.Keys == a.Keys && forall n :: n in a && n !in names ==> w[n] == a[n]
    ensures Blend(a, Listed(names[..|names|]), w) == w
  {
    assert names[..|names|] == names;
    assert forall n :: n in names <==> n in Listed(names);
  }

  /** `child` was forked from `scope`. */
  ghost predicate Forked(child: StateMap, scope: StateMap)
    reads child, child.chain
  {
    child.Valid() && child.parent == scope
  }

  /** The child shows its own entries over its parent's view. */
  lemma ChildView(child: StateMap, scope: StateMap)
    requires Forked(child, scope)
    ensures scope.Valid() && child != scope && scope.chain < child.chain
    ensures child.View() == scope.View() + Own(child.deltas)
    ensures forall n :: n in child.modified <==> n in Own(child.deltas)
  {
  }

  lemma ForkDistinct(child: StateMap)
    requires child.Valid()
    ensures forall i, j :: 0 <= i < j < |child.modified| ==> child.modified[i] != child.modified[j]
  {
  }

  /** Writing the parent leaves the child a valid fork with its own entries. */
  method SetBelow(scope: StateMap, ghost child: StateMap, name: string, t: Tracked)
    requires Forked(child, scope) && scope.Valid() && child != scope
    modifies scope
    ensures scope.Valid() && Forked(child, scope)
    ensures scope.View() == old(scope.View())[name := t]
  {
    scope.SetState(name, t);
  }

  /** One name of a straight run: the parent takes the child's state if it knows the name. */
  method TakeOver(target: StateMap, source: StateMap, name: string)
    requires Forked(source, target) && name in Own(source.deltas)
    modifies target
    ensures target.Valid() && Forked(source, target)
    ensures target.View() == if name in old(target.View())
                             then old(target.View())[name := Own(source.deltas)[name]]
                             else old(target.View())
  {
    hide Own, StateMap.Valid;
    ChildView(source, target);
    var known := target.HasVariable(name);
    if known {
      var t := source.GetState(name);
      if t.Some? {
        SetBelow(target, source, name, t.value);
      }
    }
  }

  /** After a straight run through a scope, its parent has the scope's states on the names it knew. */
  method MergeScopesLinear(target: StateMap, source: StateMap)
    requires Forked(source, target) && target.Valid()
    modifies target
    ensures target.Valid() && Forked(source, target)
    ensures target.View() == Restrict(old(source.View()), old(target.View()))
  {
    hide Own, StateMap.Valid, StateMap.View;
    ChildView(source, target);
    var names := source.modified;
    ghost var a, own := target.View(), Own(source.deltas);
    ghost var w := Restrict(a + own, a);
    BlendNothing(a, w);
    assert Listed(names[..0]) == {};
    var i := 0;
    while i < |names|
      invariant 0 <= i <= |names|
      invariant Forked(source, target) && target.Valid()
      invariant target.View() == Blend(a, Listed(names[..i]), w)
    {
      BlendNext(a, names, i, w);
      TakeOver(target, source, names[i]);
      i := i + 1;
    }
    BlendAll(a, names, w);
  }

  /** One name of an alternative: the parent merges the child's state into its own. */
  method MergeOne(target: StateMap, branch: StateMap, name: string)
    requires Forked(branch, target) && name in Own(branch.deltas)
    modifies target
    ensures target.Valid() && Forked(branch, target)
    ensures target.View() == if name in old(target.View())
                             then old(target.View())[name := Merge(old(target.View())[name], Own(branch.deltas)[name])]
                             else old(target.View())
  {
    hide Own, StateMap.Valid;
    ChildView(branch, target);
    var here := target.GetState(name);
    if here.Some? {
      var t := branch.GetState(name);
      if t.Some? {
        SetBelow(target, branch, name, Merge(here.value, t.value));
      }
    }
  }

  /** Without an else branch, the other path is the entry state. */
  method MergeScopesAlternative(target: StateMap, branch: StateMap)
    requires Forked(branch, target) && target.Valid()
    modifies target
    ensures target.Valid() && Forked(branch, target)
    ensures target.View() == MergeInto(old(target.View()), old(branch.View()))
  {
    hide Own, StateMap.Valid, StateMap.View;
    ChildView(branch, target);
    ForkDistinct(branch);
    var names := branch.modified;
    ghost var a, own := target.View(), Own(branch.deltas);
    ghost var w := MergeInto(a, a + own);
    BlendNothing(a, w);
    assert Listed(names[..0]) == {};
    var i := 0;
    while i < |names|
      invariant 0 <= i <= |names|
      invariant Forked(branch, target) && target.Valid()
      invariant target.View() == Blend(a, Listed(names[..i]), w)
    {
      BlendNext(a, names, i, w);
      NotYet(names, i);
      MergeOne(target, branch, names[i]);
      i := i + 1;
    }
    BlendAll(a, names, w);
  }

  lemma NotYet(names: seq<string>, i: nat)
    requires i < |names| && forall j :: 0 <= j < i ==> names[j] != names[i]
    ensures names[i] !in Listed(names[..i])
  {
  }

  // ----- Several branches -----

  /** All `prongs` were forked from `entry`. */
  ghost predicate AllForked(prongs: seq<StateMap>, entry: StateMap)
    reads set p | p in prongs, set p, q | p in prongs && q in p.chain :: q
  {
    forall i :: 0 <= i < |prongs| ==> Forked(prongs[i], entry)
  }

  ghost function Owns(prongs: seq<StateMap>): (o: seq<Flat>)
    reads set p | p in prongs
    ensures |o| == |prongs| && forall i :: 0 <= i < |prongs| ==> o[i] == Own(prongs[i].deltas)
  {
    if prongs == [] then [] else [Own(prongs[0].deltas)] + Owns(prongs[1..])
  }

  ghost function Shown(a: Flat, owns: seq<Flat>): (v: seq<Flat>)
    ensures |v| == |owns| && Covers(v, a)
    ensures forall i :: 0 <= i < |v| ==> v[i] == a + owns[i]
  {
    seq(|owns|, i requires 0 <= i < |owns| => a + owns[i])
  }

  /** The names set in any of the branches, each once. */
  method ModifiedInAny(prongs: seq<StateMap>) returns (names: seq<string>)
    ensures forall i, j :: 0 <= i < j < |names| ==> names[i] != names[j]
    ensures forall i, n :: 0 <= i < |prongs| && n in prongs[i].modified ==> n in names
    ensures forall n <- names :: exists i :: 0 <= i < |prongs| && n in prongs[i].modified
  {
    names := [];
    var i := 0;
    while i < |prongs|
      invariant 0 <= i <= |prongs|
      invariant forall i, j :: 0 <= i < j < |names| ==> names[i] != names[j]
      invariant forall k, n :: 0 <= k < i && n in prongs[k].modified ==> n in names
      invariant forall n <- names :: exists k :: 0 <= k < i && n in prongs[k].modified
    {
      var j := 0;
      while j < |prongs[i].modified|
        invariant 0 <= j <= |prongs[i].modified|
        invariant forall i, j :: 0 <= i < j < |names| ==> names[i] != names[j]
        invariant forall k, n :: 0 <= k < i && n in prongs[k].modified ==> n in names
        invariant forall n <- prongs[i].modified[..j] :: n in names
        invariant forall n <- names :: exists k :: 0 <= k <= i && n in prongs[k].modified
      {
        if prongs[i].modified[j] !in names {
          names := names + [prongs[i].modified[j]];
        }
        j := j + 1;
      }
      assert prongs[i].modified[..j] == prongs[i].modified;
      i := i + 1;
    }
  }

  method SetBelowAll(scope: StateMap, ghost prongs: seq<StateMap>, name: string, t: Tracked)
    requires AllForked(prongs, scope) && scope.Valid() && scope !in prongs
    modifies scope
    ensures scope.Valid() && AllForked(prongs, scope)
    ensures scope.View() == old(scope.View())[name := t]
  {
    hide Own;
    scope.SetState(name, t);
  }

  /** The states the branches give a name, merged from the first to the last. */
  method FoldStates(entry: StateMap, prongs: seq<StateMap>, name: string) returns (t: Tracked)
    requires prongs != [] && AllForked(prongs, entry) && entry.Valid() && name in entry.View()
    ensures t == Fold(Column(Shown(entry.View(), Owns(prongs)), entry.View(), name))
  {
    hide Own, StateMap.Valid, StateMap.View, Fold;
    ghost var c := Column(Shown(entry.View(), Owns(prongs)), entry.View(), name);
    ChildView(prongs[0], entry);
    var first := prongs[0].GetState(name);
    t := first.value;
    FoldStarts(c);
    var j := 1;
    while j < |prongs|
      invariant 1 <= j <= |prongs|
      invariant t == Fold(c[..j])
    {
      ChildView(prongs[j], entry);
      var next := prongs[j].GetState(name);
      FoldNext(c, j);
      t := Merge(t, next.value);
      j := j + 1;
    }
    assert c[..j] == c;
  }

  lemma FoldStarts(c: seq<Tracked>)
    requires c != []
    ensures Fold(c[..1]) == c[0]
  {
  }

  lemma FoldNext(c: seq<Tracked>, j: nat)
    requires 1 <= j < |c|
    ensures Fold(c[..j + 1]) == Merge(Fold(c[..j]), c[j])
  {
    assert c[..j + 1][..j] == c[..j];
  }

  /** After branching, the entry scope has the pointwise merge of the branches on the names it knew. */
  method MergeBranches(entry: StateMap, prongs: seq<StateMap>)
    requires prongs != [] && AllForked(prongs, entry) && entry.Valid() && entry !in prongs
    modifies entry
    ensures entry.Valid() && AllForked(prongs, entry)
    ensures entry.View() == JoinViews(Shown(old(entry.View()), old(Owns(prongs))), old(entry.View()))
  {
    hide Own, StateMap.Valid, StateMap.View, Fold, JoinViews, Shown, Blend, Listed, Merged, Forked;
    ghost var a, owns := entry.View(), Owns(prongs);
    ghost var w := JoinViews(Shown(a, owns), a);
    var names := ModifiedInAny(prongs);
    Untouched(entry, prongs, names);
    BlendNothing(a, w);
    NothingListed(names);
    var i := 0;
    while i < |names|
      invariant 0 <= i <= |names|
      invariant entry.Valid() && AllForked(prongs, entry)
      invariant Owns(prongs) == owns
      invariant entry.View() == Blend(a, Listed(names[..i]), w)
    {
      MergedNext(a, owns, names, i);
      MergeName(entry, prongs, names[i]);
      i := i + 1;
    }
    BlendAll(a, names, w);
  }

  /** `b` with one more name merged over the branches. */
  ghost function Merged(b: Flat, owns: seq<Flat>, n: string): Flat
    requires owns != []
  {
    if n in b then b[n := Fold(Column(Shown(b, owns), b, n))] else b
  }

  method MergeName(entry: StateMap, prongs: seq<StateMap>, name: string)
    requires prongs != [] && AllForked(prongs, entry) && entry.Valid() && entry !in prongs
    modifies entry
    ensures entry.Valid() && AllForked(prongs, entry) && Owns(prongs) == old(Owns(prongs))
    ensures entry.View() == Merged(old(entry.View()), old(Owns(prongs)), name)
  {
    hide Own, StateMap.Valid, StateMap.View, Fold;
    var known := entry.HasVariable(name);
    if known {
      var t := FoldStates(entry, prongs, name);
      SetBelowAll(entry, prongs, name, t);
    }
    assert Owns(prongs) == old(Owns(prongs));
  }

  lemma MergedNext(a: Flat, owns: seq<Flat>, names: seq<string>, i: nat)
    requires owns != [] && i < |names| && forall j :: 0 <= j < i ==> names[j] != names[i]
    ensures var w := JoinViews(Shown(a, owns), a);
            Merged(Blend(a, Listed(names[..i]), w), owns, names[i]) == Blend(a, Listed(names[..i + 1]), w)
  {
    hide Fold, Shown;
    var w := JoinViews(Shown(a, owns), a);
    var b := Blend(a, Listed(names[..i]), w);
    BlendNext(a, names, i, w);
    NotYet(names, i);
    if names[i] in a {
      SameColumn(b, a, owns, names[i]);
      JoinAt(Shown(a, owns), a, names[i]);
    }
  }

  lemma JoinAt(views: seq<Flat>, a: Flat, n: string)
    requires views != [] && Covers(views, a) && n in a
    ensures JoinViews(views, a)[n] == Fold(Column(views, a, n))
  {
  }

  lemma SameColumn(b: Flat, a: Flat, owns: seq<Flat>, n: string)
    requires n in a && n in b && a[n] == b[n]
    ensures Column(Shown(b, owns), b, n) == Column(Shown(a, owns), a, n)
  {
  }

  /** Names no branch has set keep their state in the merge. */
  lemma Untouched(entry: StateMap, prongs: seq<StateMap>, names: seq<string>)
    requires prongs != [] && AllForked(prongs, entry) && entry.Valid()
    requires forall i, n :: 0 <= i < |prongs| && n in prongs[i].modified ==> n in names
    ensures var a := entry.View();
            var w := JoinViews(Shown(a, Owns(prongs)), a);
            forall n :: n in a && n !in names ==> w[n] == a[n]
  {
    hide Own, StateMap.Valid, StateMap.View;
    var a := entry.View();
    var views := Shown(a, Owns(prongs));
    forall n | n in a && n !in names ensures JoinViews(views, a)[n] == a[n] {
      forall i | 0 <= i < |prongs| ensures Column(views, a, n)[i] == a[n] {
        ChildView(prongs[i], entry);
      }
      FoldSame(a[n], Column(views, a, n));
    }
  }
}
