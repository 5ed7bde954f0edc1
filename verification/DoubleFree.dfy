/**
 The double-free analyser on code without loops, defers and error handling: what it computes on
 flat maps, and the visitor that computes it on a chain of scopes.
 */
module DoubleFree {
  import opened Options
  import opened AllocationStates
  import opened ScopeMerging

  datatype Rhs = Alloc | Var(y: string) | Value

  /** `site` is the position of a call that frees; a switch statement need not have an else prong. */
  datatype Stmt =
    | Decl(x: string, isPointer: bool, init: Option<Rhs>)
    | Assign(x: string, rhs: Rhs)
    | Compound(x: string)                     // x += ..., and the like
    | Free(x: string, site: nat)
    | HandOver(xs: seq<string>)
    | Return(result: Option<string>)
    | Block(ss: seq<Stmt>)
    | If(thenBranch: Stmt, elseBranch: Option<Stmt>)
    | Switch(prongs: seq<Stmt>, hasElse: bool)

  // ----- What the analyser computes -----

  /** A free of a freed pointer, or of one never given a value. */
  datatype Report = Again(site: nat) | Unset(site: nat)

  datatype Result = Result(view: Flat, reports: set<Report>)

  predicate Holds(a: Flat, x: string, s: AllocState) {
    x in a && a[x].state == s
  }

  function Declared(a: Flat, depth: nat, x: string, init: Option<Rhs>): Flat {
    match init
    case None => a[x := Tracked(Uninitialized, depth, false, 0)]
    case Some(Alloc) => a[x := Tracked(Allocated, depth, false, 0)]
    case Some(Value) => a[x := Tracked(Unknown, depth, false, 0)]
    case Some(Var(y)) =>
      if Holds(a, y, Allocated) then a[y := a[y].(state := Transferred)][x := a[y].(depth := depth)]
      else a[x := Tracked(Unknown, depth, false, 0)]
  }

  function Assigned(a: Flat, depth: nat, x: string, rhs: Rhs): Flat {
    match rhs
    case Alloc =>
      a[x := if x in a then a[x].(state := Allocated, returned := false) else Tracked(Allocated, depth, false, 0)]
    case Value => if x in a then a[x := a[x].(state := Unknown)] else a
    case Var(y) =>
      if x in a then a[x := a[x].(state := Unknown)]
      else if Holds(a, y, Allocated) then a[x := a[y]][y := a[y].(state := Transferred)]
      else a
  }

  /** A compound assignment only makes the analyser forget allocated pointers. */
  function AfterCompound(a: Flat, x: string): Flat {
    if Holds(a, x, Allocated) then a[x := a[x].(state := Unknown)] else a
  }

  function AfterFree(a: Flat, x: string, site: nat): Flat {
    if Holds(a, x, Allocated) then a[x := a[x].(state := Freed, firstFree := site)] else a
  }

  function AtFree(a: Flat, x: string, site: nat): set<Report> {
    if Holds(a, x, Freed) then {Again(site)} else if Holds(a, x, Uninitialized) then {Unset(site)} else {}
  }

  function HandedOver(a: Flat, xs: seq<string>): (b: Flat)
    ensures a.Keys <= b.Keys
    ensures forall x :: x in b && b[x].state == Freed ==> x in a && a[x].state == Freed
  {
    if xs == [] then a
    else
      var x := xs[0];
      var given := Holds(a, x, Allocated) || Holds(a, x, Uninitialized);
      HandedOver(if given then a[x := a[x].(state := Transferred)] else a, xs[1..])
  }

  function Analyse(s: Stmt, a: Flat, depth: nat): (r: Result)
    ensures a.Keys <= r.view.Keys
    decreases s, 0
  {
    match s
    case Decl(x, isPointer, init) => Result(if isPointer then Declared(a, depth, x, init) else a, {})
    case Assign(x, rhs) => Result(Assigned(a, depth, x, rhs), {})
    case Compound(x) => Result(AfterCompound(a, x), {})
    case Free(x, site) => Result(AfterFree(a, x, site), AtFree(a, x, site))
    case HandOver(xs) => Result(HandedOver(a, xs), {})
    case Return(x) =>
      Result(if x.Some? && Holds(a, x.value, Allocated) then a[x.value := a[x.value].(returned := true)] else a, {})
    case Block(ss) =>
      var r := AnalyseSeq(ss, a, depth + 1);
      Result(Restrict(r.view, a), r.reports)
    case If(t, None) =>
      var r := Analyse(t, a, depth);
      Result(MergeInto(a, r.view), r.reports)
    case If(t, Some(e)) =>
      var r1, r2 := Analyse(t, a, depth), Analyse(e, a, depth);
      Result(JoinViews([r1.view, r2.view], a), r1.reports + r2.reports)
    case Switch(prongs, _) =>
      if prongs == [] then Result(a, {})
      else
        var rs := AnalyseEach(prongs, a, depth);
        Result(JoinViews(Views(rs), a), Reports(rs))
  }

  function AnalyseSeq(ss: seq<Stmt>, a: Flat, depth: nat): (r: Result)
    ensures a.Keys <= r.view.Keys
    decreases ss, 0
  {
    if ss == [] then Result(a, {})
    else
      var r := Analyse(ss[0], a, depth);
      var rest := AnalyseSeq(ss[1..], r.view, depth);
      Result(rest.view, r.reports + rest.reports)
  }

  function AnalyseEach(ss: seq<Stmt>, a: Flat, depth: nat): (rs: seq<Result>)
    ensures |rs| == |ss| && forall i :: 0 <= i < |rs| ==> a.Keys <= rs[i].view.Keys
    decreases ss, 0
  {
    if ss == [] then []
    else
      var init := AnalyseEach(ss[..|ss| - 1], a, depth);
      init + [Analyse(ss[|ss| - 1], a, depth)]
  }

  lemma {:induction false} EachIs(ss: seq<Stmt>, a: Flat, depth: nat, i: nat)
    requires i < |ss|
    ensures AnalyseEach(ss, a, depth)[i] == Analyse(ss[i], a, depth)
    decreases ss
  {
    hide Analyse;
    if i < |ss| - 1 {
      EachIs(ss[..|ss| - 1], a, depth, i);
    }
  }

  function Views(rs: seq<Result>): (v: seq<Flat>)
    ensures |v| == |rs| && forall i :: 0 <= i < |v| ==> v[i] == rs[i].view
  {
    seq(|rs|, i requires 0 <= i < |rs| => rs[i].view)
  }

  function Reports(rs: seq<Result>): (u: set<Report>)
    ensures forall report :: report in u <==> exists i :: 0 <= i < |rs| && report in rs[i].reports
  {
    if rs == [] then {} else Reports(rs[..|rs| - 1]) + rs[|rs| - 1].reports
  }

  lemma HandedOverStep(a: Flat, xs: seq<string>)
    ensures xs == [] ==> HandedOver(a, xs) == a
    ensures xs != [] ==>
      var x := xs[0];
      var given := Holds(a, x, Allocated) || Holds(a, x, Uninitialized);
      HandedOver(a, xs) == HandedOver(if given then a[x := a[x].(state := Transferred)] else a, xs[1..])
  {
  }

  // ----- The visitor -----

  class Analyzer {
    var current: StateMap
    var depth: nat
    var reports: set<Report>

    constructor ()
      ensures fresh(current) && current.Valid() && current.View() == map[] && depth == 0 && reports == {}
    {
      current := new StateMap(null);
      depth, reports := 0, {};
    }

    /** Visits `s` in a scope forked from the current one and leaves that scope again. */
    method VisitInFork(s: Stmt) returns (branch: StateMap)
      requires current.Valid()
      modifies this
      ensures current == old(current) && depth == old(depth)
      ensures fresh(branch) && Forked(branch, current)
      ensures branch.View() == Analyse(s, old(current.View()), depth).view
      ensures reports == old(reports) + Analyse(s, old(current.View()), depth).reports
      decreases s, 3
    {
      hide StateMap.Valid, StateMap.View, Analyse, Own;
      var entry := current;
      branch := entry.Fork();
      current := branch;
      Visit(s);
      current := entry;
    }

    method Visit(s: Stmt)
      requires current.Valid()
      modifies this, current
      ensures current == old(current) && depth == old(depth) && current.Valid()
      ensures current.View() == Analyse(s, old(current.View()), depth).view
      ensures reports == old(reports) + Analyse(s, old(current.View()), depth).reports
      decreases s, 2
    {
      match s
      case Decl(x, isPointer, init) => VisitVarDecl(x, isPointer, init);
      case Assign(x, rhs) => VisitAssignment(x, rhs);
      case Compound(x) => VisitCompoundAssignment(x);
      case Free(x, site) => VisitFree(x, site);
      case HandOver(xs) => VisitHandOver(xs);
      case Return(x) => VisitReturn(x);
      case Block(ss) => VisitBlock(ss);
      case If(_, _) => VisitIf(s);
      case Switch(prongs, hasElse) => VisitSwitch(prongs, hasElse);
    }

    method VisitVarDecl(x: string, isPointer: bool, init: Option<Rhs>)
      requires current.Valid()
      modifies current
      ensures current.Valid()
      ensures current.View() == if isPointer then Declared(old(current.View()), depth, x, init) else old(current.View())
    {
      if !isPointer {
        return;
      }
      var t := Tracked(Unknown, depth, false, 0);
      if init.None? {
        t := t.(state := Uninitialized);
      } else if init.value.Alloc? {
        t := t.(state := Allocated);
      } else if init.value.Var? {
        var source := current.GetState(init.value.y);
        if source.Some? && source.value.state == Allocated {
          t := source.value.(depth := depth);
          current.SetState(init.value.y, source.value.(state := Transferred));
        }
      }
      current.SetState(x, t);
    }

    method VisitAssignment(x: string, rhs: Rhs)
      requires current.Valid()
      modifies current
      ensures current.Valid() && current.View() == Assigned(old(current.View()), depth, x, rhs)
    {
      var t := current.GetState(x);
      if rhs.Alloc? {
        if t.Some? {
          current.SetState(x, t.value.(state := Allocated, returned := false));
        } else {
          current.SetState(x, Tracked(Allocated, depth, false, 0));
        }
      } else if t.Some? {
        current.SetState(x, t.value.(state := Unknown));
      } else if rhs.Var? {
        var source := current.GetState(rhs.y);
        if source.Some? && source.value.state == Allocated {
          current.SetState(x, source.value);
          current.SetState(rhs.y, source.value.(state := Transferred));
        }
      }
    }

    method VisitCompoundAssignment(x: string)
      requires current.Valid()
      modifies current
      ensures current.Valid() && current.View() == AfterCompound(old(current.View()), x)
    {
      var t := current.GetState(x);
      if t.Some? && t.value.state == Allocated {
        current.SetState(x, t.value.(state := Unknown));
      }
    }

    method VisitFree(x: string, site: nat)
      requires current.Valid()
      modifies this`reports, current
      ensures current.Valid() && current.View() == AfterFree(old(current.View()), x, site)
      ensures reports == old(reports) + AtFree(old(current.View()), x, site)
    {
      var t := current.GetState(x);
      if t.Some? {
        if t.value.state == Freed {
          reports := reports + {Again(site)};
        } else if t.value.state == Allocated {
          current.SetState(x, t.value.(state := Freed, firstFree := site));
        } else if t.value.state == Uninitialized {
          reports := reports + {Unset(site)};
        }
      }
    }

    method VisitHandOver(xs: seq<string>)
      requires current.Valid()
      modifies current
      ensures current.Valid() && current.View() == HandedOver(old(current.View()), xs)
    {
      hide StateMap.Valid, StateMap.View, HandedOver, Own;
      var i := 0;
      assert xs[0..] == xs;
      while i < |xs|
        invariant 0 <= i <= |xs| && current.Valid()
        invariant HandedOver(current.View(), xs[i..]) == HandedOver(old(current.View()), xs)
      {
        assert xs[i..][0] == xs[i] && xs[i..][1..] == xs[i + 1..];
        HandedOverStep(current.View(), xs[i..]);
        var t := current.GetState(xs[i]);
        if t.Some? && (t.value.state == Allocated || t.value.state == Uninitialized) {
          current.SetState(xs[i], t.value.(state := Transferred));
        }
        i := i + 1;
      }
      assert xs[i..] == [];
      HandedOverStep(current.View(), []);
    }

    method VisitReturn(x: Option<string>)
      requires current.Valid()
      modifies current
      ensures current.Valid() && current.View() == Analyse(Return(x), old(current.View()), depth).view
    {
      if x.Some? {
        var t := current.GetState(x.value);
        if t.Some? && t.value.state == Allocated {
          current.SetState(x.value, t.value.(returned := true));
        }
      }
    }

    method VisitBlock(ss: seq<Stmt>)
      requires current.Valid()
      modifies this, current
      ensures current == old(current) && depth == old(depth) && current.Valid()
      ensures current.View() == Analyse(Block(ss), old(current.View()), depth).view
      ensures reports == old(reports) + Analyse(Block(ss), old(current.View()), depth).reports
      decreases ss, 2
    {
      hide StateMap.Valid, StateMap.View, Analyse, Own;
      BlockEquation(ss, current.View(), depth);
      var outer := current;
      ghost var a, r := outer.View(), AnalyseSeq(ss, current.View(), depth + 1);
      depth := depth + 1;
      var scope := outer.Fork();
      current := scope;
      var i := 0;
      assert ss[0..] == ss;
      while i < |ss|
        invariant 0 <= i <= |ss| && current == scope && Forked(scope, outer) && depth == old(depth) + 1
        invariant fresh(scope) && unchanged(outer) && outer.Valid() && outer.View() == a
        invariant AnalyseSeq(ss[i..], scope.View(), depth).view == r.view
        invariant reports + AnalyseSeq(ss[i..], scope.View(), depth).reports == old(reports) + r.reports
      {
        assert ss[i..][0] == ss[i] && ss[i..][1..] == ss[i + 1..];
        Visit(ss[i]);
        i := i + 1;
      }
      assert ss[i..] == [];
      current := outer;
      MergeScopesLinear(outer, scope);
      depth := depth - 1;
    }

    /** Leaves a scope that knows the same names, taking all its states over. */
    method LeaveScope(outer: StateMap)
      requires Forked(current, outer) && outer.Valid() && current.View().Keys == outer.View().Keys
      modifies this`current, outer
      ensures current == outer && outer.Valid() && outer.View() == old(current.View())
    {
      hide StateMap.Valid, StateMap.View, Own;
      var scope := current;
      ghost var a, joined := outer.View(), scope.View();
      current := outer;
      MergeScopesLinear(outer, scope);
      assert Restrict(joined, a) == joined;
    }

    method VisitIf(s: Stmt)
      requires current.Valid() && s.If?
      modifies this, current
      ensures current == old(current) && depth == old(depth) && current.Valid()
      ensures current.View() == Analyse(s, old(current.View()), depth).view
      ensures reports == old(reports) + Analyse(s, old(current.View()), depth).reports
      decreases s, 1
    {
      hide StateMap.Valid, StateMap.View, Analyse, Own;
      var outer := current;
      current := outer.Fork();
      BranchesKeepNames(s, outer.View(), depth);
      VisitBranches(s);
      LeaveScope(outer);
    }

    /** Both paths of an `if`, merged into the current scope. */
    method VisitBranches(s: Stmt)
      requires current.Valid() && s.If?
      modifies this, current
      ensures current == old(current) && depth == old(depth) && current.Valid()
      ensures current.parent == old(current.parent)
      ensures current.View() == Analyse(s, old(current.View()), depth).view
      ensures reports == old(reports) + Analyse(s, old(current.View()), depth).reports
      decreases s, 0
    {
      hide StateMap.Valid, StateMap.View, Analyse, JoinViews, MergeInto, Own;
      ghost var a := current.View();
      var thenScope := VisitInFork(s.thenBranch);
      if s.elseBranch.Some? {
        var elseScope := VisitInFork(s.elseBranch.value);
        BothShown(current, thenScope, elseScope);
        MergeBranches(current, [thenScope, elseScope]);
      } else {
        MergeScopesAlternative(current, thenScope);
      }
      IfEquation(s, a, depth);
    }

    method VisitSwitch(prongs: seq<Stmt>, hasElse: bool)
      requires current.Valid()
      modifies this, current
      ensures current == old(current) && depth == old(depth) && current.Valid()
      ensures current.View() == Analyse(Switch(prongs, hasElse), old(current.View()), depth).view
      ensures reports == old(reports) + Analyse(Switch(prongs, hasElse), old(current.View()), depth).reports
      decreases prongs, 4
    {
      hide StateMap.Valid, StateMap.View, Analyse, Own;
      if prongs == [] {
        SwitchEquation(prongs, hasElse, current.View(), depth);
        return;
      }
      var outer := current;
      current := outer.Fork();
      BranchesKeepNames(Switch(prongs, hasElse), outer.View(), depth);
      MergeProngs(prongs, hasElse);
      LeaveScope(outer);
    }

    /** All prongs of a `switch`, merged into the current scope. */
    method MergeProngs(prongs: seq<Stmt>, hasElse: bool)
      requires current.Valid() && prongs != []
      modifies this, current
      ensures current == old(current) && depth == old(depth) && current.Valid()
      ensures current.View() == Analyse(Switch(prongs, hasElse), old(current.View()), depth).view
      ensures reports == old(reports) + Analyse(Switch(prongs, hasElse), old(current.View()), depth).reports
      decreases prongs, 3
    {
      hide StateMap.Valid, StateMap.View, Analyse, AnalyseEach, JoinViews, Own, AllForked, Owns;
      SwitchEquation(prongs, hasElse, current.View(), depth);
      var scopes := VisitProngs(prongs);
      MergeBranches(current, scopes);
    }

    /** Each prong in a scope of its own. */
    method VisitProngs(prongs: seq<Stmt>) returns (scopes: seq<StateMap>)
      requires current.Valid()
      modifies this
      ensures current == old(current) && depth == old(depth)
      ensures |scopes| == |prongs| && (forall p <- scopes :: fresh(p)) && AllForked(scopes, current)
        && current !in scopes
      ensures Shown(current.View(), Owns(scopes)) == Views(AnalyseEach(prongs, current.View(), depth))
      ensures reports == old(reports) + Reports(AnalyseEach(prongs, current.View(), depth))
      decreases prongs, 2
    {
      hide StateMap.Valid, StateMap.View, Analyse, AnalyseEach, AllForked, Own, Owns, Reports, Shown, Views;
      scopes := [];
      var i := 0;
      ghost var a := current.View();
      NoReports(prongs, a, depth);
      while i < |prongs|
        invariant 0 <= i <= |prongs| && current == old(current) && depth == old(depth)
        invariant current.Valid() && current.View() == a
        invariant |scopes| == i && current !in scopes && forall p <- scopes :: fresh(p)
        invariant forall j :: 0 <= j < i ==> Forked(scopes[j], current)
        invariant forall j :: 0 <= j < i ==> a + Own(scopes[j].deltas) == Analyse(prongs[j], a, depth).view
        invariant reports == old(reports) + Reports(AnalyseEach(prongs[..i], a, depth))
      {
        var scope := VisitInFork(prongs[i]);
        ChildView(scope, current);
        EachNext(prongs, i, a, depth);
        scopes := scopes + [scope];
        i := i + 1;
      }
      assert prongs[..i] == prongs;
      AreForked(scopes, current);
      AreShown(scopes, prongs, a, depth);
    }
  }

  lemma NoReports(prongs: seq<Stmt>, a: Flat, depth: nat)
    ensures Reports(AnalyseEach(prongs[..0], a, depth)) == {}
  {
  }

  lemma EachNext(prongs: seq<Stmt>, i: nat, a: Flat, depth: nat)
    requires i < |prongs|
    ensures Reports(AnalyseEach(prongs[..i + 1], a, depth)) ==
      Reports(AnalyseEach(prongs[..i], a, depth)) + Analyse(prongs[i], a, depth).reports
  {
    hide Analyse;
    var now, before := AnalyseEach(prongs[..i + 1], a, depth), AnalyseEach(prongs[..i], a, depth);
    assert prongs[..i + 1][..i] == prongs[..i];
    assert now == before + [Analyse(prongs[i], a, depth)];
    assert now[..i] == before;
  }

  lemma AreForked(scopes: seq<StateMap>, entry: StateMap)
    requires forall j :: 0 <= j < |scopes| ==> Forked(scopes[j], entry)
    ensures AllForked(scopes, entry)
  {
  }

  lemma AreShown(scopes: seq<StateMap>, prongs: seq<Stmt>, a: Flat, depth: nat)
    requires |scopes| == |prongs|
    requires forall j :: 0 <= j < |scopes| ==> a + Own(scopes[j].deltas) == Analyse(prongs[j], a, depth).view
    ensures Shown(a, Owns(scopes)) == Views(AnalyseEach(prongs, a, depth))
  {
    hide Own, Analyse, AnalyseEach;
    forall j | 0 <= j < |scopes| ensures Shown(a, Owns(scopes))[j] == Views(AnalyseEach(prongs, a, depth))[j] {
      EachIs(prongs, a, depth, j);
    }
  }

  lemma BranchesKeepNames(s: Stmt, a: Flat, depth: nat)
    requires s.If? || s.Switch?
    ensures Analyse(s, a, depth).view.Keys == a.Keys
  {
  }

  lemma BothShown(entry: StateMap, one: StateMap, two: StateMap)
    requires Forked(one, entry) && Forked(two, entry) && entry.Valid()
    ensures Shown(entry.View(), Owns([one, two])) == [one.View(), two.View()]
    ensures one != entry && two != entry
  {
    ChildView(one, entry);
    ChildView(two, entry);
  }

  lemma BlockEquation(ss: seq<Stmt>, a: Flat, depth: nat)
    ensures var r := AnalyseSeq(ss, a, depth + 1);
            Analyse(Block(ss), a, depth) == Result(Restrict(r.view, a), r.reports)
  {
  }

  lemma IfEquation(s: Stmt, a: Flat, depth: nat)
    requires s.If?
    ensures var r1 := Analyse(s.thenBranch, a, depth);
            if s.elseBranch.None? then Analyse(s, a, depth) == Result(MergeInto(a, r1.view), r1.reports)
            else
              var r2 := Analyse(s.elseBranch.value, a, depth);
              Covers([r1.view, r2.view], a)
              && Analyse(s, a, depth) == Result(JoinViews([r1.view, r2.view], a), r1.reports + r2.reports)
  {
  }

  lemma SwitchEquation(prongs: seq<Stmt>, hasElse: bool, a: Flat, depth: nat)
    ensures prongs == [] ==> Analyse(Switch(prongs, hasElse), a, depth) == Result(a, {})
    ensures prongs != [] ==>
              var rs := AnalyseEach(prongs, a, depth);
              Analyse(Switch(prongs, hasElse), a, depth) == Result(JoinViews(Views(rs), a), Reports(rs))
  {
  }

  /** The states after a switch do not depend on the order of its prongs. */
  lemma SwitchAnyOrder(prongs: seq<Stmt>, others: seq<Stmt>, hasElse: bool, a: Flat, depth: nat)
    requires multiset(prongs) == multiset(others)
    ensures forall n <- a ::
      Analyse(Switch(prongs, hasElse), a, depth).view[n].state ==
      Analyse(Switch(others, hasElse), a, depth).view[n].state
  {
    hide Analyse;
    SamePlaces(prongs, others);
    forall n | n in a
      ensures Analyse(Switch(prongs, hasElse), a, depth).view[n].state ==
        Analyse(Switch(others, hasElse), a, depth).view[n].state
    {
      if prongs != [] {
        assert prongs[0] in others;
        SameState(prongs, others, hasElse, a, depth, n);
      }
    }
  }

  lemma SameState(prongs: seq<Stmt>, others: seq<Stmt>, hasElse: bool, a: Flat, depth: nat, n: string)
    requires n in a && prongs != [] && others != [] && forall p :: p in prongs <==> p in others
    ensures Analyse(Switch(prongs, hasElse), a, depth).view[n].state ==
      Analyse(Switch(others, hasElse), a, depth).view[n].state
  {
    hide Analyse, AnalyseEach, JoinViews, Fold, Views, Column;
    SwitchEquation(prongs, hasElse, a, depth);
    SwitchEquation(others, hasElse, a, depth);
    var one, two := Views(AnalyseEach(prongs, a, depth)), Views(AnalyseEach(others, a, depth));
    ColumnsWithin(prongs, others, a, depth, n);
    ColumnsWithin(others, prongs, a, depth, n);
    FoldAnyOrder(Column(one, a, n), Column(two, a, n));
    JoinAt(one, a, n);
    JoinAt(two, a, n);
  }

  lemma SamePlaces(prongs: seq<Stmt>, others: seq<Stmt>)
    requires multiset(prongs) == multiset(others)
    ensures |prongs| == |others| && forall p :: p in prongs <==> p in others
  {
    assert forall p :: p in prongs <==> p in multiset(prongs);
    assert forall p :: p in others <==> p in multiset(others);
    assert |prongs| == |multiset(prongs)| && |others| == |multiset(others)|;
  }

  lemma ColumnsWithin(prongs: seq<Stmt>, others: seq<Stmt>, a: Flat, depth: nat, n: string)
    requires n in a && forall p <- prongs :: p in others
    ensures var one, two := Views(AnalyseEach(prongs, a, depth)), Views(AnalyseEach(others, a, depth));
            forall t <- Column(one, a, n) :: t in Column(two, a, n)
  {
    hide Analyse;
    var one, two := Views(AnalyseEach(prongs, a, depth)), Views(AnalyseEach(others, a, depth));
    forall t | t in Column(one, a, n) ensures t in Column(two, a, n) {
      var c := Column(one, a, n);
      var i :| 0 <= i < |c| && c[i] == t;
      EachIs(prongs, a, depth, i);
      assert prongs[i] in others;
      var j :| 0 <= j < |others| && others[j] == prongs[i];
      EachIs(others, a, depth, j);
      assert Column(two, a, n)[j] == t;
    }
  }
}
