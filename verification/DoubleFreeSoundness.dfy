/**
 When double-free reports are real: on every run that reaches a reported call, the variable was freed before.
 The analyser joins the prongs of a switch even if none need be taken, and lets a freed pointer stay freed
 through a compound assignment; both are told apart exactly.
 */
module DoubleFreeSoundness {
  import opened Options
  import opened AllocationStates
  import opened ScopeMerging
  import opened DoubleFree

  // ----- Runs -----

  /**
   What one run does: the variables freed since their last assignment, the freeing calls reached, those among
   them that freed such a variable again, whether the function returned, and the branch choices left over.
   */
  datatype Outcome = Outcome(freed: set<string>, reached: set<nat>, again: set<nat>, returned: bool, choices: seq<nat>)

  function Head(choices: seq<nat>): nat {
    if choices == [] then 0 else choices[0]
  }

  function Tail(choices: seq<nat>): seq<nat> {
    if choices == [] then [] else choices[1..]
  }

  function Exec(s: Stmt, freed: set<string>, choices: seq<nat>): Outcome
    decreases s, 0
  {
    match s
    case Decl(x, _, _) => Outcome(freed - {x}, {}, {}, false, choices)
    case Assign(x, _) => Outcome(freed - {x}, {}, {}, false, choices)
    case Compound(x) => Outcome(freed - {x}, {}, {}, false, choices)
    case Free(x, site) => Outcome(freed + {x}, {site}, if x in freed then {site} else {}, false, choices)
    case HandOver(_) => Outcome(freed, {}, {}, false, choices)
    case Return(_) => Outcome(freed, {}, {}, true, choices)
    case Block(ss) => ExecSeq(ss, freed, choices)
    case If(t, None) =>
      if Head(choices) == 0 then Outcome(freed, {}, {}, false, Tail(choices)) else Exec(t, freed, Tail(choices))
    case If(t, Some(e)) => if Head(choices) == 0 then Exec(e, freed, Tail(choices)) else Exec(t, freed, Tail(choices))
    case Switch(prongs, hasElse) =>
      if prongs == [] then Outcome(freed, {}, {}, false, choices)
      else
        var k := Head(choices) % if hasElse then |prongs| else |prongs| + 1;
        if k < |prongs| then Exec(prongs[k], freed, Tail(choices)) else Outcome(freed, {}, {}, false, Tail(choices))
  }

  function ExecSeq(ss: seq<Stmt>, freed: set<string>, choices: seq<nat>): Outcome
    decreases ss, 0
  {
    if ss == [] then Outcome(freed, {}, {}, false, choices)
    else
      var o := Exec(ss[0], freed, choices);
      if o.returned then o
      else
        var rest := ExecSeq(ss[1..], o.freed, o.choices);
        Outcome(rest.freed, o.reached + rest.reached, o.again + rest.again, rest.returned, rest.choices)
  }

  // ----- Programs in scope -----

  function After(s: Stmt, names: set<string>): set<string> {
    if s.Decl? then names + {s.x} else names
  }

  /** Every name is declared before its use, and no declaration hides another. */
  predicate Scoped(s: Stmt, names: set<string>)
    decreases s, 0
  {
    match s
    case Decl(x, _, init) => x !in names && (init.Some? && init.value.Var? ==> init.value.y in names)
    case Assign(x, rhs) => x in names && (rhs.Var? ==> rhs.y in names)
    case Compound(x) => x in names
    case Free(x, _) => x in names
    case HandOver(xs) => forall x <- xs :: x in names
    case Return(x) => x.Some? ==> x.value in names
    case Block(ss) => ScopedSeq(ss, names)
    case If(t, None) => Scoped(t, names)
    case If(t, Some(e)) => Scoped(t, names) && Scoped(e, names)
    case Switch(prongs, _) => forall p <- prongs :: Scoped(p, names)
  }

  predicate ScopedSeq(ss: seq<Stmt>, names: set<string>)
    decreases ss, 0
  {
    ss == [] || (Scoped(ss[0], names) && ScopedSeq(ss[1..], After(ss[0], names)))
  }

  function Sites(s: Stmt): set<nat>
    decreases s, 0
  {
    match s
    case Free(_, site) => {site}
    case Block(ss) => SitesOf(ss)
    case If(t, None) => Sites(t)
    case If(t, Some(e)) => Sites(t) + Sites(e)
    case Switch(prongs, _) => SitesOf(prongs)
    case _ => {}
  }

  function SitesOf(ss: seq<Stmt>): set<nat>
    decreases ss, 0
  {
    if ss == [] then {} else Sites(ss[0]) + SitesOf(ss[1..])
  }

  /** No two freeing calls share a position. */
  predicate Apart(s: Stmt)
    decreases s, 0
  {
    match s
    case Block(ss) => ApartAll(ss)
    case If(t, None) => Apart(t)
    case If(t, Some(e)) => Apart(t) && Apart(e) && Sites(t) !! Sites(e)
    case Switch(prongs, _) => ApartAll(prongs)
    case _ => true
  }

  predicate ApartAll(ss: seq<Stmt>)
    decreases ss, 0
  {
    ss == [] || (Apart(ss[0]) && Sites(ss[0]) !! SitesOf(ss[1..]) && ApartAll(ss[1..]))
  }

  lemma {:induction false} ApartAt(ss: seq<Stmt>, i: nat, j: nat)
    requires ApartAll(ss) && i < |ss| && j < |ss|
    ensures Apart(ss[i]) && Sites(ss[i]) <= SitesOf(ss)
    ensures i != j ==> Sites(ss[i]) !! Sites(ss[j])
    decreases ss
  {
    if i > 0 && j > 0 {
      ApartAt(ss[1..], i - 1, j - 1);
    } else if i > 0 {
      ApartAt(ss[1..], i - 1, i - 1);
    } else if j > 0 {
      ApartAt(ss[1..], j - 1, j - 1);
    }
  }

  // ----- Where reports and runs can be -----

  ghost predicate Within(reports: set<Report>, sites: set<nat>) {
    forall r <- reports :: r.site in sites
  }

  lemma {:induction false} WithinSites(s: Stmt, a: Flat, depth: nat, freed: set<string>, choices: seq<nat>)
    ensures Within(Analyse(s, a, depth).reports, Sites(s)) && Exec(s, freed, choices).reached <= Sites(s)
    decreases s, 0
  {
    match s
    case Block(ss) =>
      WithinSitesSeq(ss, a, depth + 1, freed, choices);
    case If(t, None) =>
      WithinSites(t, a, depth, freed, Tail(choices));
    case If(t, Some(e)) =>
      WithinSites(t, a, depth, freed, Tail(choices));
      WithinSites(e, a, depth, freed, Tail(choices));
    case Switch(prongs, _) =>
      if prongs != [] {
        WithinEach(prongs, a, depth, freed, Tail(choices));
        WithinSwitch(s, a, depth, freed, choices);
      }
    case _ =>
  }

  lemma WithinSwitch(s: Stmt, a: Flat, depth: nat, freed: set<string>, choices: seq<nat>)
    requires s.Switch? && s.prongs != []
    requires forall i :: 0 <= i < |s.prongs| ==>
               Within(Analyse(s.prongs[i], a, depth).reports, Sites(s.prongs[i]))
               && Sites(s.prongs[i]) <= SitesOf(s.prongs)
               && Exec(s.prongs[i], freed, Tail(choices)).reached <= Sites(s.prongs[i])
    ensures Within(Analyse(s, a, depth).reports, Sites(s)) && Exec(s, freed, choices).reached <= Sites(s)
  {
    hide Analyse, AnalyseEach, Exec, SitesOf;
    var rs := AnalyseEach(s.prongs, a, depth);
    SwitchEquation(s.prongs, s.hasElse, a, depth);
    SwitchRun(s.prongs, s.hasElse, freed, choices);
    forall report | report in Reports(rs) ensures report.site in SitesOf(s.prongs) {
      var j :| 0 <= j < |rs| && report in rs[j].reports;
      EachIs(s.prongs, a, depth, j);
    }
  }

  lemma {:induction false} WithinSitesSeq(ss: seq<Stmt>, a: Flat, depth: nat, freed: set<string>, choices: seq<nat>)
    ensures Within(AnalyseSeq(ss, a, depth).reports, SitesOf(ss)) && ExecSeq(ss, freed, choices).reached <= SitesOf(ss)
    decreases ss, 0
  {
    if ss != [] {
      WithinSites(ss[0], a, depth, freed, choices);
      var o := Exec(ss[0], freed, choices);
      WithinSitesSeq(ss[1..], Analyse(ss[0], a, depth).view, depth, o.freed, o.choices);
    }
  }

  lemma {:induction false} WithinEach(prongs: seq<Stmt>, a: Flat, depth: nat, freed: set<string>, choices: seq<nat>)
    ensures forall i :: 0 <= i < |prongs| ==>
              Within(Analyse(prongs[i], a, depth).reports, Sites(prongs[i])) && Sites(prongs[i]) <= SitesOf(prongs)
              && Exec(prongs[i], freed, choices).reached <= Sites(prongs[i])
    decreases prongs, 0
  {
    if prongs != [] {
      WithinSites(prongs[0], a, depth, freed, choices);
      WithinEach(prongs[1..], a, depth, freed, choices);
      assert forall i :: 1 <= i < |prongs| ==> prongs[i] == prongs[1..][i - 1];
    }
  }

  // ----- Soundness -----

  /** Whatever the analyser holds as freed has been freed since its last assignment. */
  predicate Approximates(a: Flat, freed: set<string>) {
    forall x <- a :: a[x].state == Freed ==> x in freed
  }

  ghost predicate Real(r: Result, o: Outcome) {
    forall site: nat :: Again(site) in r.reports && site in o.reached ==> site in o.again
  }

  ghost predicate Sound(r: Result, o: Outcome) {
    (!o.returned ==> Approximates(r.view, o.freed)) && Real(r, o)
  }

  /** Whenever all prongs leave a known name freed, it was freed before the switch. */
  ghost predicate Covered(prongs: seq<Stmt>, a: Flat, depth: nat) {
    forall n <- a ::
      (forall i :: 0 <= i < |prongs| ==> Analyse(prongs[i], a, depth).view[n].state == Freed) ==> a[n].state == Freed
  }

  /** The analysis meets no switch it does not cover and no compound assignment to a name it holds as freed. */
  ghost predicate Careful(s: Stmt, a: Flat, depth: nat)
    decreases s, 0
  {
    match s
    case Compound(x) => !Holds(a, x, Freed)
    case Block(ss) => CarefulSeq(ss, a, depth + 1)
    case If(t, None) => Careful(t, a, depth)
    case If(t, Some(e)) => Careful(t, a, depth) && Careful(e, a, depth)
    case Switch(prongs, hasElse) =>
      (forall p <- prongs :: Careful(p, a, depth)) && (hasElse || prongs == [] || Covered(prongs, a, depth))
    case _ => true
  }

  ghost predicate CarefulSeq(ss: seq<Stmt>, a: Flat, depth: nat)
    decreases ss, 0
  {
    ss == [] || (Careful(ss[0], a, depth) && CarefulSeq(ss[1..], Analyse(ss[0], a, depth).view, depth))
  }

  lemma {:induction false} StmtSound(
    s: Stmt, a: Flat, depth: nat, names: set<string>, freed: set<string>, choices: seq<nat>)
    requires Scoped(s, names) && Apart(s) && Careful(s, a, depth) && a.Keys <= names && Approximates(a, freed)
    ensures Sound(Analyse(s, a, depth), Exec(s, freed, choices))
    ensures Analyse(s, a, depth).view.Keys <= After(s, names)
    decreases s, 0
  {
    match s
    case Decl(_, _, _) =>
    case Assign(_, _) =>
    case Compound(_) =>
    case Free(_, _) =>
    case HandOver(xs) => HandOverNames(a, xs, names);
    case Return(_) =>
    case Block(ss) =>
      SeqSound(ss, a, depth + 1, names, freed, choices);
    case If(t, None) =>
      StmtSound(t, a, depth, names, freed, Tail(choices));
      AlternativeSound(t, a, depth, freed, choices);
    case If(t, Some(e)) =>
      StmtSound(t, a, depth, names, freed, Tail(choices));
      StmtSound(e, a, depth, names, freed, Tail(choices));
      BranchesSound(t, e, a, depth, freed, choices);
    case Switch(prongs, hasElse) =>
      if prongs != [] {
        var k := Head(choices) % if hasElse then |prongs| else |prongs| + 1;
        if k < |prongs| {
          ApartAt(prongs, k, k);
          StmtSound(prongs[k], a, depth, names, freed, Tail(choices));
          ProngsSound(prongs, hasElse, k, a, depth, freed, choices);
        } else {
          FallThroughSound(prongs, a, depth, freed, choices);
        }
      }
  }

  lemma {:induction false} HandOverNames(a: Flat, xs: seq<string>, names: set<string>)
    requires a.Keys <= names && forall x <- xs :: x in names
    ensures HandedOver(a, xs).Keys <= names
    decreases xs
  {
    if xs != [] {
      var x := xs[0];
      var given := Holds(a, x, Allocated) || Holds(a, x, Uninitialized);
      HandOverNames(if given then a[x := a[x].(state := Transferred)] else a, xs[1..], names);
    }
  }

  lemma {:induction false} SeqSound(
    ss: seq<Stmt>, a: Flat, depth: nat, names: set<string>, freed: set<string>, choices: seq<nat>)
    requires ScopedSeq(ss, names) && ApartAll(ss) && CarefulSeq(ss, a, depth) && a.Keys <= names
      && Approximates(a, freed)
    ensures Sound(AnalyseSeq(ss, a, depth), ExecSeq(ss, freed, choices))
    decreases ss, 0
  {
    if ss != [] {
      var r, o := Analyse(ss[0], a, depth), Exec(ss[0], freed, choices);
      StmtSound(ss[0], a, depth, names, freed, choices);
      WithinSites(ss[0], a, depth, freed, choices);
      WithinSitesSeq(ss[1..], r.view, depth, o.freed, o.choices);
      if !o.returned {
        SeqSound(ss[1..], r.view, depth, After(ss[0], names), o.freed, o.choices);
      }
    }
  }

  /** A merged state is freed only if both merged states are. */
  lemma MergeFreed(x: Tracked, y: Tracked)
    ensures Merge(x, y).state == Freed <==> x.state == Freed && y.state == Freed
  {
  }

  lemma AlternativeSound(t: Stmt, a: Flat, depth: nat, freed: set<string>, choices: seq<nat>)
    requires Approximates(a, freed) && Sound(Analyse(t, a, depth), Exec(t, freed, Tail(choices)))
    ensures Sound(Analyse(If(t, None), a, depth), Exec(If(t, None), freed, choices))
  {
    var r := Analyse(t, a, depth);
    var m := MergeInto(a, r.view);
    forall x | x in m && m[x].state == Freed ensures a[x].state == Freed && r.view[x].state == Freed {
      MergeFreed(a[x], r.view[x]);
    }
  }

  lemma BranchesSound(t: Stmt, e: Stmt, a: Flat, depth: nat, freed: set<string>, choices: seq<nat>)
    requires Sound(Analyse(t, a, depth), Exec(t, freed, Tail(choices)))
    requires Sound(Analyse(e, a, depth), Exec(e, freed, Tail(choices)))
    requires Sites(t) !! Sites(e)
    ensures Sound(Analyse(If(t, Some(e)), a, depth), Exec(If(t, Some(e)), freed, choices))
  {
    hide Exec;
    var r1, r2 := Analyse(t, a, depth), Analyse(e, a, depth);
    WithinSites(t, a, depth, freed, Tail(choices));
    WithinSites(e, a, depth, freed, Tail(choices));
    JoinSound([r1.view, r2.view], a);
    IfRun(t, e, freed, choices);
    IfEquation(If(t, Some(e)), a, depth);
    assert [r1.view, r2.view][0] == r1.view && [r1.view, r2.view][1] == r2.view;
  }

  lemma IfRun(t: Stmt, e: Stmt, freed: set<string>, choices: seq<nat>)
    ensures Exec(If(t, Some(e)), freed, choices) == Exec(if Head(choices) == 0 then e else t, freed, Tail(choices))
  {
  }

  /** A join holds a name as freed only if every view does. */
  lemma JoinSound(views: seq<Flat>, a: Flat)
    requires views != [] && Covers(views, a)
    ensures forall x, i :: x in a && JoinViews(views, a)[x].state == Freed && 0 <= i < |views| ==>
      views[i][x].state == Freed
  {
    forall x, i | x in a && JoinViews(views, a)[x].state == Freed && 0 <= i < |views|
      ensures views[i][x].state == Freed
    {
      var c := Column(views, a, x);
      FoldIsJoin(c);
      assert c[i] in c;
    }
  }

  lemma ProngsSound(
    prongs: seq<Stmt>, hasElse: bool, k: nat, a: Flat, depth: nat, freed: set<string>, choices: seq<nat>)
    requires prongs != [] && ApartAll(prongs)
    requires k == Head(choices) % (if hasElse then |prongs| else |prongs| + 1) && k < |prongs|
    requires Sound(Analyse(prongs[k], a, depth), Exec(prongs[k], freed, Tail(choices)))
    ensures Sound(Analyse(Switch(prongs, hasElse), a, depth), Exec(Switch(prongs, hasElse), freed, choices))
  {
    hide Exec, Analyse, Sites, SitesOf, ApartAll;
    var rs := AnalyseEach(prongs, a, depth);
    SwitchEquation(prongs, hasElse, a, depth);
    SwitchRun(prongs, hasElse, freed, choices);
    JoinSound(Views(rs), a);
    EachIs(prongs, a, depth, k);
    WithinEach(prongs, a, depth, freed, Tail(choices));
    forall site: nat | Again(site) in Reports(rs) && site in Exec(prongs[k], freed, Tail(choices)).reached
      ensures site in Exec(prongs[k], freed, Tail(choices)).again
    {
      var j :| 0 <= j < |rs| && Again(site) in rs[j].reports;
      EachIs(prongs, a, depth, j);
      ApartAt(prongs, k, j);
    }
  }

  lemma SwitchRun(prongs: seq<Stmt>, hasElse: bool, freed: set<string>, choices: seq<nat>)
    requires prongs != []
    ensures var k := Head(choices) % if hasElse then |prongs| else |prongs| + 1;
      Exec(Switch(prongs, hasElse), freed, choices) ==
      if k < |prongs| then Exec(prongs[k], freed, Tail(choices)) else Outcome(freed, {}, {}, false, Tail(choices))
  {
  }

  /** After a switch a name is held as freed exactly if every prong leaves it so. */
  lemma FreedAfterSwitch(prongs: seq<Stmt>, hasElse: bool, a: Flat, depth: nat, n: string)
    requires prongs != [] && n in a
    ensures Analyse(Switch(prongs, hasElse), a, depth).view[n].state == Freed <==>
            forall i :: 0 <= i < |prongs| ==> Analyse(prongs[i], a, depth).view[n].state == Freed
  {
    hide Analyse, AnalyseEach, Fold, JoinViews, Views;
    var views := Views(AnalyseEach(prongs, a, depth));
    SwitchEquation(prongs, hasElse, a, depth);
    JoinAt(views, a, n);
    var c := Column(views, a, n);
    FreedColumn(c);
    forall i | 0 <= i < |prongs| ensures c[i] == Analyse(prongs[i], a, depth).view[n] {
      EachIs(prongs, a, depth, i);
    }
  }

  lemma FreedColumn(c: seq<Tracked>)
    requires c != []
    ensures Fold(c).state == Freed <==> forall i :: 0 <= i < |c| ==> c[i].state == Freed
  {
    hide Fold;
    FoldIsJoin(c);
    forall i | 0 <= i < |c| ensures c[i] in c {
    }
  }

  lemma FallThroughSound(prongs: seq<Stmt>, a: Flat, depth: nat, freed: set<string>, choices: seq<nat>)
    requires prongs != [] && Covered(prongs, a, depth) && Approximates(a, freed)
      && Head(choices) % (|prongs| + 1) == |prongs|
    ensures Sound(Analyse(Switch(prongs, false), a, depth), Exec(Switch(prongs, false), freed, choices))
  {
    hide Exec, Analyse;
    SwitchRun(prongs, false, freed, choices);
    SwitchEquation(prongs, false, a, depth);
    var v := Analyse(Switch(prongs, false), a, depth).view;
    forall n | n in v && v[n].state == Freed ensures n in freed {
      FreedAfterSwitch(prongs, false, a, depth, n);
    }
  }

  // ----- The exact conditions -----

  lemma CoveredIff(prongs: seq<Stmt>, a: Flat, depth: nat)
    requires prongs != []
    ensures Covered(prongs, a, depth) <==> HeldFreed(Analyse(Switch(prongs, false), a, depth).view) <= HeldFreed(a)
  {
    hide Analyse;
    var v := Analyse(Switch(prongs, false), a, depth).view;
    SwitchEquation(prongs, false, a, depth);
    forall n | n in a
      ensures n in HeldFreed(v) <==> forall i :: 0 <= i < |prongs| ==>
        Analyse(prongs[i], a, depth).view[n].state == Freed
    {
      FreedAfterSwitch(prongs, false, a, depth, n);
    }
  }

  /** The run of an else-less switch that takes no prong. */
  function Untaken(prongs: seq<Stmt>, freed: set<string>): (after: set<string>)
    requires prongs != []
    ensures after == freed
  {
    SwitchRun(prongs, false, freed, [|prongs|]);
    Exec(Switch(prongs, false), freed, [|prongs|]).freed
  }

  /** The state after an else-less switch covers the run that takes no prong exactly if the switch is covered. */
  lemma SwitchSoundIff(prongs: seq<Stmt>, a: Flat, depth: nat)
    requires prongs != []
    ensures var v := Analyse(Switch(prongs, false), a, depth).view;
      Covered(prongs, a, depth) <==> forall freed :: Approximates(a, freed) ==> Approximates(v, Untaken(prongs, freed))
  {
    hide Exec, Analyse, Covered;
    var v := Analyse(Switch(prongs, false), a, depth).view;
    SwitchEquation(prongs, false, a, depth);
    CoveredIff(prongs, a, depth);
    if HeldFreed(v) <= HeldFreed(a) {
      forall freed | Approximates(a, freed) ensures Approximates(v, Untaken(prongs, freed)) {
        forall n | n in v && v[n].state == Freed ensures n in freed {
          assert n in HeldFreed(v);
        }
      }
    } else {
      var held := HeldFreed(a);
      var n :| n in HeldFreed(v) && n !in held;
      assert Approximates(a, held) && !Approximates(v, Untaken(prongs, held));
    }
  }

  function HeldFreed(a: Flat): set<string> {
    set n | n in a && a[n].state == Freed
  }

  /** The state after a compound assignment covers its run exactly if the name was not held as freed. */
  lemma CompoundSoundIff(x: string, a: Flat, depth: nat)
    ensures !Holds(a, x, Freed) <==>
            forall freed :: Approximates(a, freed) ==>
              forall choices :: Approximates(Analyse(Compound(x), a, depth).view,
                Exec(Compound(x), freed, choices).freed)
  {
    var held := HeldFreed(a);
    assert Approximates(a, held);
    if Holds(a, x, Freed) {
      assert !Approximates(Analyse(Compound(x), a, depth).view, Exec(Compound(x), held, []).freed);
    }
  }

  // ----- Inputs on which a report is wrong -----

  lemma SeqHead(s: Stmt, rest: seq<Stmt>, a: Flat, depth: nat, freed: set<string>, choices: seq<nat>)
    ensures var r := Analyse(s, a, depth);
      var q := AnalyseSeq(rest, r.view, depth);
      AnalyseSeq([s] + rest, a, depth) == Result(q.view, r.reports + q.reports)
    ensures var o := Exec(s, freed, choices);
      var q := ExecSeq(rest, o.freed, o.choices);
      ExecSeq([s] + rest, freed, choices) ==
      if o.returned then o else Outcome(q.freed, o.reached + q.reached, o.again + q.again, q.returned, q.choices)
  {
    hide Analyse, Exec;
    assert ([s] + rest)[1..] == rest;
  }

  /** An allocation in an empty state, and a free after it. */
  lemma AllocThenFree(x: string, site: nat)
    ensures var a := map[x := Tracked(Allocated, 1, false, 0)];
      && Analyse(Decl(x, true, Some(Alloc)), map[], 1) == Result(a, {})
      && Exec(Decl(x, true, Some(Alloc)), {}, []) == Outcome({}, {}, {}, false, [])
      && Analyse(Free(x, site), a, 1) == Result(map[x := Tracked(Freed, 1, false, site)], {})
  {
    assert {} - {x} == {};
  }

  /** A free of a name held as freed, on a run in which it was not. */
  lemma WrongReport(x: string, site: nat, a: Flat)
    requires Holds(a, x, Freed)
    ensures Again(site) in AnalyseSeq([Free(x, site)] + [], a, 1).reports
    ensures forall choices ::
      site in ExecSeq([Free(x, site)] + [], {}, choices).reached
        && site !in ExecSeq([Free(x, site)] + [], {}, choices).again
  {
    forall choices
      ensures site in ExecSeq([Free(x, site)] + [], {}, choices).reached
        && site !in ExecSeq([Free(x, site)] + [], {}, choices).again
    {
      SeqHead(Free(x, site), [], a, 1, {}, choices);
    }
    SeqHead(Free(x, site), [], a, 1, {}, []);
  }

  /** `var p = alloc(); switch (x) { 1 => free(p), 2 => free(p) } free(p);` with a third value of `x`. */
  lemma ElseLessSwitchMisreported(x: string)
    ensures var body := Block([Decl(x, true, Some(Alloc)), Switch([Free(x, 1), Free(x, 2)], false), Free(x, 3)]);
      && Again(3) in Analyse(body, map[], 0).reports
      && 3 in Exec(body, {}, [2]).reached && 3 !in Exec(body, {}, [2]).again
  {
    hide AnalyseSeq, ExecSeq, Analyse, Exec;
    var d, prongs, f3 := Decl(x, true, Some(Alloc)), [Free(x, 1), Free(x, 2)], Free(x, 3);
    var sw := Switch(prongs, false);
    var a1 := map[x := Tracked(Allocated, 1, false, 0)];
    var a2 := Analyse(sw, a1, 1).view;
    assert [d, sw, f3] == [d] + ([sw] + ([f3] + []));
    BlockRuns([d, sw, f3], map[], 0, {}, [2]);
    AllocThenFree(x, 1);
    AllocThenFree(x, 2);
    DeclRuns(x, [2]);
    SeqHead(d, [sw] + ([f3] + []), map[], 1, {}, [2]);
    SeqHead(sw, [f3] + [], a1, 1, {}, [2]);
    SwitchRun(prongs, false, {}, [2]);
    FreedAfterSwitch(prongs, false, a1, 1, x);
    assert forall i :: 0 <= i < |prongs| ==> prongs[i] == Free(x, 1) || prongs[i] == Free(x, 2);
    WrongReport(x, 3, a2);
  }

  lemma DeclRuns(x: string, choices: seq<nat>)
    ensures Exec(Decl(x, true, Some(Alloc)), {}, choices) == Outcome({}, {}, {}, false, choices)
  {
    assert {} - {x} == {};
  }

  lemma BlockRuns(ss: seq<Stmt>, a: Flat, depth: nat, freed: set<string>, choices: seq<nat>)
    ensures Analyse(Block(ss), a, depth).reports == AnalyseSeq(ss, a, depth + 1).reports
    ensures Exec(Block(ss), freed, choices) == ExecSeq(ss, freed, choices)
  {
    hide AnalyseSeq, ExecSeq;
  }

  /** `var p = alloc(); free(p); p += 1; free(p);` */
  lemma CompoundMisreported(x: string)
    ensures var body := Block([Decl(x, true, Some(Alloc)), Free(x, 1), Compound(x), Free(x, 2)]);
      && Again(2) in Analyse(body, map[], 0).reports
      && 2 in Exec(body, {}, []).reached && 2 !in Exec(body, {}, []).again
  {
    hide AnalyseSeq, ExecSeq, Analyse, Exec;
    var d, f1, c, f2 := Decl(x, true, Some(Alloc)), Free(x, 1), Compound(x), Free(x, 2);
    var a1, a2 := map[x := Tracked(Allocated, 1, false, 0)], map[x := Tracked(Freed, 1, false, 1)];
    assert [d, f1, c, f2] == [d] + ([f1] + ([c] + ([f2] + [])));
    BlockRuns([d, f1, c, f2], map[], 0, {}, []);
    AllocThenFree(x, 1);
    FreeThenCompound(x, a2);
    SeqHead(d, [f1] + ([c] + ([f2] + [])), map[], 1, {}, []);
    SeqHead(f1, [c] + ([f2] + []), a1, 1, {}, []);
    SeqHead(c, [f2] + [], a2, 1, {x}, []);
    WrongReport(x, 2, a2);
  }

  lemma FreeThenCompound(x: string, a: Flat)
    requires Holds(a, x, Freed)
    ensures Exec(Free(x, 1), {}, []) == Outcome({x}, {1}, {}, false, [])
    ensures Analyse(Compound(x), a, 1) == Result(a, {}) && Exec(Compound(x), {x}, []) == Outcome({}, {}, {}, false, [])
  {
    assert {} + {x} == {x} && {x} - {x} == {};
  }

  // ----- A condition on the text -----

  /** The names that may be held as freed after `s`, if those in `may` may be before it. */
  function MayBeFreed(s: Stmt, may: set<string>): set<string>
    decreases s, 0
  {
    match s
    case Decl(x, isPointer, _) => if isPointer then may - {x} else may
    case Assign(x, _) => may - {x}
    case Free(x, _) => may + {x}
    case Block(ss) => MayBeFreedSeq(ss, may)
    case If(t, None) => may + MayBeFreed(t, may)
    case If(t, Some(e)) => MayBeFreed(t, may) + MayBeFreed(e, may)
    case Switch(prongs, _) => may + MayBeFreedAny(prongs, may)
    case _ => may
  }

  function MayBeFreedSeq(ss: seq<Stmt>, may: set<string>): set<string>
    decreases ss, 0
  {
    if ss == [] then may else MayBeFreedSeq(ss[1..], MayBeFreed(ss[0], may))
  }

  function MayBeFreedAny(ss: seq<Stmt>, may: set<string>): set<string>
    decreases ss, 0
  {
    if ss == [] then {} else MayBeFreed(ss[0], may) + MayBeFreedAny(ss[1..], may)
  }

  /** The names that all prongs may newly leave freed. */
  function FreedByAll(prongs: seq<Stmt>): set<string>
    requires prongs != []
  {
    if |prongs| == 1 then MayBeFreed(prongs[0], {}) else MayBeFreed(prongs[0], {}) * FreedByAll(prongs[1..])
  }

  /**
   No compound assignment is to a name that may have been freed, and every switch has an else prong or, for each
   name in scope, a prong that does not free it.
   */
  predicate Plain(s: Stmt, may: set<string>, names: set<string>)
    decreases s, 0
  {
    match s
    case Compound(x) => x !in may
    case Block(ss) => PlainSeq(ss, may, names)
    case If(t, None) => Plain(t, may, names)
    case If(t, Some(e)) => Plain(t, may, names) && Plain(e, may, names)
    case Switch(prongs, hasElse) =>
      (forall p <- prongs :: Plain(p, may, names)) && (hasElse || prongs == [] || FreedByAll(prongs) !! names)
    case _ => true
  }

  predicate PlainSeq(ss: seq<Stmt>, may: set<string>, names: set<string>)
    decreases ss, 0
  {
    ss == [] || (Plain(ss[0], may, names) && PlainSeq(ss[1..], MayBeFreed(ss[0], may), After(ss[0], names)))
  }

  // ----- What may be freed is kept or new -----

  lemma {:induction false} MayBeFreedUnion(s: Stmt, a: set<string>, b: set<string>)
    ensures MayBeFreed(s, a + b) == MayBeFreed(s, a) + MayBeFreed(s, b)
    decreases s, 0
  {
    match s
    case Block(ss) => MayBeFreedSeqUnion(ss, a, b);
    case If(t, None) => MayBeFreedUnion(t, a, b);
    case If(t, Some(e)) =>
      MayBeFreedUnion(t, a, b);
      MayBeFreedUnion(e, a, b);
    case Switch(prongs, _) => MayBeFreedAnyUnion(prongs, a, b);
    case _ =>
  }

  lemma {:induction false} MayBeFreedSeqUnion(ss: seq<Stmt>, a: set<string>, b: set<string>)
    ensures MayBeFreedSeq(ss, a + b) == MayBeFreedSeq(ss, a) + MayBeFreedSeq(ss, b)
    decreases ss, 0
  {
    hide MayBeFreed;
    if ss != [] {
      MayBeFreedUnion(ss[0], a, b);
      MayBeFreedSeqUnion(ss[1..], MayBeFreed(ss[0], a), MayBeFreed(ss[0], b));
    }
  }

  lemma {:induction false} MayBeFreedAnyUnion(ss: seq<Stmt>, a: set<string>, b: set<string>)
    ensures MayBeFreedAny(ss, a + b) == MayBeFreedAny(ss, a) + MayBeFreedAny(ss, b)
    decreases ss, 0
  {
    hide MayBeFreed;
    if ss != [] {
      MayBeFreedUnion(ss[0], a, b);
      MayBeFreedAnyUnion(ss[1..], a, b);
    }
  }

  lemma {:induction false} KeptOrNew(s: Stmt, may: set<string>)
    ensures MayBeFreed(s, may) <= may + MayBeFreed(s, {})
    decreases s, 0
  {
    match s
    case Block(ss) => KeptOrNewSeq(ss, may);
    case If(t, None) => KeptOrNew(t, may);
    case If(t, Some(e)) =>
      KeptOrNew(t, may);
      KeptOrNew(e, may);
    case Switch(prongs, _) => KeptOrNewAny(prongs, may);
    case _ =>
  }

  lemma {:induction false} KeptOrNewSeq(ss: seq<Stmt>, may: set<string>)
    ensures MayBeFreedSeq(ss, may) <= may + MayBeFreedSeq(ss, {})
    decreases ss, 0
  {
    hide MayBeFreed;
    if ss != [] {
      var rest, kept, added := ss[1..], MayBeFreed(ss[0], may), MayBeFreed(ss[0], {});
      KeptOrNew(ss[0], may);
      assert may + added == kept + (may + added);
      MayBeFreedSeqUnion(rest, kept, may + added);
      MayBeFreedSeqUnion(rest, may, added);
      KeptOrNewSeq(rest, may);
      assert {} + added == added;
      MayBeFreedSeqUnion(rest, {}, added);
    }
  }

  lemma {:induction false} KeptOrNewAny(ss: seq<Stmt>, may: set<string>)
    ensures MayBeFreedAny(ss, may) <= may + MayBeFreedAny(ss, {})
    decreases ss, 0
  {
    hide MayBeFreed;
    if ss != [] {
      KeptOrNew(ss[0], may);
      KeptOrNewAny(ss[1..], may);
    }
  }

  lemma {:induction false} FreedByAllIff(prongs: seq<Stmt>, n: string)
    requires prongs != []
    ensures n in FreedByAll(prongs) <==> forall i :: 0 <= i < |prongs| ==> n in MayBeFreed(prongs[i], {})
    decreases prongs
  {
    hide MayBeFreed;
    if |prongs| > 1 {
      var rest := prongs[1..];
      FreedByAllIff(rest, n);
      if forall i :: 0 <= i < |prongs| ==> n in MayBeFreed(prongs[i], {}) {
        assert forall i :: 0 <= i < |rest| ==> rest[i] == prongs[i + 1];
      }
      forall i | 0 <= i < |prongs| && n in FreedByAll(prongs) ensures n in MayBeFreed(prongs[i], {}) {
        assert i > 0 ==> prongs[i] == rest[i - 1];
      }
    }
  }

  // ----- The condition is sufficient -----

  /** What the analysis holds as freed after a statement may be freed. */
  lemma {:induction false} HeldWithin(s: Stmt, may: set<string>, a: Flat, depth: nat)
    requires HeldFreed(a) <= may
    ensures HeldFreed(Analyse(s, a, depth).view) <= MayBeFreed(s, may)
    decreases s, 0
  {
    match s
    case Decl(_, _, _) =>
    case Assign(_, _) =>
    case Compound(_) =>
    case Free(_, _) =>
    case HandOver(xs) =>
    case Return(_) =>
    case Block(ss) => HeldWithinSeq(ss, may, a, depth + 1);
    case If(t, None) =>
      var m := Analyse(s, a, depth).view;
      forall n | n in HeldFreed(m) ensures n in may {
        MergeFreed(a[n], Analyse(t, a, depth).view[n]);
        assert n in HeldFreed(a);
      }
    case If(t, Some(e)) =>
      HeldWithin(t, may, a, depth);
      JoinedFreed(s, a, depth);
    case Switch(prongs, hasElse) =>
      if prongs != [] {
        HeldWithin(prongs[0], may, a, depth);
        SwitchHeld(prongs, hasElse, may, a, depth);
      }
  }

  lemma SwitchHeld(prongs: seq<Stmt>, hasElse: bool, may: set<string>, a: Flat, depth: nat)
    requires prongs != [] && HeldFreed(Analyse(prongs[0], a, depth).view) <= MayBeFreed(prongs[0], may)
    ensures HeldFreed(Analyse(Switch(prongs, hasElse), a, depth).view) <= MayBeFreed(Switch(prongs, hasElse), may)
  {
    hide Analyse, MayBeFreedAny;
    SwitchEquation(prongs, hasElse, a, depth);
    FirstProng(prongs, may);
    forall n | n in HeldFreed(Analyse(Switch(prongs, hasElse), a, depth).view) ensures n in MayBeFreed(prongs[0], may) {
      FreedAfterSwitch(prongs, hasElse, a, depth, n);
      assert n in HeldFreed(Analyse(prongs[0], a, depth).view);
    }
  }

  lemma {:induction false} HeldWithinSeq(ss: seq<Stmt>, may: set<string>, a: Flat, depth: nat)
    requires HeldFreed(a) <= may
    ensures HeldFreed(AnalyseSeq(ss, a, depth).view) <= MayBeFreedSeq(ss, may)
    decreases ss, 0
  {
    hide Analyse, MayBeFreed;
    if ss != [] {
      HeldWithin(ss[0], may, a, depth);
      HeldWithinSeq(ss[1..], MayBeFreed(ss[0], may), Analyse(ss[0], a, depth).view, depth);
    }
  }

  lemma JoinedFreed(s: Stmt, a: Flat, depth: nat)
    requires s.If? && s.elseBranch.Some?
    ensures HeldFreed(Analyse(s, a, depth).view) <= HeldFreed(Analyse(s.thenBranch, a, depth).view)
  {
    hide Analyse;
    IfEquation(s, a, depth);
    var r1, r2 := Analyse(s.thenBranch, a, depth), Analyse(s.elseBranch.value, a, depth);
    JoinSound([r1.view, r2.view], a);
    assert [r1.view, r2.view][0] == r1.view;
  }

  lemma FirstProng(prongs: seq<Stmt>, may: set<string>)
    requires prongs != []
    ensures MayBeFreed(prongs[0], may) <= MayBeFreedAny(prongs, may)
  {
    hide MayBeFreed;
  }

  lemma {:induction false} KnownWithin(s: Stmt, names: set<string>, a: Flat, depth: nat)
    requires Scoped(s, names) && a.Keys <= names
    ensures Analyse(s, a, depth).view.Keys <= After(s, names)
  {
    match s
    case HandOver(xs) => HandOverNames(a, xs, names);
    case Switch(prongs, hasElse) => SwitchEquation(prongs, hasElse, a, depth);
    case If(_, Some(_)) => IfEquation(s, a, depth);
    case _ =>
  }

  /** A name that is not freed in some prong is not newly freed after the switch. */
  lemma SomeProngSpares(prongs: seq<Stmt>, names: set<string>, a: Flat, depth: nat)
    requires prongs != [] && a.Keys <= names && FreedByAll(prongs) !! names
    ensures Covered(prongs, a, depth)
  {
    hide Analyse, MayBeFreed, FreedByAll;
    var held := HeldFreed(a);
    forall n | n in a && (forall i :: 0 <= i < |prongs| ==> Analyse(prongs[i], a, depth).view[n].state == Freed)
      ensures n in held
    {
      if n !in held {
        forall i | 0 <= i < |prongs| ensures n in MayBeFreed(prongs[i], {}) {
          HeldWithin(prongs[i], held, a, depth);
          KeptOrNew(prongs[i], held);
          assert n in HeldFreed(Analyse(prongs[i], a, depth).view);
        }
        FreedByAllIff(prongs, n);
      }
    }
  }

  lemma {:induction false} PlainIsCareful(s: Stmt, may: set<string>, names: set<string>, a: Flat, depth: nat)
    requires Plain(s, may, names) && Scoped(s, names) && a.Keys <= names && HeldFreed(a) <= may
    ensures Careful(s, a, depth)
    decreases s, 0
  {
    hide Analyse, MayBeFreed, FreedByAll, Covered;
    match s
    case Compound(x) =>
      assert Holds(a, x, Freed) ==> x in HeldFreed(a);
    case Block(ss) => PlainSeqIsCareful(ss, may, names, a, depth + 1);
    case If(t, None) => PlainIsCareful(t, may, names, a, depth);
    case If(t, Some(e)) =>
      PlainIsCareful(t, may, names, a, depth);
      PlainIsCareful(e, may, names, a, depth);
    case Switch(prongs, hasElse) =>
      forall p | p in prongs ensures Careful(p, a, depth) {
        PlainIsCareful(p, may, names, a, depth);
      }
      if !hasElse && prongs != [] {
        SomeProngSpares(prongs, names, a, depth);
      }
    case _ =>
  }

  lemma {:induction false} PlainSeqIsCareful(ss: seq<Stmt>, may: set<string>, names: set<string>, a: Flat, depth: nat)
    requires PlainSeq(ss, may, names) && ScopedSeq(ss, names) && a.Keys <= names && HeldFreed(a) <= may
    ensures CarefulSeq(ss, a, depth)
    decreases ss, 0
  {
    hide Analyse, MayBeFreed, Plain, Scoped, Careful;
    if ss != [] {
      PlainIsCareful(ss[0], may, names, a, depth);
      HeldWithin(ss[0], may, a, depth);
      KnownWithin(ss[0], names, a, depth);
      PlainSeqIsCareful(ss[1..], MayBeFreed(ss[0], may), After(ss[0], names), Analyse(ss[0], a, depth).view, depth);
    }
  }

  // ----- Whole functions -----

  /** Where the analysis is careful, every report is a double free on every run that reaches it. */
  lemma CarefulReportsAreReal(body: Stmt, names: set<string>, choices: seq<nat>)
    requires Scoped(body, names) && Apart(body) && Careful(body, map[], 0)
    ensures forall site: nat :: Again(site) in Analyse(body, map[], 0).reports ==>
              site in Exec(body, {}, choices).reached ==> site in Exec(body, {}, choices).again
  {
    StmtSound(body, map[], 0, names, {}, choices);
  }

  /** The same under a condition on the text of the function. */
  lemma ReportsAreReal(body: Stmt, names: set<string>, choices: seq<nat>)
    requires Scoped(body, names) && Apart(body) && Plain(body, {}, names)
    ensures forall site: nat :: Again(site) in Analyse(body, map[], 0).reports ==>
              site in Exec(body, {}, choices).reached ==> site in Exec(body, {}, choices).again
  {
    hide Analyse, Exec, Careful;
    PlainIsCareful(body, {}, names, map[], 0);
    CarefulReportsAreReal(body, names, choices);
  }
}
