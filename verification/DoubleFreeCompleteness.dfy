/**
 Which double frees are reported: away from names on which joined paths disagree, a free is reported exactly if the
 variable's own memory, allocated for it and neither handed over nor transferred, was freed since its last assignment.
 */
module DoubleFreeCompleteness {
  import opened Options
  import opened AllocationStates
  import opened ScopeMerging
  import opened DoubleFree
  import opened DoubleFreeSoundness

  // ----- What happened to a variable on a run -----

  datatype Event =
    | Gave(x: string)         // it received memory allocated for it
    | Took(x: string)         // it was assigned anything else
    | Begun(x: string)        // a pointer was declared
    | Hidden(x: string)       // a variable of another type was declared
    | Passed(x: string)       // its memory was handed over or transferred
    | Released(x: string)     // it was freed

  type History = seq<Event>

  /** It holds memory allocated since its last assignment, neither freed nor handed over nor transferred. */
  predicate Mine(x: string, t: History) {
    t != [] && if t[|t| - 1].x == x then t[|t| - 1].Gave? else Mine(x, t[..|t| - 1])
  }

  /** It was freed, since its last assignment, when it held such memory. */
  predicate Spent(x: string, t: History) {
    t != [] &&
    var (e, before) := (t[|t| - 1], t[..|t| - 1]);
    if e.x != x || e.Passed? then Spent(x, before)
    else e.Released? && (Mine(x, before) || Spent(x, before))
  }

  /** It is a pointer that was never assigned nor handed over. */
  predicate Blank(x: string, t: History) {
    t != [] &&
    var (e, before) := (t[|t| - 1], t[..|t| - 1]);
    if e.x != x || e.Released? then Blank(x, before) else e.Begun?
  }

  /** It was declared as a pointer or received memory. */
  predicate Known(x: string, t: History) {
    t != [] &&
    var (e, before) := (t[|t| - 1], t[..|t| - 1]);
    if e.x != x then Known(x, before)
    else e.Gave? || e.Begun? || (!e.Hidden? && Known(x, before))
  }

  /** What a declaration or assignment does: a pointer moves only into a variable not known before. */
  function Deed(s: Stmt, t: History): History {
    match s
    case Decl(x, isPointer, init) =>
      if !isPointer then [Hidden(x)]
      else
        (match init
         case None => [Begun(x)]
         case Some(Alloc) => [Gave(x)]
         case Some(Value) => [Begun(x), Took(x)]
         case Some(Var(y)) => if Mine(y, t) then [Passed(y), Gave(x)] else [Begun(x), Took(x)])
    case Assign(x, Alloc) => [Gave(x)]
    case Assign(x, Value) => [Took(x)]
    case Assign(x, Var(y)) => if !Known(x, t) && Mine(y, t) then [Gave(x), Passed(y)] else [Took(x)]
    case Compound(x) => [Took(x)]
    case Free(x, _) => [Released(x)]
    case HandOver(xs) => AllPassed(xs)
    case _ => []
  }

  function AllPassed(xs: seq<string>): History {
    seq(|xs|, i requires 0 <= i < |xs| => Passed(xs[i]))
  }

  /** The frees a run reaches: all, those of spent, of blank, and of neither spent nor own pointers. */
  datatype Frees = Frees(reached: set<nat>, again: set<nat>, blank: set<nat>, strays: set<nat>)

  const NO_FREES := Frees({}, {}, {}, {})

  function Both(f: Frees, g: Frees): Frees {
    Frees(f.reached + g.reached, f.again + g.again, f.blank + g.blank, f.strays + g.strays)
  }

  function FreeOf(x: string, site: nat, t: History): Frees {
    Frees({site}, if Spent(x, t) then {site} else {}, if Blank(x, t) then {site} else {},
          if Mine(x, t) || Spent(x, t) then {} else {site})
  }

  /** A run: its history, its frees, and as for `Exec`. */
  datatype Trail = Trail(t: History, frees: Frees, returned: bool, choices: seq<nat>)

  function Run(s: Stmt, t: History, choices: seq<nat>): Trail
    decreases s, 0
  {
    match s
    case Free(x, site) => Trail(t + [Released(x)], FreeOf(x, site, t), false, choices)
    case Return(_) => Trail(t, NO_FREES, true, choices)
    case Block(ss) => RunSeq(ss, t, choices)
    case If(thn, None) =>
      if Head(choices) == 0 then Trail(t, NO_FREES, false, Tail(choices)) else Run(thn, t, Tail(choices))
    case If(thn, Some(els)) => if Head(choices) == 0 then Run(els, t, Tail(choices)) else Run(thn, t, Tail(choices))
    case Switch(prongs, hasElse) =>
      if prongs == [] then Trail(t, NO_FREES, false, choices)
      else
        var k := Head(choices) % if hasElse then |prongs| else |prongs| + 1;
        if k < |prongs| then Run(prongs[k], t, Tail(choices)) else Trail(t, NO_FREES, false, Tail(choices))
    case _ => Trail(t + Deed(s, t), NO_FREES, false, choices)
  }

  function RunSeq(ss: seq<Stmt>, t: History, choices: seq<nat>): Trail
    decreases ss, 0
  {
    if ss == [] then Trail(t, NO_FREES, false, choices)
    else
      var o := Run(ss[0], t, choices);
      if o.returned then o
      else
        var q := RunSeq(ss[1..], o.t, o.choices);
        Trail(q.t, Both(o.frees, q.frees), q.returned, q.choices)
  }

  // ----- What the analyser loses at joins -----

  /** What a state says about a variable: nothing, not even its name; nothing more; or one of the three that count. */
  datatype Kind = Unheard | Neutral | Own | Gone | Fresh

  function KindOf(s: AllocState): Kind {
    match s
    case Allocated => Own
    case Freed => Gone
    case Uninitialized => Fresh
    case _ => Neutral
  }

  function KindIn(a: Flat, x: string): Kind {
    if x !in a then Unheard else KindOf(a[x].state)
  }

  function Differing(views: seq<Flat>, b: Flat): set<string> {
    set n | n in b && exists i :: 0 <= i < |views| && KindIn(views[i], n) != KindIn(b, n)
  }

  function Extra(views: seq<Flat>, a: Flat): set<string> {
    if views == [] then {} else (views[0].Keys - a.Keys) + Extra(views[1..], a)
  }

  /** The names the analyser may be wrong about after `s`, if those in `b` are the ones before it. */
  function Blur(s: Stmt, a: Flat, depth: nat, b: set<string>): set<string>
    decreases s, 0
  {
    match s
    case Decl(x, isPointer, init) =>
      if isPointer && init.Some? && init.value.Var? && init.value.y in b then b + {x} else b - {x}
    case Assign(x, Alloc) => b - {x}
    case Assign(x, Var(y)) => if x in b then b + {y} else if y in b && x !in a then b + {x} else b
    case Compound(x) => if Holds(a, x, Freed) || Holds(a, x, Uninitialized) then b + {x} else b
    case Block(ss) => BlurSeq(ss, a, depth + 1, b) + Extra([AnalyseSeq(ss, a, depth + 1).view], a)
    case If(thn, None) =>
      var v := Analyse(thn, a, depth).view;
      b + Blur(thn, a, depth, b) + Differing([v], a) + Extra([v], a)
    case If(thn, Some(els)) =>
      var v, u := Analyse(thn, a, depth).view, Analyse(els, a, depth).view;
      Blur(thn, a, depth, b) + Blur(els, a, depth, b) + Differing([u], Restrict(v, a)) + Extra([v, u], a)
    case Switch(prongs, hasElse) =>
      if prongs == [] then b
      else
        var views := Views(AnalyseEach(prongs, a, depth));
        var ref := if hasElse then Restrict(views[0], a) else a;
        BlurEach(prongs, a, depth, b) + (if hasElse then {} else b) + Differing(views, ref) + Extra(views, a)
    case _ => b
  }

  function BlurSeq(ss: seq<Stmt>, a: Flat, depth: nat, b: set<string>): set<string>
    decreases ss, 0
  {
    if ss == [] then b else BlurSeq(ss[1..], Analyse(ss[0], a, depth).view, depth, Blur(ss[0], a, depth, b))
  }

  function BlurEach(ss: seq<Stmt>, a: Flat, depth: nat, b: set<string>): set<string>
    decreases ss, 0
  {
    if ss == [] then {} else Blur(ss[0], a, depth, b) + BlurEach(ss[1..], a, depth, b)
  }

  /** No blurred name is freed. */
  predicate Clear(s: Stmt, a: Flat, depth: nat, b: set<string>)
    decreases s, 0
  {
    match s
    case Free(x, _) => x !in b
    case Block(ss) => ClearSeq(ss, a, depth + 1, b)
    case If(thn, None) => Clear(thn, a, depth, b)
    case If(thn, Some(els)) => Clear(thn, a, depth, b) && Clear(els, a, depth, b)
    case Switch(prongs, _) => forall p <- prongs :: Clear(p, a, depth, b)
    case _ => true
  }

  predicate ClearSeq(ss: seq<Stmt>, a: Flat, depth: nat, b: set<string>)
    decreases ss, 0
  {
    ss == [] || (Clear(ss[0], a, depth, b)
                 && ClearSeq(ss[1..], Analyse(ss[0], a, depth).view, depth, Blur(ss[0], a, depth, b)))
  }

  // ----- Exactness -----

  /** The analyser is right about `x`. */
  ghost predicate Exact(x: string, a: Flat, t: History) {
    && (x in a <==> Known(x, t))
    && (Holds(a, x, Allocated) <==> Mine(x, t))
    && (Holds(a, x, Freed) <==> Spent(x, t))
    && (Holds(a, x, Uninitialized) <==> Blank(x, t))
  }

  ghost predicate Tracks(a: Flat, t: History, b: set<string>) {
    forall x :: x !in b ==> Exact(x, a, t)
  }

  /** Of the frees a run reaches, exactly the spent and the blank ones are reported, each as such. */
  ghost predicate Faithful(r: Result, o: Trail) {
    forall site <- o.frees.reached ::
      (Again(site) in r.reports <==> site in o.frees.again) && (Unset(site) in r.reports <==> site in o.frees.blank)
  }

  ghost predicate Follows(r: Result, o: Trail, b: set<string>) {
    !o.returned ==> Tracks(r.view, o.t, b)
  }

  /** The kind of a variable decides what is right to say about it. */
  lemma SameKind(x: string, a: Flat, v: Flat, t: History)
    requires KindIn(a, x) == KindIn(v, x)
    ensures Exact(x, a, t) <==> Exact(x, v, t)
  {
  }

  lemma OneMore(x: string, t: History, e: Event)
    ensures Mine(x, t + [e]) <==> if e.x == x then e.Gave? else Mine(x, t)
    ensures Spent(x, t + [e]) <==>
      if e.x != x || e.Passed? then Spent(x, t) else e.Released? && (Mine(x, t) || Spent(x, t))
    ensures Blank(x, t + [e]) <==> if e.x != x || e.Released? then Blank(x, t) else e.Begun?
    ensures Known(x, t + [e]) <==>
      if e.x != x then Known(x, t) else e.Gave? || e.Begun? || (!e.Hidden? && Known(x, t))
  {
    assert (t + [e])[..|t|] == t;
  }

  lemma TwoMore(x: string, t: History, e: Event, f: Event)
    ensures t + [e, f] == (t + [e]) + [f]
    ensures Mine(x, t + [e, f]) <==> if f.x == x then f.Gave? else Mine(x, t + [e])
  {
    OneMore(x, t + [e], f);
    assert t + [e, f] == (t + [e]) + [f];
  }

  /** Memory is held only by variables that are known, and not at once in two ways. */
  lemma {:induction false} OneFate(x: string, t: History)
    ensures Mine(x, t) ==> Known(x, t) && !Spent(x, t) && !Blank(x, t)
    ensures Spent(x, t) ==> Known(x, t) && !Blank(x, t)
    ensures Blank(x, t) ==> Known(x, t)
    decreases |t|
  {
    if t != [] {
      OneFate(x, t[..|t| - 1]);
    }
  }

  lemma DeedExact(s: Stmt, a: Flat, depth: nat, names: set<string>, t: History, b: set<string>, x: string)
    requires s.Decl? || s.Assign? || s.Compound? || s.Free?
    requires Scoped(s, names) && a.Keys <= names && Tracks(a, t, b) && x !in Blur(s, a, depth, b)
    ensures Exact(x, Analyse(s, a, depth).view, t + Deed(s, t))
  {
    hide Mine, Spent, Blank, Known;
    match s
    case Decl(_, _, _) => DeclExact(s, a, depth, names, t, b, x);
    case Assign(z, _) => AssignExact(s, a, depth, t, b, x);
    case Compound(z) =>
      OneMore(x, t, Took(z));
      if z == x {
        OneFate(x, t);
      }
      assert Exact(x, a, t);
    case Free(z, _) =>
      OneMore(x, t, Released(z));
      OneFate(x, t);
      assert Exact(x, a, t);
  }

  lemma DeclExact(s: Stmt, a: Flat, depth: nat, names: set<string>, t: History, b: set<string>, x: string)
    requires s.Decl? && s.x !in a && (s.init.Some? && s.init.value.Var? ==> s.init.value.y != s.x)
    requires Tracks(a, t, b) && x !in Blur(s, a, depth, b)
    ensures Exact(x, Analyse(s, a, depth).view, t + Deed(s, t))
  {
    hide Mine, Spent, Blank, Known;
    var z := s.x;
    if x != z {
      assert Exact(x, a, t);
    }
    OneMore(x, t, Hidden(z));
    OneMore(x, t, Begun(z));
    OneMore(x, t, Gave(z));
    OneMore(x, t + [Begun(z)], Took(z));
    assert t + [Begun(z), Took(z)] == (t + [Begun(z)]) + [Took(z)];
    if s.init.Some? && s.init.value.Var? {
      var y := s.init.value.y;
      OneMore(x, t, Passed(y));
      OneMore(x, t + [Passed(y)], Gave(z));
      assert t + [Passed(y), Gave(z)] == (t + [Passed(y)]) + [Gave(z)];
      OneFate(y, t);
      if s.isPointer && y !in b {
        assert Exact(y, a, t);
      }
    }
  }

  lemma AssignExact(s: Stmt, a: Flat, depth: nat, t: History, b: set<string>, x: string)
    requires s.Assign? && Tracks(a, t, b) && x !in Blur(s, a, depth, b)
    ensures Exact(x, Analyse(s, a, depth).view, t + Deed(s, t))
  {
    hide Mine, Spent, Blank, Known;
    var z := s.x;
    if x !in b {
      assert Exact(x, a, t);
    }
    OneMore(x, t, Gave(z));
    OneMore(x, t, Took(z));
    OneFate(x, t);
    if s.rhs.Var? {
      var y := s.rhs.y;
      OneMore(x, t + [Gave(z)], Passed(y));
      assert t + [Gave(z), Passed(y)] == (t + [Gave(z)]) + [Passed(y)];
      OneFate(y, t);
      if z !in b {
        assert Exact(z, a, t);
      }
      if y !in b {
        assert Exact(y, a, t);
      }
    }
  }

  lemma {:induction false} HandOverExact(a: Flat, xs: seq<string>, t: History, x: string)
    requires Exact(x, a, t)
    ensures Exact(x, HandedOver(a, xs), t + AllPassed(xs))
    decreases xs
  {
    hide Mine, Spent, Blank, Known;
    if xs == [] {
      assert t + AllPassed(xs) == t;
    } else {
      var y := xs[0];
      var given := Holds(a, y, Allocated) || Holds(a, y, Uninitialized);
      OneMore(x, t, Passed(y));
      OneFate(x, t);
      HandOverExact(if given then a[y := a[y].(state := Transferred)] else a, xs[1..], t + [Passed(y)], x);
      assert t + AllPassed(xs) == (t + [Passed(y)]) + AllPassed(xs[1..]);
    }
  }

  // ----- Joins -----

  ghost predicate SameKinds(c: seq<Tracked>, k: Kind) {
    forall i :: 0 <= i < |c| ==> KindOf(c[i].state) == k
  }

  lemma FoldKind(c: seq<Tracked>)
    requires c != []
    ensures SameKinds(c, KindOf(Fold(c).state)) <==> SameKinds(c, KindOf(c[0].state))
  {
    hide Fold;
    FoldIsJoin(c);
    if forall s <- c :: s.state == c[0].state {
      assert Fold(c).state == c[0].state;
    } else {
      var s :| s in c && s.state != c[0].state;
      var i :| 0 <= i < |c| && c[i] == s;
      assert Fold(c).state == Unknown;
      if SameKinds(c, KindOf(c[0].state)) {
        assert KindOf(c[i].state) == KindOf(c[0].state);
        assert KindOf(c[0].state) == Neutral;
      }
    }
  }

  /** A join is right about a name on every path exactly if the paths agree on its kind. */
  lemma JoinKeepsIff(views: seq<Flat>, a: Flat, n: string)
    requires views != [] && Covers(views, a) && n in a
    ensures (forall i :: 0 <= i < |views| ==> KindIn(JoinViews(views, a), n) == KindIn(views[i], n)) <==>
            (forall i :: 0 <= i < |views| ==> KindIn(views[i], n) == KindIn(views[0], n))
  {
    hide Fold, KindOf, JoinViews;
    var c := Column(views, a, n);
    JoinAt(views, a, n);
    FoldKind(c);
    forall i | 0 <= i < |views| ensures KindIn(views[i], n) == KindOf(c[i].state) {
    }
    assert KindIn(JoinViews(views, a), n) == KindOf(Fold(c).state);
  }

  lemma MergeKeeps(a: Flat, v: Flat, n: string)
    requires n in a && n in v && KindIn(a, n) == KindIn(v, n)
    ensures KindIn(MergeInto(a, v), n) == KindIn(a, n)
  {
  }

  lemma {:induction false} ExtraIff(views: seq<Flat>, a: Flat, n: string)
    ensures n in Extra(views, a) <==> n !in a && exists i :: 0 <= i < |views| && n in views[i]
    decreases views
  {
    if views != [] {
      ExtraIff(views[1..], a, n);
      if i :| 0 <= i < |views| && n in views[i] {
        assert i > 0 ==> n in views[1..][i - 1];
      }
      if i :| 0 <= i < |views[1..]| && n in views[1..][i] {
        assert n in views[i + 1];
      }
    }
  }

  lemma {:induction false} BlurOfEach(ss: seq<Stmt>, a: Flat, depth: nat, b: set<string>, i: nat)
    requires i < |ss|
    ensures Blur(ss[i], a, depth, b) <= BlurEach(ss, a, depth, b)
    decreases ss
  {
    hide Blur;
    if i > 0 {
      BlurOfEach(ss[1..], a, depth, b, i - 1);
    }
  }

  /** The views differ from their join only on blurred names. */
  lemma JoinExact(views: seq<Flat>, a: Flat, i: nat, x: string, t: History)
    requires views != [] && Covers(views, a) && i < |views| && x !in Extra(views, a)
    requires forall j :: 0 <= j < |views| ==> x in a ==> KindIn(views[j], x) == KindIn(views[0], x)
    requires Exact(x, views[i], t)
    ensures Exact(x, JoinViews(views, a), t)
  {
    hide Mine, Spent, Blank, Known, JoinViews, Extra;
    ExtraIff(views, a, x);
    if x in a {
      JoinKeepsIff(views, a, x);
      assert KindIn(JoinViews(views, a), x) == KindIn(views[i], x);
    } else {
      assert x !in views[i] && x !in JoinViews(views, a);
    }
    SameKind(x, views[i], JoinViews(views, a), t);
  }

  // ----- Statements -----

  /** Both semantics take the same way. */
  lemma {:induction false} SameWay(s: Stmt, t: History, freed: set<string>, choices: seq<nat>)
    ensures var (o, p) := (Run(s, t, choices), Exec(s, freed, choices));
            o.frees.reached == p.reached && o.returned == p.returned && o.choices == p.choices
            && o.frees.again + o.frees.blank + o.frees.strays <= o.frees.reached
    decreases s, 0
  {
    match s
    case Block(ss) => SameWaySeq(ss, t, freed, choices);
    case If(thn, None) => SameWay(thn, t, freed, Tail(choices));
    case If(thn, Some(els)) =>
      SameWay(thn, t, freed, Tail(choices));
      SameWay(els, t, freed, Tail(choices));
    case Switch(prongs, hasElse) =>
      if prongs != [] {
        var k := Head(choices) % if hasElse then |prongs| else |prongs| + 1;
        if k < |prongs| {
          SameWay(prongs[k], t, freed, Tail(choices));
        }
      }
    case _ =>
  }

  lemma {:induction false} SameWaySeq(ss: seq<Stmt>, t: History, freed: set<string>, choices: seq<nat>)
    ensures var (o, p) := (RunSeq(ss, t, choices), ExecSeq(ss, freed, choices));
            o.frees.reached == p.reached && o.returned == p.returned && o.choices == p.choices
            && o.frees.again + o.frees.blank + o.frees.strays <= o.frees.reached
    decreases ss, 0
  {
    if ss != [] {
      SameWay(ss[0], t, freed, choices);
      var o, p := Run(ss[0], t, choices), Exec(ss[0], freed, choices);
      SameWaySeq(ss[1..], o.t, p.freed, o.choices);
    }
  }

  lemma {:induction false} StmtTracks(
    s: Stmt, a: Flat, depth: nat, names: set<string>, t: History, choices: seq<nat>, b: set<string>)
    requires Scoped(s, names) && a.Keys <= names && Tracks(a, t, b)
    ensures Follows(Analyse(s, a, depth), Run(s, t, choices), Blur(s, a, depth, b))
    ensures Analyse(s, a, depth).view.Keys <= After(s, names)
    decreases s, 0
  {
    hide Exact, Mine, Spent, Blank, Known, Deed;
    KnownWithin(s, names, a, depth);
    match s
    case HandOver(xs) =>
      forall x | x !in b ensures Exact(x, Analyse(s, a, depth).view, Run(s, t, choices).t) {
        HandOverStep(s, a, depth, t, choices, x);
      }
    case Return(x) => 
    case Block(ss) =>
      SeqTracks(ss, a, depth + 1, names, t, choices, b);
      BlockTracks(ss, a, depth, t, choices, b);
    case If(thn, None) =>
      StmtTracks(thn, a, depth, names, t, Tail(choices), b);
      AlternativeTracks(thn, a, depth, t, choices, b);
    case If(thn, Some(els)) =>
      StmtTracks(thn, a, depth, names, t, Tail(choices), b);
      StmtTracks(els, a, depth, names, t, Tail(choices), b);
      BranchesTrack(thn, els, a, depth, t, choices, b);
    case Switch(prongs, hasElse) =>
      if prongs != [] {
        var k := Head(choices) % if hasElse then |prongs| else |prongs| + 1;
        if k < |prongs| {
          StmtTracks(prongs[k], a, depth, names, t, Tail(choices), b);
        }
        ProngsTrack(prongs, hasElse, k, a, depth, t, choices, b);
      }
    case _ =>
      forall x | x !in Blur(s, a, depth, b) ensures Exact(x, Analyse(s, a, depth).view, Run(s, t, choices).t) {
        DeedExact(s, a, depth, names, t, b, x);
        DeedRuns(s, t, choices);
      }
  }

  lemma DeedRuns(s: Stmt, t: History, choices: seq<nat>)
    requires s.Decl? || s.Assign? || s.Compound? || s.Free? || s.HandOver?
    ensures Run(s, t, choices).t == t + Deed(s, t)
  {
  }

  lemma HandOverStep(s: Stmt, a: Flat, depth: nat, t: History, choices: seq<nat>, x: string)
    requires s.HandOver? && Exact(x, a, t)
    ensures Exact(x, Analyse(s, a, depth).view, Run(s, t, choices).t)
  {
    hide Exact;
    HandOverExact(a, s.xs, t, x);
    DeedRuns(s, t, choices);
  }

  lemma BlockTracks(ss: seq<Stmt>, a: Flat, depth: nat, t: History, choices: seq<nat>, b: set<string>)
    requires Follows(AnalyseSeq(ss, a, depth + 1), RunSeq(ss, t, choices), BlurSeq(ss, a, depth + 1, b))
    ensures Follows(Analyse(Block(ss), a, depth), Run(Block(ss), t, choices), Blur(Block(ss), a, depth, b))
  {
    hide AnalyseSeq, RunSeq, BlurSeq, Exact;
    var v, o := AnalyseSeq(ss, a, depth + 1).view, RunSeq(ss, t, choices);
    if !o.returned {
      forall x | x !in Blur(Block(ss), a, depth, b) ensures Exact(x, Restrict(v, a), o.t) {
        ExtraIff([v], a, x);
        assert [v][0] == v;
        SameKind(x, v, Restrict(v, a), o.t);
      }
    }
  }

  lemma AlternativeTracks(thn: Stmt, a: Flat, depth: nat, t: History, choices: seq<nat>, b: set<string>)
    requires Tracks(a, t, b) && Follows(Analyse(thn, a, depth), Run(thn, t, Tail(choices)), Blur(thn, a, depth, b))
    ensures Follows(Analyse(If(thn, None), a, depth), Run(If(thn, None), t, choices), Blur(If(thn, None), a, depth, b))
  {
    hide Exact;
    var v, o := Analyse(thn, a, depth).view, Run(If(thn, None), t, choices);
    var m := MergeInto(a, v);
    if !o.returned {
      forall x | x !in Blur(If(thn, None), a, depth, b) ensures Exact(x, m, o.t) {
        ExtraIff([v], a, x);
        assert [v][0] == v;
        if x in a {
          assert KindIn([v][0], x) == KindIn(a, x);
          MergeKeeps(a, v, x);
        }
        SameKind(x, a, m, o.t);
        SameKind(x, v, m, o.t);
      }
    }
  }

  lemma BranchesTrack(thn: Stmt, els: Stmt, a: Flat, depth: nat, t: History, choices: seq<nat>, b: set<string>)
    requires Follows(Analyse(thn, a, depth), Run(thn, t, Tail(choices)), Blur(thn, a, depth, b))
    requires Follows(Analyse(els, a, depth), Run(els, t, Tail(choices)), Blur(els, a, depth, b))
    ensures var s := If(thn, Some(els));
            Follows(Analyse(s, a, depth), Run(s, t, choices), Blur(s, a, depth, b))
  {
    hide Exact, Analyse, Run, Extra, JoinViews, Blur;
    var s := If(thn, Some(els));
    var v, u := Analyse(thn, a, depth).view, Analyse(els, a, depth).view;
    IfEquation(s, a, depth);
    BranchEquations(thn, els, a, depth, t, choices, b);
    var o := Run(s, t, choices);
    if !o.returned {
      forall x | x !in Blur(s, a, depth, b) ensures Exact(x, JoinViews([v, u], a), o.t) {
        var i := if Head(choices) == 0 then 1 else 0;
        assert Exact(x, [v, u][i], o.t);
        if x in a {
          assert KindIn([u][0], x) == KindIn(Restrict(v, a), x);
          assert KindIn(Restrict(v, a), x) == KindIn(v, x);
        }
        JoinExact([v, u], a, i, x, o.t);
      }
    }
  }

  lemma BranchEquations(thn: Stmt, els: Stmt, a: Flat, depth: nat, t: History, choices: seq<nat>, b: set<string>)
    ensures var s := If(thn, Some(els));
            var v, u := Analyse(thn, a, depth).view, Analyse(els, a, depth).view;
            && Blur(s, a, depth, b) ==
               Blur(thn, a, depth, b) + Blur(els, a, depth, b) + Differing([u], Restrict(v, a)) + Extra([v, u], a)
            && Run(s, t, choices) == Run(if Head(choices) == 0 then els else thn, t, Tail(choices))
  {
    hide Analyse, Differing, Extra;
  }

  lemma SwitchEquations(prongs: seq<Stmt>, hasElse: bool, a: Flat, depth: nat, t: History, choices: seq<nat>,
                        b: set<string>)
    requires prongs != []
    ensures var s := Switch(prongs, hasElse);
            var views := Views(AnalyseEach(prongs, a, depth));
            var ref := if hasElse then Restrict(views[0], a) else a;
            var k := Head(choices) % if hasElse then |prongs| else |prongs| + 1;
            && Blur(s, a, depth, b) ==
               BlurEach(prongs, a, depth, b) + (if hasElse then {} else b) + Differing(views, ref) + Extra(views, a)
            && Run(s, t, choices) ==
               if k < |prongs| then Run(prongs[k], t, Tail(choices)) else Trail(t, NO_FREES, false, Tail(choices))
  {
    hide Run, Blur;
    SwitchBlurs(prongs, hasElse, a, depth, b);
    SwitchRuns(prongs, hasElse, t, choices);
  }

  lemma SwitchRuns(prongs: seq<Stmt>, hasElse: bool, t: History, choices: seq<nat>)
    requires prongs != []
    ensures var k := Head(choices) % if hasElse then |prongs| else |prongs| + 1;
            Run(Switch(prongs, hasElse), t, choices) ==
            if k < |prongs| then Run(prongs[k], t, Tail(choices)) else Trail(t, NO_FREES, false, Tail(choices))
  {
  }

  lemma SwitchBlurs(prongs: seq<Stmt>, hasElse: bool, a: Flat, depth: nat, b: set<string>)
    requires prongs != []
    ensures var views := Views(AnalyseEach(prongs, a, depth));
            var ref := if hasElse then Restrict(views[0], a) else a;
            Blur(Switch(prongs, hasElse), a, depth, b) ==
            BlurEach(prongs, a, depth, b) + (if hasElse then {} else b) + Differing(views, ref) + Extra(views, a)
  {
    hide Analyse, AnalyseEach, Differing, Extra, BlurEach, BlurSeq, Views, Restrict;
  }

  lemma ProngsTrack(prongs: seq<Stmt>, hasElse: bool, k: nat, a: Flat, depth: nat, t: History, choices: seq<nat>,
                    b: set<string>)
    requires prongs != [] && k == Head(choices) % if hasElse then |prongs| else |prongs| + 1
    requires Tracks(a, t, b)
    requires k < |prongs| ==>
      Follows(Analyse(prongs[k], a, depth), Run(prongs[k], t, Tail(choices)), Blur(prongs[k], a, depth, b))
    ensures var s := Switch(prongs, hasElse);
            Follows(Analyse(s, a, depth), Run(s, t, choices), Blur(s, a, depth, b))
  {
    hide Exact, Analyse, AnalyseEach, Run, Extra, JoinViews, Blur, BlurEach;
    var s := Switch(prongs, hasElse);
    var views := Views(AnalyseEach(prongs, a, depth));
    var ref := if hasElse then Restrict(views[0], a) else a;
    SwitchEquation(prongs, hasElse, a, depth);
    SwitchEquations(prongs, hasElse, a, depth, t, choices, b);
    var o := Run(s, t, choices);
    if !o.returned {
      forall x | x !in Blur(s, a, depth, b) ensures Exact(x, JoinViews(views, a), o.t) {
        forall j | 0 <= j < |views| && x in a ensures KindIn(views[j], x) == KindIn(ref, x) {
        }
        if k < |prongs| {
          EachIs(prongs, a, depth, k);
          BlurOfEach(prongs, a, depth, b, k);
          assert Exact(x, views[k], o.t);
          JoinExact(views, a, k, x, o.t);
        } else {
          NoProngExact(views, a, x, o.t);
        }
      }
    }
  }

  lemma NoProngExact(views: seq<Flat>, a: Flat, x: string, t: History)
    requires views != [] && Covers(views, a) && x !in Extra(views, a) && Exact(x, a, t)
    requires forall j :: 0 <= j < |views| ==> x in a ==> KindIn(views[j], x) == KindIn(a, x)
    ensures Exact(x, JoinViews(views, a), t)
  {
    hide Exact, JoinViews, Extra;
    ExtraIff(views, a, x);
    SameKind(x, a, views[0], t);
    if x in a {
      JoinExact(views, a, 0, x, t);
    } else {
      assert x !in JoinViews(views, a);
      SameKind(x, a, JoinViews(views, a), t);
    }
  }

  lemma {:induction false} SeqTracks(
    ss: seq<Stmt>, a: Flat, depth: nat, names: set<string>, t: History, choices: seq<nat>, b: set<string>)
    requires ScopedSeq(ss, names) && a.Keys <= names && Tracks(a, t, b)
    ensures Follows(AnalyseSeq(ss, a, depth), RunSeq(ss, t, choices), BlurSeq(ss, a, depth, b))
    decreases ss, 0
  {
    hide Analyse, Run, Blur, Tracks, Scoped;
    if ss != [] {
      StmtTracks(ss[0], a, depth, names, t, choices, b);
      var o := Run(ss[0], t, choices);
      if !o.returned {
        SeqTracks(ss[1..], Analyse(ss[0], a, depth).view, depth, After(ss[0], names), o.t, o.choices,
                  Blur(ss[0], a, depth, b));
      }
    }
  }

  // ----- Reports -----

  lemma ReachWithin(s: Stmt, t: History, choices: seq<nat>)
    ensures Run(s, t, choices).frees.reached <= Sites(s)
  {
    hide Run, Exec, Sites;
    SameWay(s, t, {}, choices);
    WithinSites(s, map[], 0, {}, choices);
  }

  lemma ReachWithinSeq(ss: seq<Stmt>, t: History, choices: seq<nat>)
    ensures RunSeq(ss, t, choices).frees.reached <= SitesOf(ss)
  {
    hide RunSeq, ExecSeq, SitesOf;
    SameWaySeq(ss, t, {}, choices);
    WithinSitesSeq(ss, map[], 0, {}, choices);
  }

  lemma {:induction false} StmtFaithful(
    s: Stmt, a: Flat, depth: nat, names: set<string>, t: History, choices: seq<nat>, b: set<string>)
    requires Scoped(s, names) && Apart(s) && Clear(s, a, depth, b) && a.Keys <= names && Tracks(a, t, b)
    ensures Faithful(Analyse(s, a, depth), Run(s, t, choices))
    decreases s, 0
  {
    hide Exact, Mine, Spent, Blank, Known, Deed, Blur;
    match s
    case Free(x, site) =>
      assert Exact(x, a, t);
      FreeFaithful(x, site, a, depth, t, choices);
    case Block(ss) => SeqFaithful(ss, a, depth + 1, names, t, choices, b);
    case If(thn, None) => StmtFaithful(thn, a, depth, names, t, Tail(choices), b);
    case If(thn, Some(els)) =>
      StmtFaithful(thn, a, depth, names, t, Tail(choices), b);
      StmtFaithful(els, a, depth, names, t, Tail(choices), b);
      BranchesFaithful(thn, els, a, depth, t, choices);
    case Switch(prongs, hasElse) =>
      if prongs != [] {
        var k := Head(choices) % if hasElse then |prongs| else |prongs| + 1;
        if k < |prongs| {
          ApartAt(prongs, k, k);
          StmtFaithful(prongs[k], a, depth, names, t, Tail(choices), b);
          ProngFaithful(prongs, hasElse, k, a, depth, t, choices);
        }
      }
    case _ =>
  }

  lemma FreeFaithful(x: string, site: nat, a: Flat, depth: nat, t: History, choices: seq<nat>)
    requires Exact(x, a, t)
    ensures Faithful(Analyse(Free(x, site), a, depth), Run(Free(x, site), t, choices))
  {
    hide Mine, Spent, Blank, Known;
  }

  lemma BranchesFaithful(thn: Stmt, els: Stmt, a: Flat, depth: nat, t: History, choices: seq<nat>)
    requires Sites(thn) !! Sites(els)
    requires Faithful(Analyse(thn, a, depth), Run(thn, t, Tail(choices)))
    requires Faithful(Analyse(els, a, depth), Run(els, t, Tail(choices)))
    ensures var s := If(thn, Some(els)); Faithful(Analyse(s, a, depth), Run(s, t, choices))
  {
    hide Analyse, Run, Sites, Blur;
    var s := If(thn, Some(els));
    IfEquation(s, a, depth);
    BranchEquations(thn, els, a, depth, t, choices, {});
    WithinSites(thn, a, depth, {}, []);
    WithinSites(els, a, depth, {}, []);
    ReachWithin(thn, t, Tail(choices));
    ReachWithin(els, t, Tail(choices));
    var r1, r2 := Analyse(thn, a, depth).reports, Analyse(els, a, depth).reports;
    forall site | site in Run(s, t, choices).frees.reached
      ensures Again(site) !in (if Head(choices) == 0 then r1 else r2)
      ensures Unset(site) !in (if Head(choices) == 0 then r1 else r2)
    {
      assert Again(site).site == site && Unset(site).site == site;
    }
  }

  lemma ProngFaithful(prongs: seq<Stmt>, hasElse: bool, k: nat, a: Flat, depth: nat, t: History, choices: seq<nat>)
    requires prongs != [] && ApartAll(prongs)
    requires k == Head(choices) % (if hasElse then |prongs| else |prongs| + 1) && k < |prongs|
    requires Faithful(Analyse(prongs[k], a, depth), Run(prongs[k], t, Tail(choices)))
    ensures var s := Switch(prongs, hasElse); Faithful(Analyse(s, a, depth), Run(s, t, choices))
  {
    hide Analyse, AnalyseEach, Run, Sites, SitesOf, ApartAll, Blur, BlurEach;
    var s := Switch(prongs, hasElse);
    var rs := AnalyseEach(prongs, a, depth);
    SwitchEquation(prongs, hasElse, a, depth);
    SwitchEquations(prongs, hasElse, a, depth, t, choices, {});
    EachIs(prongs, a, depth, k);
    ReachWithin(prongs[k], t, Tail(choices));
    var mine := Analyse(prongs[k], a, depth).reports;
    forall report | report in Reports(rs) && report.site in Run(s, t, choices).frees.reached ensures report in mine {
      var j :| 0 <= j < |rs| && report in rs[j].reports;
      EachIs(prongs, a, depth, j);
      WithinSites(prongs[j], a, depth, {}, []);
      ApartAt(prongs, k, j);
    }
    assert forall report <- mine :: report in Reports(rs);
    forall site | site in Run(s, t, choices).frees.reached
      ensures Again(site) in Reports(rs) <==> Again(site) in mine
      ensures Unset(site) in Reports(rs) <==> Unset(site) in mine
    {
      assert Again(site).site == site && Unset(site).site == site;
    }
  }

  lemma {:induction false} SeqFaithful(
    ss: seq<Stmt>, a: Flat, depth: nat, names: set<string>, t: History, choices: seq<nat>, b: set<string>)
    requires ScopedSeq(ss, names) && ApartAll(ss) && ClearSeq(ss, a, depth, b) && a.Keys <= names && Tracks(a, t, b)
    ensures Faithful(AnalyseSeq(ss, a, depth), RunSeq(ss, t, choices))
    decreases ss, 0
  {
    hide Analyse, Run, Blur, Tracks, Scoped, Apart, Clear, Sites, Faithful;
    if ss == [] {
      NoneFaithful(a, depth, t, choices);
    } else {
      var r, o := Analyse(ss[0], a, depth), Run(ss[0], t, choices);
      StmtTracks(ss[0], a, depth, names, t, choices, b);
      StmtFaithful(ss[0], a, depth, names, t, choices, b);
      if !o.returned {
        SeqFaithful(ss[1..], r.view, depth, After(ss[0], names), o.t, o.choices, Blur(ss[0], a, depth, b));
      }
      StepFaithful(ss, a, depth, t, choices);
    }
  }

  lemma NoneFaithful(a: Flat, depth: nat, t: History, choices: seq<nat>)
    ensures Faithful(AnalyseSeq([], a, depth), RunSeq([], t, choices))
  {
  }

  /** The first statement's frees are apart from those of the rest. */
  lemma StepFaithful(ss: seq<Stmt>, a: Flat, depth: nat, t: History, choices: seq<nat>)
    requires ss != [] && ApartAll(ss) && Faithful(Analyse(ss[0], a, depth), Run(ss[0], t, choices))
    requires var o := Run(ss[0], t, choices);
             !o.returned ==>
               Faithful(AnalyseSeq(ss[1..], Analyse(ss[0], a, depth).view, depth), RunSeq(ss[1..], o.t, o.choices))
    ensures Faithful(AnalyseSeq(ss, a, depth), RunSeq(ss, t, choices))
  {
    hide Analyse, Run, Sites, Exec, Apart;
    var r, o := Analyse(ss[0], a, depth), Run(ss[0], t, choices);
    var r2, q := AnalyseSeq(ss[1..], r.view, depth), RunSeq(ss[1..], o.t, o.choices);
    assert Sites(ss[0]) !! SitesOf(ss[1..]);
    WithinSites(ss[0], a, depth, {}, []);
    WithinSitesSeq(ss[1..], r.view, depth, {}, []);
    ReachWithin(ss[0], t, choices);
    ReachWithinSeq(ss[1..], o.t, o.choices);
    SameWay(ss[0], t, {}, choices);
    SameWaySeq(ss[1..], o.t, {}, o.choices);
    Apartness(r, o, r2, q, Sites(ss[0]), SitesOf(ss[1..]));
  }

  lemma Apartness(r: Result, o: Trail, r2: Result, q: Trail, one: set<nat>, two: set<nat>)
    requires one !! two && Within(r.reports, one) && Within(r2.reports, two)
    requires o.frees.reached <= one && q.frees.reached <= two
    requires o.frees.again + o.frees.blank <= o.frees.reached && q.frees.again + q.frees.blank <= q.frees.reached
    requires Faithful(r, o)
    ensures Faithful(Result(r2.view, r.reports + r2.reports), o)
    ensures Faithful(r2, q) ==>
      Faithful(Result(r2.view, r.reports + r2.reports),
               Trail(q.t, Both(o.frees, q.frees), q.returned, q.choices))
  {
    forall site: nat
      ensures site in one ==> Again(site) !in r2.reports && Unset(site) !in r2.reports && site !in q.frees.reached
      ensures site in two ==> Again(site) !in r.reports && Unset(site) !in r.reports && site !in o.frees.reached
    {
      assert Again(site).site == site && Unset(site).site == site;
    }
  }

  // ----- Whole functions -----

  lemma NothingYet()
    ensures Tracks(map[], [], {})
  {
  }

  /**
   In a function that frees no blurred name, on every run: of the frees it reaches, exactly those of a variable whose
   own memory was freed since its last assignment are reported as double frees, and exactly those of a pointer never
   assigned as frees of an uninitialised one.
   */
  lemma ReportsIff(body: Stmt, names: set<string>, choices: seq<nat>)
    requires Scoped(body, names) && Apart(body) && Clear(body, map[], 0, {})
    ensures var (reports, f) := (Analyse(body, map[], 0).reports, Run(body, [], choices).frees);
            && f.reached == Exec(body, {}, choices).reached
            && forall site <- f.reached ::
                 (Again(site) in reports <==> site in f.again) && (Unset(site) in reports <==> site in f.blank)
  {
    hide Analyse, Run, Exec;
    NothingYet();
    StmtFaithful(body, map[], 0, names, [], choices, {});
    SameWay(body, [], {}, choices);
  }

  /** Freed since its last assignment and spent are the same where only own memory is freed. */
  ghost predicate Agree(freed: set<string>, t: History) {
    forall x :: x in freed <==> Spent(x, t)
  }

  /** As long as a run frees own memory only, its double frees are those of spent pointers. */
  ghost predicate OwnFrees(o: Trail, p: Outcome) {
    o.frees.strays == {} ==> p.again == o.frees.again && Agree(p.freed, o.t)
  }

  lemma {:induction false} StmtOwnFrees(s: Stmt, t: History, freed: set<string>, choices: seq<nat>)
    requires Agree(freed, t)
    ensures OwnFrees(Run(s, t, choices), Exec(s, freed, choices))
    decreases s, 0
  {
    hide Mine, Spent, Blank, Known, Deed;
    match s
    case Free(x, site) =>
      forall y ensures Spent(y, t + [Released(x)]) <==> Spent(y, t) || (y == x && Mine(x, t)) {
        OneMore(y, t, Released(x));
      }
    case Return(_) =>
    case Block(ss) => SeqOwnFrees(ss, t, freed, choices);
    case If(thn, None) => StmtOwnFrees(thn, t, freed, Tail(choices));
    case If(thn, Some(els)) =>
      StmtOwnFrees(thn, t, freed, Tail(choices));
      StmtOwnFrees(els, t, freed, Tail(choices));
    case Switch(prongs, hasElse) =>
      if prongs != [] {
        var k := Head(choices) % if hasElse then |prongs| else |prongs| + 1;
        if k < |prongs| {
          StmtOwnFrees(prongs[k], t, freed, Tail(choices));
        }
      }
    case _ => DeedOwnFrees(s, t, freed, choices);
  }

  lemma DeedOwnFrees(s: Stmt, t: History, freed: set<string>, choices: seq<nat>)
    requires Agree(freed, t) && (s.Decl? || s.Assign? || s.Compound? || s.HandOver?)
    ensures Agree(Exec(s, freed, choices).freed, Run(s, t, choices).t)
  {
    hide Mine, Spent, Blank, Known, Agree;
    var after := t + Deed(s, t);
    forall x ensures Spent(x, after) <==> Spent(x, t) && (s.HandOver? || x != s.x) {
      if s.HandOver? {
        PassedKeepsSpent(x, s.xs, t);
      } else {
        DeedSpends(x, s, t);
      }
    }
    AgreeAfter(s, t, freed, choices);
  }

  lemma AgreeAfter(s: Stmt, t: History, freed: set<string>, choices: seq<nat>)
    requires Agree(freed, t) && (s.Decl? || s.Assign? || s.Compound? || s.HandOver?)
    requires forall x :: Spent(x, t + Deed(s, t)) <==> Spent(x, t) && (s.HandOver? || x != s.x)
    ensures Agree(Exec(s, freed, choices).freed, Run(s, t, choices).t)
  {
    hide Spent, Deed;
  }

  /** What is assigned is no longer spent; a transfer does not change what is. */
  lemma DeedSpends(x: string, s: Stmt, t: History)
    requires s.Decl? || s.Assign? || s.Compound?
    ensures Spent(x, t + Deed(s, t)) <==> Spent(x, t) && x != s.x
  {
    hide Mine, Spent, Blank, Known;
    var z := s.x;
    OneMore(x, t, Hidden(z));
    OneMore(x, t, Begun(z));
    OneMore(x, t, Gave(z));
    OneMore(x, t, Took(z));
    OneMore(x, t + [Begun(z)], Took(z));
    assert t + [Begun(z), Took(z)] == (t + [Begun(z)]) + [Took(z)];
    if s.Assign? && s.rhs.Var? {
      var y := s.rhs.y;
      OneMore(x, t + [Gave(z)], Passed(y));
      assert t + [Gave(z), Passed(y)] == (t + [Gave(z)]) + [Passed(y)];
    } else if s.Decl? && s.init.Some? && s.init.value.Var? {
      var y := s.init.value.y;
      OneMore(x, t, Passed(y));
      OneMore(x, t + [Passed(y)], Gave(z));
      assert t + [Passed(y), Gave(z)] == (t + [Passed(y)]) + [Gave(z)];
    }
  }

  lemma {:induction false} PassedKeepsSpent(x: string, xs: seq<string>, t: History)
    ensures Spent(x, t + AllPassed(xs)) <==> Spent(x, t)
    decreases xs
  {
    hide Mine, Spent, Blank, Known;
    if xs == [] {
      assert t + AllPassed(xs) == t;
    } else {
      OneMore(x, t, Passed(xs[0]));
      PassedKeepsSpent(x, xs[1..], t + [Passed(xs[0])]);
      assert t + AllPassed(xs) == (t + [Passed(xs[0])]) + AllPassed(xs[1..]);
    }
  }

  lemma {:induction false} SeqOwnFrees(ss: seq<Stmt>, t: History, freed: set<string>, choices: seq<nat>)
    requires Agree(freed, t)
    ensures OwnFrees(RunSeq(ss, t, choices), ExecSeq(ss, freed, choices))
    decreases ss, 0
  {
    hide Run, Exec, Agree;
    if ss != [] {
      StmtOwnFrees(ss[0], t, freed, choices);
      SameWay(ss[0], t, freed, choices);
      var o, p := Run(ss[0], t, choices), Exec(ss[0], freed, choices);
      if !o.returned && o.frees.strays == {} {
        SeqOwnFrees(ss[1..], o.t, p.freed, o.choices);
      }
    }
  }

  lemma NothingFreed()
    ensures Agree({}, [])
  {
  }

  /** There, on a run that only frees memory of the variable's own, the reports are exactly the double frees. */
  lemma ReportsAreAgain(body: Stmt, names: set<string>, choices: seq<nat>)
    requires Scoped(body, names) && Apart(body) && Clear(body, map[], 0, {})
    requires Run(body, [], choices).frees.strays == {}
    ensures forall site <- Exec(body, {}, choices).reached ::
              Again(site) in Analyse(body, map[], 0).reports <==> site in Exec(body, {}, choices).again
  {
    hide Analyse, Run, Exec, Scoped, Apart, Clear;
    ReportsIff(body, names, choices);
    NothingFreed();
    StmtOwnFrees(body, [], {}, choices);
  }

  // ----- Straight-line code -----

  /** Declarations of pointers, assignments, frees, calls and blocks of such. */
  predicate Straight(s: Stmt)
    decreases s, 0
  {
    match s
    case Decl(_, isPointer, _) => isPointer
    case Compound(_) => false
    case If(_, _) => false
    case Switch(_, _) => false
    case Block(ss) => forall x <- ss :: Straight(x)
    case _ => true
  }

  /** Only names out of scope are blurred there, so none that is freed. */
  lemma {:induction false} StraightIsClear(s: Stmt, a: Flat, depth: nat, b: set<string>)
    requires Straight(s) && Scoped(s, a.Keys) && b !! a.Keys
    ensures Clear(s, a, depth, b) && Blur(s, a, depth, b) !! After(s, a.Keys)
    ensures Analyse(s, a, depth).view.Keys == After(s, a.Keys)
    decreases s, 0
  {
    match s
    case Block(ss) =>
      StraightSeqIsClear(ss, a, depth + 1, b);
      var v := AnalyseSeq(ss, a, depth + 1).view;
      forall n | n in a ensures n !in Extra([v], a) {
        ExtraIff([v], a, n);
      }
    case HandOver(xs) => HandOverNames(a, xs, a.Keys);
    case _ =>
  }

  lemma {:induction false} StraightSeqIsClear(ss: seq<Stmt>, a: Flat, depth: nat, b: set<string>)
    requires (forall x <- ss :: Straight(x)) && ScopedSeq(ss, a.Keys) && b !! a.Keys
    ensures ClearSeq(ss, a, depth, b) && BlurSeq(ss, a, depth, b) !! a.Keys
    decreases ss, 0
  {
    hide Analyse, Blur, Scoped, Straight, Clear;
    if ss != [] {
      StraightIsClear(ss[0], a, depth, b);
      StraightSeqIsClear(ss[1..], Analyse(ss[0], a, depth).view, depth, Blur(ss[0], a, depth, b));
    }
  }

  /** So in straight-line code every free of a pointer whose own memory was freed is reported, and nothing else is. */
  lemma StraightReportsIff(body: Stmt, choices: seq<nat>)
    requires Straight(body) && Scoped(body, {}) && Apart(body)
    ensures var (reports, f) := (Analyse(body, map[], 0).reports, Run(body, [], choices).frees);
            forall site <- f.reached ::
              (Again(site) in reports <==> site in f.again) && (Unset(site) in reports <==> site in f.blank)
  {
    hide Analyse, Run, Straight, Scoped, Apart, Clear, Blur;
    var none: Flat := map[];
    assert none.Keys == {};
    StraightIsClear(body, none, 0, {});
    ReportsIff(body, {}, choices);
  }

  // ----- Double frees that are missed -----

  lemma RunHead(s: Stmt, rest: seq<Stmt>, t: History, choices: seq<nat>)
    requires !Run(s, t, choices).returned
    ensures var o := Run(s, t, choices);
            var q := RunSeq(rest, o.t, o.choices);
            RunSeq([s] + rest, t, choices) == Trail(q.t, Both(o.frees, q.frees), q.returned, q.choices)
  {
    hide Run;
    assert ([s] + rest)[1..] == rest;
  }

  lemma RunOne(s: Stmt, t: History, choices: seq<nat>)
    requires !Run(s, t, choices).returned
    ensures RunSeq([s], t, choices).frees == Run(s, t, choices).frees
  {
    hide Run;
    assert [s][1..] == [];
  }

  /**
   `var p = alloc(); if (c) free(p); free(p); free(p);`: on every run the last call frees spent memory, but it is not
   reported, because after the `if` the analyser no longer knows what `p` holds.
   */
  lemma MixedMissed(x: string, choices: seq<nat>)
    ensures var body := Block([Decl(x, true, Some(Alloc)), If(Free(x, 1), None), Free(x, 2), Free(x, 3)]);
            && 3 in Run(body, [], choices).frees.reached && 3 in Run(body, [], choices).frees.again
            && Again(3) !in Analyse(body, map[], 0).reports
  {
    hide Analyse, AnalyseSeq, Run, RunSeq, Mine, Spent, Blank;
    var d, i, f2, f3 := Decl(x, true, Some(Alloc)), If(Free(x, 1), None), Free(x, 2), Free(x, 3);
    assert [d, i, f2, f3] == [d] + ([i] + ([f2] + [f3]));
    MixedRun(x, choices);
    MixedAnalysis(x);
  }

  lemma MixedRun(x: string, choices: seq<nat>)
    ensures var (d, i, f2, f3) := (Decl(x, true, Some(Alloc)), If(Free(x, 1), None), Free(x, 2), Free(x, 3));
            var f := Run(Block([d] + ([i] + ([f2] + [f3]))), [], choices).frees;
            3 in f.again && 3 in f.reached
  {
    hide Run, RunSeq, Mine, Spent, Blank;
    var d, i, f2, f3 := Decl(x, true, Some(Alloc)), If(Free(x, 1), None), Free(x, 2), Free(x, 3);
    var t1 := [Gave(x)];
    var t2 := Run(i, t1, choices).t;
    BlockRun([d] + ([i] + ([f2] + [f3])), choices);
    AllocRun(x, choices);
    PerhapsFreed(x, t1, choices);
    FreeRun(x, 2, t2, Tail(choices));
    FreeRun(x, 3, t2 + [Released(x)], Tail(choices));
    assert [] + t1 == t1;
    OneMore(x, [], Gave(x));
    OneMore(x, t1, Released(x));
    OneMore(x, t2, Released(x));
    RunHead(d, [i] + ([f2] + [f3]), [], choices);
    RunHead(i, [f2] + [f3], t1, choices);
    RunHead(f2, [f3], t2, Tail(choices));
    RunOne(f3, t2 + [Released(x)], Tail(choices));
  }

  lemma BlockRun(ss: seq<Stmt>, choices: seq<nat>)
    ensures Run(Block(ss), [], choices) == RunSeq(ss, [], choices)
  {
    hide RunSeq;
  }

  lemma AllocRun(x: string, choices: seq<nat>)
    ensures Run(Decl(x, true, Some(Alloc)), [], choices) == Trail([Gave(x)], NO_FREES, false, choices)
  {
    assert [] + [Gave(x)] == [Gave(x)];
  }

  lemma FreeRun(x: string, site: nat, t: History, choices: seq<nat>)
    ensures Run(Free(x, site), t, choices) == Trail(t + [Released(x)], FreeOf(x, site, t), false, choices)
  {
    hide FreeOf;
  }

  lemma PerhapsFreed(x: string, t: History, choices: seq<nat>)
    ensures var o := Run(If(Free(x, 1), None), t, choices);
            !o.returned && o.choices == Tail(choices) && (o.t == t || o.t == t + [Released(x)])
  {
    hide Spent, Mine, Blank;
  }

  lemma PerhapsFreedAnalysis(x: string)
    ensures var (a, m) := (map[x := Tracked(Allocated, 1, false, 0)], map[x := Tracked(Unknown, 1, false, 0)]);
            Analyse(If(Free(x, 1), None), a, 1) == Result(m, {})
            && forall site: nat :: Analyse(Free(x, site), m, 1) == Result(m, {})
  {
    var a, m := map[x := Tracked(Allocated, 1, false, 0)], map[x := Tracked(Unknown, 1, false, 0)];
    var r := Analyse(Free(x, 1), a, 1);
    assert r == Result(map[x := Tracked(Freed, 1, false, 1)], {});
    assert Merge(a[x], r.view[x]) == m[x];
    assert MergeInto(a, r.view) == m;
  }

  lemma MixedAnalysis(x: string)
    ensures var (d, i, f2, f3) := (Decl(x, true, Some(Alloc)), If(Free(x, 1), None), Free(x, 2), Free(x, 3));
            Again(3) !in Analyse(Block([d] + ([i] + ([f2] + [f3]))), map[], 0).reports
  {
    hide Analyse, AnalyseSeq;
    var d, i, f2, f3 := Decl(x, true, Some(Alloc)), If(Free(x, 1), None), Free(x, 2), Free(x, 3);
    var a, m := map[x := Tracked(Allocated, 1, false, 0)], map[x := Tracked(Unknown, 1, false, 0)];
    AllocThenFree(x, 1);
    PerhapsFreedAnalysis(x);
    BlockRuns([d] + ([i] + ([f2] + [f3])), map[], 0, {}, []);
    SeqHead(d, [i] + ([f2] + [f3]), map[], 1, {}, []);
    SeqHead(i, [f2] + [f3], a, 1, {}, []);
    assert [f3] == [f3] + [];
    SeqHead(f2, [f3], m, 1, {}, []);
    SeqHead(f3, [], m, 1, {}, []);
    EmptyAnalysis(m, 1);
  }

  lemma EmptyAnalysis(a: Flat, depth: nat)
    ensures AnalyseSeq([], a, depth) == Result(a, {})
  {
  }
}
