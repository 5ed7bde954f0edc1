/**
 Lifting preserves meaning: running the lifted code and then reading what is left of the expression
 gives the value, the early return, the variables and the calls of the expression itself.
 */
module LiftingCorrectness {
  import opened Options
  import opened ControlExpressions
  import opened Lifting
  import opened LiftingFacts

  // ----- Running code in pieces -----

  lemma {:induction false} RunConcat(w: World, fuel: nat, a: seq<TStmt>, b: seq<TStmt>, t: TState)
    ensures RunAll(w, fuel, a + b, t) ==
            if RunAll(w, fuel, a, t).0.Out? then RunAll(w, fuel, a, t) else RunAll(w, fuel, b, RunAll(w, fuel, a, t).1)
    decreases fuel, a
  {
    hide Run;
    if a == [] {
      assert a + b == b;
    } else {
      assert (a + b)[0] == a[0] && (a + b)[1..] == a[1..] + b;
      RunConcat(w, fuel, a[1..], b, Run(w, fuel, a[0], t).1);
    }
  }

  lemma RunCons(w: World, fuel: nat, a: TStmt, b: seq<TStmt>, t: TState)
    ensures RunAll(w, fuel, [a] + b, t) == if Run(w, fuel, a, t).0.Out? then Run(w, fuel, a, t)
      else RunAll(w, fuel, b, Run(w, fuel, a, t).1)
  {
    hide Run;
    assert ([a] + b)[1..] == b;
  }

  lemma RunOne(w: World, fuel: nat, a: TStmt, t: TState)
    ensures RunAll(w, fuel, [a], t) == if Run(w, fuel, a, t).0.Out? then Run(w, fuel, a, t)
      else (Val(Unit), Run(w, fuel, a, t).1)
  {
    hide Run;
    assert [a] == [a] + [];
    RunCons(w, fuel, a, [], t);
  }

  // ----- The claims -----

  /** Code, then rest, of a lifted expression started in `t` does what the expression does in `s`. */
  ghost predicate MatchesE(w: World, fuel: nat, e: Expr, k: nat, s: State, t: TState) {
    var l := LiftE(e, k);
    var (rc, t1) := RunAll(w, fuel, l.code, t);
    && SameTemps(t, t1, k, l.next)
    && SameVars(s, t1.user, WritesE(e))
    && (rc.Val? && l.e.Temp? ==> rc == Val(Unit) && Slot(t1, l.e.k).Some?)
    && EvalE(w, fuel, e, s) == if rc.Out? then (rc, t1.user)
      else (RunE(w, fuel, l.e, t1).0, RunE(w, fuel, l.e, t1).1.user)
  }

  ghost predicate MatchesArgs(w: World, fuel: nat, es: seq<Expr>, k: nat, s: State, t: TState) {
    var l := LiftArgs(es, k);
    var (rc, t1) := RunAll(w, fuel, l.code, t);
    && SameTemps(t, t1, k, l.next)
    && SameVars(s, t1.user, WritesArgs(es))
    && EvalArgs(w, fuel, es, s) == if rc.Out? then (OutAll(rc.x), t1.user)
      else (RunArgs(w, fuel, l.es, t1).0, RunArgs(w, fuel, l.es, t1).1.user)
  }

  /** Lifted code for a branch does what the branch does, and has assigned `temp` whenever it falls through. */
  ghost predicate Assigns(r: (Result, State), temp: nat, k: nat, next: nat, t: TState, rc: (Result, TState)) {
    && rc.1.user == r.1
    && (r.0.Out? ==> rc.0 == r.0)
    && (r.0.Val? ==> rc.0 == Val(Unit) && Slot(rc.1, temp) == Some(r.0.v))
    && forall j: nat :: (j < k || j >= next) && j != temp ==> Slot(t, j) == Slot(rc.1, j)
  }

  ghost predicate MatchesB(w: World, fuel: nat, b: Branch, temp: nat, k: nat, s: State, t: TState) {
    var l := LiftB(b, temp, k);
    Assigns(EvalB(w, fuel, b, s), temp, k, l.next, t, RunAll(w, fuel, l.code, t))
  }

  /** Lifted statements do what the statements do. */
  ghost predicate Does(r: (Result, State), k: nat, next: nat, t: TState, rc: (Result, TState)) {
    rc.0 == r.0 && rc.1.user == r.1 && SameTemps(t, rc.1, k, next)
  }

  // ----- Operands -----

  lemma {:induction false} ArgsMatch(w: World, fuel: nat, es: seq<Expr>, k: nat, s: State, t: TState)
    requires OrderlyArgs(es) && t.user == s
    ensures MatchesArgs(w, fuel, es, k, s, t)
    decreases fuel, es, 2
  {
    hide RunE, EvalE, LiftE, Run;
    if es == [] {
    } else {
      var l := LiftE(es[0], k);
      var rest := LiftArgs(es[1..], l.next);
      var (rc, t1) := RunAll(w, fuel, l.code, t);
      ExprMatches(w, fuel, es[0], k, s, t);
      RunConcat(w, fuel, l.code, rest.code, t);
      assert ([l.e] + rest.es)[1..] == rest.es;
      if rc.Val? {
        if LiftsArgs(es[1..]) && Calm(es[0]) {
          CalmRuns(w, fuel, es[0], k, t1, t1);
          ArgsMatch(w, fuel, es[1..], l.next, t1.user, t1);
          var (rc2, t2) := RunAll(w, fuel, rest.code, t1);
          CalmRuns(w, fuel, es[0], k, t1, t2);
        } else if LiftsArgs(es[1..]) {
          SteadyRuns(w, fuel, es[0], k, t1, t1);
          var t1' := RunE(w, fuel, l.e, t1).1;
          ArgsMatch(w, fuel, es[1..], l.next, t1'.user, t1');
          SilentLiftsArgs(es[1..], l.next);
          QuietRuns(w, fuel, rest.code, t1, t1'.user.trace);
          var t2 := RunAll(w, fuel, rest.code, t1).1;
          SlotsKept(t2, t1'.user.trace);
          SlotsKept(t1, t1'.user.trace);
          SteadyRuns(w, fuel, es[0], k, t1, t2);
        } else {
          NothingLiftedArgs(es[1..], l.next);
          var (r, t2) := RunE(w, fuel, l.e, t1);
          if r.Val? {
            ArgsMatch(w, fuel, es[1..], l.next, t2.user, t2);
          }
        }
      }
    }
  }

  lemma SlotsKept(t: TState, trace: seq<Event>)
    ensures forall j: nat :: Slot(WithTrace(t, trace), j) == Slot(t, j)
  {
  }

  lemma {:induction false} ExprMatches(w: World, fuel: nat, e: Expr, k: nat, s: State, t: TState)
    requires OrderlyE(e) && t.user == s
    ensures MatchesE(w, fuel, e, k, s, t)
    decreases fuel, e, 3
  {
    match e
    case Lit(_) =>
    case Var(_) =>
    case Op(_, args) => ArgsMatch(w, fuel, args, k, s, t);
    case Call(_, args) => ArgsMatch(w, fuel, args, k, s, t);
    case IfE(_, _, _, _, isVoid) =>
      if isVoid { VoidIfMatches(w, fuel, e, k, s, t); } else { IfMatches(w, fuel, e, k, s, t); }
    case SwitchE(_, _, _, isVoid) =>
      if isVoid { VoidSwitchMatches(w, fuel, e, k, s, t); } else { SwitchMatches(w, fuel, e, k, s, t); }
    case TryE(_) => TryMatches(w, fuel, e, k, s, t);
    case TryVoidE(_) => TryVoidMatches(w, fuel, e, k, s, t);
    case CatchE(_, _, _) => CatchMatches(w, fuel, e, k, s, t);
    case OrelseE(_, _) => OrelseMatches(w, fuel, e, k, s, t);
    case CatchVoidE(_, _, _) => CatchVoidMatches(w, fuel, e, k, s, t);
    case OrelseVoidE(_, _) => OrelseVoidMatches(w, fuel, e, k, s, t);
  }

  // ----- Temporaries holding a result -----

  function Got(r: Result): Value {
    if r.Val? then r.v else Undef
  }

  function Without(t: TState, k: nat): TState {
    t.(temps := t.temps - {k})
  }

  function With(t: TState, k: nat, v: Value): TState {
    t.(temps := t.temps[k := v])
  }

  /**
   The common end of every lifted form: the input's code ran, `tail` finishes, and the rest is the temporary.
   `rt` is the run of the tail.
   */
  lemma TempHolds(w: World, fuel: nat, e: Expr, x: Expr, k: nat, s: State, t: TState, tail: seq<TStmt>)
    requires var l := LiftE(x, k);
             LiftE(e, k).code == l.code + tail && LiftE(e, k).e == Temp(l.next) && LiftE(e, k).next > l.next
    requires MatchesE(w, fuel, x, k, s, t)
    requires EvalE(w, fuel, x, s).0.Out? ==> EvalE(w, fuel, e, s) == EvalE(w, fuel, x, s)
    requires var l := LiftE(x, k);
             var (rc, t1) := RunAll(w, fuel, l.code, t);
             rc.Val? ==>
               var rt := RunAll(w, fuel, tail, t1);
               Assigns(EvalE(w, fuel, e, s), l.next, l.next + 1, LiftE(e, k).next, t1, rt)
    ensures MatchesE(w, fuel, e, k, s, t)
  {
    hide EvalE, LiftE, RunAll;
    var l := LiftE(x, k);
    var (rc, t1) := RunAll(w, fuel, l.code, t);
    RunConcat(w, fuel, l.code, tail, t);
    FrameE(w, fuel, e, s);
    if rc.Val? {
      var (rt, t3) := RunAll(w, fuel, tail, t1);
      assert rt.Val? ==> RunE(w, fuel, Temp(l.next), t3).0.v == t3.temps[l.next] by {
        assert rt.Val? ==> Slot(t3, l.next).Some?;
      }
      forall j: nat | j < k || j >= LiftE(e, k).next ensures Slot(t, j) == Slot(t3, j) {
        assert Slot(t, j) == Slot(t1, j);
      }
    } else {
      assert SameTemps(t, t1, k, LiftE(e, k).next);
    }
  }

  /** What is left of the input evaluates the same after its successor temporary was touched. */
  lemma RestAfter(w: World, fuel: nat, x: Expr, k: nat, t1: TState, t1': TState)
    requires t1'.user == t1.user && SameTemps(t1, t1', LiftE(x, k).next, LiftE(x, k).next + 1)
    ensures Alike(RunE(w, fuel, LiftE(x, k).e, t1'), RunE(w, fuel, LiftE(x, k).e, t1))
  {
    Insensitive(w, fuel, x, k, t1', t1);
  }

  // ----- try -----

  lemma TryTail(w: World, fuel: nat, temp: nat, e: TExpr, t: TState)
    ensures var (r, t2) := RunE(w, fuel, e, Without(t, temp));
            RunAll(w, fuel, TryCode(temp, e), t) ==
            if r.Out? then (r, t2)
            else if r.v.Err? then (Out(Returned(r.v)), With(t2, temp + 1, r.v))
            else (Val(Unit), With(With(t2, temp + 1, r.v), temp, PayloadOf(r.v)))
  {
    hide RunE, RunAll;
    var t0 := Without(t, temp);
    var (r, t2) := RunE(w, fuel, e, t0);
    var c3 := [SetTemp(temp, PartOf(Payload, temp + 1))];
    var body := [TReturn(PartOf(AsError, temp + 1))];
    var i := TIf(PartOf(IsError, temp + 1), None, body, []);
    assert TryCode(temp, e) == [Declare(temp)] + ([DeclareAs(temp + 1, e)] + ([i] + c3));
    RunCons(w, fuel, Declare(temp), [DeclareAs(temp + 1, e)] + ([i] + c3), t);
    RunCons(w, fuel, DeclareAs(temp + 1, e), [i] + c3, t0);
    if r.Val? {
      var t3 := With(t2, temp + 1, r.v);
      RunCons(w, fuel, i, c3, t3);
      PartRuns(w, fuel, temp + 1, t3);
      RunOne(w, fuel, TReturn(PartOf(AsError, temp + 1)), t3);
      RunNone(w, fuel, t3);
      RunOne(w, fuel, SetTemp(temp, PartOf(Payload, temp + 1)), t3);
    }
  }

  lemma GoRuns(w: World, fuel: nat, j: Jump, t: TState)
    ensures RunAll(w, fuel, [TGo(j)], t) == (Out(Jumped(j)), t)
  {
    RunOne(w, fuel, TGo(j), t);
  }

  lemma RunNone(w: World, fuel: nat, t: TState)
    ensures RunAll(w, fuel, [], t) == (Val(Unit), t)
  {
  }

  lemma PartRuns(w: World, fuel: nat, k: nat, t: TState)
    ensures forall p: Part :: RunE(w, fuel, PartOf(p, k), t) == (Val(Select(p, TempValue(t, k))), t)
  {
  }

  lemma {:induction false} TryMatches(w: World, fuel: nat, e: Expr, k: nat, s: State, t: TState)
    requires e.TryE? && OrderlyE(e) && t.user == s
    ensures MatchesE(w, fuel, e, k, s, t)
    decreases fuel, e, 2
  {
    hide RunE, RunAll, SameTemps;
    var x := e.e;
    var l := LiftE(x, k);
    ExprMatches(w, fuel, x, k, s, t);
    var (rc, t1) := RunAll(w, fuel, l.code, t);
    if rc.Val? {
      TryTail(w, fuel, l.next, l.e, t1);
      TouchedOnce(t1, l.next);
      RestAfter(w, fuel, x, k, t1, Without(t1, l.next));
      TryAssigns(w, fuel, e, s, l.next, t1, l.e);
    }
    TempHolds(w, fuel, e, x, k, s, t, TryCode(l.next, l.e));
  }

  lemma TryVoidTail(w: World, fuel: nat, temp: nat, e: TExpr, t: TState)
    ensures var (r, t2) := RunE(w, fuel, e, t);
            RunAll(w, fuel, TryVoidCode(temp, e), t) ==
            if r.Out? then (r, t2)
            else if r.v.Err? then (Out(Returned(r.v)), With(t2, temp + 1, r.v))
            else (Val(Unit), With(t2, temp + 1, r.v))
  {
    hide RunE, RunAll;
    var (r, t2) := RunE(w, fuel, e, t);
    var i := TIf(PartOf(IsError, temp + 1), None, [TReturn(PartOf(AsError, temp + 1))], []);
    assert TryVoidCode(temp, e) == [DeclareAs(temp + 1, e)] + [i];
    RunCons(w, fuel, DeclareAs(temp + 1, e), [i], t);
    if r.Val? {
      var t3 := With(t2, temp + 1, r.v);
      RunOne(w, fuel, i, t3);
      PartRuns(w, fuel, temp + 1, t3);
      RunOne(w, fuel, TReturn(PartOf(AsError, temp + 1)), t3);
      RunNone(w, fuel, t3);
    }
  }

  lemma {:induction false} TryVoidMatches(w: World, fuel: nat, e: Expr, k: nat, s: State, t: TState)
    requires e.TryVoidE? && OrderlyE(e) && t.user == s
    ensures MatchesE(w, fuel, e, k, s, t)
    decreases fuel, e, 2
  {
    hide RunE, RunAll;
    var x := e.e;
    var l := LiftE(x, k);
    ExprMatches(w, fuel, x, k, s, t);
    FrameE(w, fuel, e, s);
    RunConcat(w, fuel, l.code, TryVoidCode(l.next, l.e), t);
    var (rc, t1) := RunAll(w, fuel, l.code, t);
    if rc.Val? {
      TryVoidTail(w, fuel, l.next, l.e, t1);
      var (r, t2) := RunE(w, fuel, l.e, t1);
      assert forall j: nat :: Slot(t2, j) == Slot(t1, j);
      LitRuns(w, fuel, Unit, With(t2, l.next + 1, Got(r)));
    }
  }

  lemma TouchedOnce(t: TState, k: nat)
    ensures SameTemps(t, Without(t, k), k, k + 1)
  {
  }

  lemma TryAssigns(w: World, fuel: nat, e: Expr, s: State, temp: nat, t1: TState, r: TExpr)
    requires e.TryE?
    requires var (v, t2) := RunE(w, fuel, r, Without(t1, temp)); EvalE(w, fuel, e.e, s) == (v, t2.user)
    ensures Assigns(EvalE(w, fuel, e, s), temp, temp + 1, temp + 2, t1, RunAll(w, fuel, TryCode(temp, r), t1))
  {
    hide RunE, RunAll;
    TryTail(w, fuel, temp, r, t1);
  }

  // ----- Expressions left in place -----

  lemma {:induction false} VoidIfMatches(w: World, fuel: nat, e: Expr, k: nat, s: State, t: TState)
    requires e.IfE? && e.isVoid && OrderlyE(e) && t.user == s
    ensures MatchesE(w, fuel, e, k, s, t)
    decreases fuel, e, 2
  {
    hide RunAll, EvalB, SameTemps;
    ExprMatches(w, fuel, e.cond, k, s, t);
  }

  lemma VoidSwitchMatches(w: World, fuel: nat, e: Expr, k: nat, s: State, t: TState)
    requires e.SwitchE? && e.isVoid && t.user == s
    ensures MatchesE(w, fuel, e, k, s, t)
  {
    hide EvalE;
  }

  // ----- if and switch -----

  /** A longer run that starts from a state differing at most inside the wider range. */
  lemma Widen(
    r: (Result, State), temp: nat, k: nat, next: nat, t: TState, rc: (Result, TState), k': nat, next': nat, t': TState)
    requires Assigns(r, temp, k, next, t, rc) && k' <= k && next <= next'
    requires forall j: nat :: (j < k' || j >= next') && j != temp ==> Slot(t', j) == Slot(t, j)
    ensures Assigns(r, temp, k', next', t', rc)
  {
  }

  /** The state in which an `if` enters its first branch. */
  function Entered(bind: Option<string>, v: Value, t: TState): TState {
    t.(user := Bound(bind, v, t.user))
  }

  lemma IfRuns(w: World, fuel: nat, e: TExpr, bind: Option<string>, a: seq<TStmt>, b: seq<TStmt>, t: TState)
    ensures var (r, t2) := RunE(w, fuel, e, t);
            var rb := if Passes(bind, Got(r)) then RunAll(w, fuel, a, Entered(bind, ValueIn(Got(r)), t2))
              else RunAll(w, fuel, b, t2);
            RunAll(w, fuel, [TIf(e, bind, a, b)], t) ==
            if r.Out? then (r, t2) else if rb.0.Out? then rb else (Val(Unit), rb.1)
  {
    hide RunE, RunAll;
    RunOne(w, fuel, TIf(e, bind, a, b), t);
  }

  lemma IfTail(w: World, fuel: nat, temp: nat, e: TExpr, bind: Option<string>, a: seq<TStmt>, b: seq<TStmt>, t: TState)
    ensures RunAll(w, fuel, [Declare(temp), TIf(e, bind, a, b)], t) ==
      RunAll(w, fuel, [TIf(e, bind, a, b)], Without(t, temp))
  {
    hide RunE, RunAll;
    assert [Declare(temp), TIf(e, bind, a, b)] == [Declare(temp)] + [TIf(e, bind, a, b)];
    RunCons(w, fuel, Declare(temp), [TIf(e, bind, a, b)], t);
  }

  lemma IfEquations(e: Expr, k: nat)
    requires e.IfE? && !e.isVoid
    ensures var l := LiftE(e.cond, k);
            var la := LiftB(e.thenB, l.next, l.next + 1);
            var lb := LiftB(e.elseB, l.next, la.next);
            LiftE(e, k) == LiftedE(l.code + [Declare(l.next), TIf(l.e, e.bind, la.code, lb.code)], Temp(l.next),
              lb.next)
  {
    hide LiftB;
  }

  lemma EvalIf(w: World, fuel: nat, e: Expr, s: State)
    requires e.IfE?
    ensures var (r, s1) := EvalE(w, fuel, e.cond, s);
            EvalE(w, fuel, e, s) ==
            if r.Out? then (r, s1)
            else if Passes(e.bind, r.v) then EvalB(w, fuel, e.thenB, Bound(e.bind, ValueIn(r.v), s1))
            else EvalB(w, fuel, e.elseB, s1)
  {
    hide EvalB;
  }

  lemma {:induction false} IfMatches(w: World, fuel: nat, e: Expr, k: nat, s: State, t: TState)
    requires e.IfE? && !e.isVoid && OrderlyE(e) && t.user == s
    ensures MatchesE(w, fuel, e, k, s, t)
    decreases fuel, e, 2
  {
    hide RunE, RunAll, SameTemps, LiftE, LiftB, EvalE, EvalB;
    var l := LiftE(e.cond, k);
    var temp := l.next;
    var la := LiftB(e.thenB, temp, temp + 1);
    var lb := LiftB(e.elseB, temp, la.next);
    IfEquations(e, k);
    EvalIf(w, fuel, e, s);
    ExprMatches(w, fuel, e.cond, k, s, t);
    var (rc, t1) := RunAll(w, fuel, l.code, t);
    if rc.Val? {
      IfTail(w, fuel, temp, l.e, e.bind, la.code, lb.code, t1);
      IfRuns(w, fuel, l.e, e.bind, la.code, lb.code, Without(t1, temp));
      TouchedOnce(t1, temp);
      RestAfter(w, fuel, e.cond, k, t1, Without(t1, temp));
      var (r, t2) := RunE(w, fuel, l.e, Without(t1, temp));
      if r.Out? {
        LeavesEarly(r, temp, temp + 1, lb.next, t1, t2);
      } else if Passes(e.bind, r.v) {
        var t3 := Entered(e.bind, ValueIn(r.v), t2);
        BranchMatches(w, fuel, e.thenB, temp, temp + 1, t3.user, t3);
        Widen(EvalB(w, fuel, e.thenB, t3.user), temp, temp + 1, la.next, t3, RunAll(w, fuel, la.code, t3),
          temp + 1, lb.next, t1);
      } else {
        BranchMatches(w, fuel, e.elseB, temp, la.next, t2.user, t2);
        Widen(EvalB(w, fuel, e.elseB, t2.user), temp, la.next, lb.next, t2, RunAll(w, fuel, lb.code, t2),
          temp + 1, lb.next, t1);
      }
    }
    TempHolds(w, fuel, e, e.cond, k, s, t, [Declare(temp), TIf(l.e, e.bind, la.code, lb.code)]);
  }

  lemma LeavesEarly(r: Result, temp: nat, k: nat, next: nat, t1: TState, t2: TState)
    requires r.Out? && t2.temps == Without(t1, temp).temps
    ensures Assigns((r, t2.user), temp, k, next, t1, (r, t2))
  {
  }

  lemma SwitchTail(w: World, fuel: nat, temp: nat, e: TExpr, prongs: seq<TProng>, other: seq<TStmt>, t: TState)
    ensures var (r, t2) := RunE(w, fuel, e, Without(t, temp));
            var p := TTaken(prongs, other, Got(r));
            var rb := RunAll(w, fuel, p.body, Entered(p.bind, Content(Got(r)), t2));
            RunAll(w, fuel, [Declare(temp), TSwitch(e, prongs, other)], t) ==
            if r.Out? then (r, t2) else if rb.0.Out? then rb else (Val(Unit), rb.1)
  {
    hide RunE, RunAll, TTaken;
    var sw := TSwitch(e, prongs, other);
    assert [Declare(temp), sw] == [Declare(temp)] + [sw];
    RunCons(w, fuel, Declare(temp), [sw], t);
    RunOne(w, fuel, sw, Without(t, temp));
  }

  lemma SwitchEquations(e: Expr, k: nat)
    requires e.SwitchE? && !e.isVoid
    ensures var l := LiftE(e.scrutinee, k);
            var lp := LiftProngs(e.prongs, l.next, l.next + 1);
            var lo := LiftB(e.other, l.next, lp.next);
            LiftE(e, k) == LiftedE(l.code + [Declare(l.next), TSwitch(l.e, lp.prongs, lo.code)], Temp(l.next), lo.next)
  {
    hide LiftB, LiftProngs;
  }

  lemma EvalSwitch(w: World, fuel: nat, e: Expr, s: State)
    requires e.SwitchE?
    ensures var (r, s1) := EvalE(w, fuel, e.scrutinee, s);
            var p := Taken(e.prongs, e.other, Got(r));
            EvalE(w, fuel, e, s) == if r.Out? then (r, s1) else EvalB(w, fuel, p.body, Bound(p.bind, Content(r.v), s1))
  {
    hide EvalB;
    var (r, s1) := EvalE(w, fuel, e.scrutinee, s);
    if r.Val? {
      var p := Taken(e.prongs, e.other, r.v);
      assert EvalE(w, fuel, e, s) == EvalB(w, fuel, p.body, Bound(p.bind, Content(r.v), s1));
    }
  }

  /** The prong a lifted switch takes is the lifted prong the switch takes. */
  lemma {:induction false} TakenLifted(prongs: seq<Prong>, other: Branch, temp: nat, k: nat, v: Value) returns (at: nat)
    ensures var lp := LiftProngs(prongs, temp, k);
            var lo := LiftB(other, temp, lp.next);
            var p := Taken(prongs, other, v);
            var l := LiftB(p.body, temp, at);
            var q := TTaken(lp.prongs, lo.code, v);
            q.body == l.code && q.bind == p.bind && k <= at && l.next <= lo.next
    decreases prongs
  {
    hide LiftB;
    var lp := LiftProngs(prongs, temp, k);
    if prongs == [] {
      at := k;
    } else if Key(v) in prongs[0].items {
      at := k;
    } else {
      at := TakenLifted(prongs[1..], other, temp, LiftB(prongs[0].body, temp, k).next, v);
      assert lp.prongs[1..] == LiftProngs(prongs[1..], temp, LiftB(prongs[0].body, temp, k).next).prongs;
    }
  }

  lemma {:induction false} SwitchMatches(w: World, fuel: nat, e: Expr, k: nat, s: State, t: TState)
    requires e.SwitchE? && !e.isVoid && OrderlyE(e) && t.user == s
    ensures MatchesE(w, fuel, e, k, s, t)
    decreases fuel, e, 2
  {
    hide RunE, RunAll, SameTemps, LiftE, LiftB, LiftProngs, EvalE, EvalB, Taken, TTaken;
    var l := LiftE(e.scrutinee, k);
    var temp := l.next;
    var lp := LiftProngs(e.prongs, temp, temp + 1);
    var lo := LiftB(e.other, temp, lp.next);
    SwitchEquations(e, k);
    EvalSwitch(w, fuel, e, s);
    ExprMatches(w, fuel, e.scrutinee, k, s, t);
    var (rc, t1) := RunAll(w, fuel, l.code, t);
    if rc.Val? {
      SwitchTail(w, fuel, temp, l.e, lp.prongs, lo.code, t1);
      TouchedOnce(t1, temp);
      RestAfter(w, fuel, e.scrutinee, k, t1, Without(t1, temp));
      var (r, t2) := RunE(w, fuel, l.e, Without(t1, temp));
      if r.Out? {
        LeavesEarly(r, temp, temp + 1, lo.next, t1, t2);
      } else {
        var at := TakenLifted(e.prongs, e.other, temp, temp + 1, r.v);
        var p := Taken(e.prongs, e.other, r.v);
        assert OrderlyB(p.body);
        var t3 := Entered(p.bind, Content(r.v), t2);
        BranchMatches(w, fuel, p.body, temp, at, t3.user, t3);
        var lb := LiftB(p.body, temp, at);
        Widen(EvalB(w, fuel, p.body, t3.user), temp, at, lb.next, t3, RunAll(w, fuel, lb.code, t3),
          temp + 1, lo.next, t1);
      }
    }
    TempHolds(w, fuel, e, e.scrutinee, k, s, t, [Declare(temp), TSwitch(l.e, lp.prongs, lo.code)]);
  }

  // ----- catch and orelse -----

  lemma CatchTail(w: World, fuel: nat, temp: nat, e: TExpr, cap: Option<string>, h: seq<TStmt>, t: TState)
    ensures var (r, t2) := RunE(w, fuel, e, With(t, temp, Int(0)));
            var t3 := With(t2, temp + 1, Got(r));
            var rh := RunAll(w, fuel, h, t3.(user := Captured(cap, Got(r), t2.user)));
            RunAll(w, fuel, CatchCode(temp, e, cap, h), t) ==
            if r.Out? then (r, t2)
            else if r.v.Err? then (if rh.0.Out? then rh else (Val(Unit), rh.1))
            else (Val(Unit), With(t3, temp, PayloadOf(r.v)))
  {
    hide RunE, RunAll;
    var t0 := With(t, temp, Int(0));
    var (r, t2) := RunE(w, fuel, e, t0);
    var good := [SetTemp(temp, PartOf(Payload, temp + 1))];
    var i := TIf(PartOf(IsError, temp + 1), None, CaptureCode(temp, cap) + h, good);
    assert CatchCode(temp, e, cap, h) == [DeclareAs(temp, TLit(Int(0)))] + ([DeclareAs(temp + 1, e)] + [i]);
    RunCons(w, fuel, DeclareAs(temp, TLit(Int(0))), [DeclareAs(temp + 1, e)] + [i], t);
    LitRuns(w, fuel, Int(0), t);
    RunCons(w, fuel, DeclareAs(temp + 1, e), [i], t0);
    if r.Val? {
      var t3 := With(t2, temp + 1, r.v);
      PartRuns(w, fuel, temp + 1, t3);
      RunOne(w, fuel, i, t3);
      RunOne(w, fuel, SetTemp(temp, PartOf(Payload, temp + 1)), t3);
      RunConcat(w, fuel, CaptureCode(temp, cap), h, t3);
      if cap.Some? {
        RunOne(w, fuel, TSet(cap.value, PartOf(ErrorCode, temp + 1)), t3);
      } else {
        RunNone(w, fuel, t3);
      }
    }
  }

  lemma LitRuns(w: World, fuel: nat, v: Value, t: TState)
    ensures RunE(w, fuel, TLit(v), t) == (Val(v), t)
  {
  }

  lemma CatchEquations(w: World, fuel: nat, e: Expr, k: nat, s: State)
    requires e.CatchE?
    ensures var l := LiftE(e.e, k);
            var lh := LiftB(e.handler, l.next, l.next + 2);
            LiftE(e, k) == LiftedE(l.code + CatchCode(l.next, l.e, e.capture, lh.code), Temp(l.next), lh.next)
    ensures var (r, s1) := EvalE(w, fuel, e.e, s);
            EvalE(w, fuel, e, s) ==
            if r.Out? then (r, s1)
            else if r.v.Err? then EvalB(w, fuel, e.handler, Captured(e.capture, r.v, s1))
            else (Val(PayloadOf(r.v)), s1)
  {
    hide LiftB, EvalB;
  }

  lemma {:induction false} CatchMatches(w: World, fuel: nat, e: Expr, k: nat, s: State, t: TState)
    requires e.CatchE? && OrderlyE(e) && t.user == s
    ensures MatchesE(w, fuel, e, k, s, t)
    decreases fuel, e, 2
  {
    hide RunE, RunAll, SameTemps, LiftE, LiftB, EvalE, EvalB;
    var x, h := e.e, e.handler;
    var l := LiftE(x, k);
    var temp := l.next;
    var lh := LiftB(h, temp, temp + 2);
    CatchEquations(w, fuel, e, k, s);
    ExprMatches(w, fuel, x, k, s, t);
    var (rc, t1) := RunAll(w, fuel, l.code, t);
    if rc.Val? {
      CatchTail(w, fuel, temp, l.e, e.capture, lh.code, t1);
      var t0 := With(t1, temp, Int(0));
      TouchedWith(t1, temp, Int(0));
      RestAfter(w, fuel, x, k, t1, t0);
      var (r, t2) := RunE(w, fuel, l.e, t0);
      if r.Val? && r.v.Err? {
        var t4 := With(t2, temp + 1, r.v).(user := Captured(e.capture, r.v, t2.user));
        BranchMatches(w, fuel, h, temp, temp + 2, t4.user, t4);
        Widen(EvalB(w, fuel, h, t4.user), temp, temp + 2, lh.next, t4, RunAll(w, fuel, lh.code, t4),
          temp + 1, lh.next, t1);
      }
    }
    TempHolds(w, fuel, e, x, k, s, t, CatchCode(temp, l.e, e.capture, lh.code));
  }

  lemma TouchedWith(t: TState, k: nat, v: Value)
    ensures SameTemps(t, With(t, k, v), k, k + 1)
  {
  }

  lemma OrelseTail(w: World, fuel: nat, temp: nat, e: TExpr, alt: seq<TStmt>, t: TState)
    ensures var (r, t2) := RunE(w, fuel, e, Without(t, temp));
            var t3 := With(t2, temp + 1, Got(r));
            var ra := RunAll(w, fuel, alt, t3);
            RunAll(w, fuel, OrelseCode(temp, e, alt), t) ==
            if r.Out? then (r, t2)
            else if r.v.Just? then (Val(Unit), With(t3, temp, r.v.value))
            else if ra.0.Out? then ra else (Val(Unit), ra.1)
  {
    hide RunE, RunAll;
    var t0 := Without(t, temp);
    var (r, t2) := RunE(w, fuel, e, t0);
    var has := [SetTemp(temp, PartOf(OptionalValue, temp + 1))];
    var i := TIf(PartOf(HasValue, temp + 1), None, has, alt);
    assert OrelseCode(temp, e, alt) == [Declare(temp)] + ([DeclareAs(temp + 1, e)] + [i]);
    RunCons(w, fuel, Declare(temp), [DeclareAs(temp + 1, e)] + [i], t);
    RunCons(w, fuel, DeclareAs(temp + 1, e), [i], t0);
    if r.Val? {
      var t3 := With(t2, temp + 1, r.v);
      PartRuns(w, fuel, temp + 1, t3);
      RunOne(w, fuel, i, t3);
      RunOne(w, fuel, SetTemp(temp, PartOf(OptionalValue, temp + 1)), t3);
    }
  }

  lemma OrelseEquations(w: World, fuel: nat, e: Expr, k: nat, s: State)
    requires e.OrelseE?
    ensures var l := LiftE(e.e, k);
            var la := LiftB(e.alt, l.next, l.next + 2);
            LiftE(e, k) == LiftedE(l.code + OrelseCode(l.next, l.e, la.code), Temp(l.next), la.next)
    ensures var (r, s1) := EvalE(w, fuel, e.e, s);
            EvalE(w, fuel, e, s) ==
            if r.Out? then (r, s1) else if r.v.Just? then (Val(r.v.value), s1) else EvalB(w, fuel, e.alt, s1)
  {
    hide LiftB, EvalB;
  }

  lemma {:induction false} OrelseMatches(w: World, fuel: nat, e: Expr, k: nat, s: State, t: TState)
    requires e.OrelseE? && OrderlyE(e) && t.user == s
    ensures MatchesE(w, fuel, e, k, s, t)
    decreases fuel, e, 2
  {
    hide RunE, RunAll, SameTemps, LiftE, LiftB, EvalE, EvalB;
    var x, alt := e.e, e.alt;
    var l := LiftE(x, k);
    var temp := l.next;
    var la := LiftB(alt, temp, temp + 2);
    OrelseEquations(w, fuel, e, k, s);
    ExprMatches(w, fuel, x, k, s, t);
    var (rc, t1) := RunAll(w, fuel, l.code, t);
    if rc.Val? {
      OrelseTail(w, fuel, temp, l.e, la.code, t1);
      TouchedOnce(t1, temp);
      RestAfter(w, fuel, x, k, t1, Without(t1, temp));
      var (r, t2) := RunE(w, fuel, l.e, Without(t1, temp));
      if r.Val? && !r.v.Just? {
        var t3 := With(t2, temp + 1, r.v);
        BranchMatches(w, fuel, alt, temp, temp + 2, t3.user, t3);
        Widen(EvalB(w, fuel, alt, t3.user), temp, temp + 2, la.next, t3, RunAll(w, fuel, la.code, t3),
          temp + 1, la.next, t1);
      }
    }
    TempHolds(w, fuel, e, x, k, s, t, OrelseCode(temp, l.e, la.code));
  }

  // ----- The same without a value -----

  /** The common end of the void forms: the tail does what the expression does, and what is left is no value. */
  lemma VoidHolds(w: World, fuel: nat, e: Expr, x: Expr, k: nat, s: State, t: TState, tail: seq<TStmt>)
    requires var l := LiftE(x, k);
             LiftE(e, k).code == l.code + tail && LiftE(e, k).e == TLit(Unit) && LiftE(e, k).next > l.next
    requires MatchesE(w, fuel, x, k, s, t)
    requires EvalE(w, fuel, x, s).0.Out? ==> EvalE(w, fuel, e, s) == EvalE(w, fuel, x, s)
    requires var l := LiftE(x, k);
             var (rc, t1) := RunAll(w, fuel, l.code, t);
             rc.Val? ==> Does(EvalE(w, fuel, e, s), l.next, LiftE(e, k).next, t1, RunAll(w, fuel, tail, t1))
    requires EvalE(w, fuel, e, s).0.Out? || EvalE(w, fuel, e, s).0 == Val(Unit)
    ensures MatchesE(w, fuel, e, k, s, t)
  {
    hide EvalE, LiftE, RunAll;
    var l := LiftE(x, k);
    var (rc, t1) := RunAll(w, fuel, l.code, t);
    RunConcat(w, fuel, l.code, tail, t);
    FrameE(w, fuel, e, s);
    if rc.Val? {
      var (rt, t3) := RunAll(w, fuel, tail, t1);
      LitRuns(w, fuel, Unit, t3);
    } else {
      assert SameTemps(t, t1, k, LiftE(e, k).next);
    }
  }

  lemma CatchVoidTail(w: World, fuel: nat, temp: nat, e: TExpr, cap: Option<string>, h: seq<TStmt>, t: TState)
    ensures var (r, t2) := RunE(w, fuel, e, t);
            var t3 := With(t2, temp + 1, Got(r));
            var rh := RunAll(w, fuel, h, t3.(user := Captured(cap, Got(r), t2.user)));
            RunAll(w, fuel, CatchVoidCode(temp, e, cap, h), t) ==
            if r.Out? then (r, t2)
            else if r.v.Err? then (if rh.0.Out? then rh else (Val(Unit), rh.1))
            else (Val(Unit), t3)
  {
    hide RunE, RunAll;
    var (r, t2) := RunE(w, fuel, e, t);
    var i := TIf(PartOf(IsError, temp + 1), None, CaptureCode(temp, cap) + h, [TEval(TLit(Unit))]);
    assert CatchVoidCode(temp, e, cap, h) == [DeclareAs(temp + 1, e)] + [i];
    RunCons(w, fuel, DeclareAs(temp + 1, e), [i], t);
    if r.Val? {
      var t3 := With(t2, temp + 1, r.v);
      PartRuns(w, fuel, temp + 1, t3);
      RunOne(w, fuel, i, t3);
      RunOne(w, fuel, TEval(TLit(Unit)), t3);
      LitRuns(w, fuel, Unit, t3);
      RunConcat(w, fuel, CaptureCode(temp, cap), h, t3);
      if cap.Some? {
        RunOne(w, fuel, TSet(cap.value, PartOf(ErrorCode, temp + 1)), t3);
      } else {
        RunNone(w, fuel, t3);
      }
    }
  }

  lemma CatchVoidEquations(w: World, fuel: nat, e: Expr, k: nat, s: State)
    requires e.CatchVoidE?
    ensures var l := LiftE(e.e, k);
            var lb := LiftAll(e.body, l.next + 2);
            LiftE(e, k) == LiftedE(l.code + CatchVoidCode(l.next, l.e, e.capture, lb.code), TLit(Unit), lb.next)
    ensures var (r, s1) := EvalE(w, fuel, e.e, s);
            EvalE(w, fuel, e, s) ==
            if r.Out? then (r, s1)
            else if r.v.Err? then ExecAll(w, fuel, e.body, Captured(e.capture, r.v, s1))
            else (Val(Unit), s1)
  {
    hide LiftAll, ExecAll;
  }

  lemma {:induction false} CatchVoidMatches(w: World, fuel: nat, e: Expr, k: nat, s: State, t: TState)
    requires e.CatchVoidE? && OrderlyE(e) && t.user == s
    ensures MatchesE(w, fuel, e, k, s, t)
    decreases fuel, e, 2
  {
    hide RunE, RunAll, LiftE, LiftAll, EvalE, ExecAll;
    var x, b := e.e, e.body;
    var l := LiftE(x, k);
    var temp := l.next;
    var lb := LiftAll(b, temp + 2);
    CatchVoidEquations(w, fuel, e, k, s);
    ExprMatches(w, fuel, x, k, s, t);
    var (r0, s1) := EvalE(w, fuel, x, s);
    FallsUnitAll(w, fuel, b, Captured(e.capture, Got(r0), s1));
    var (rc, t1) := RunAll(w, fuel, l.code, t);
    if rc.Val? {
      CatchVoidTail(w, fuel, temp, l.e, e.capture, lb.code, t1);
      var (r, t2) := RunE(w, fuel, l.e, t1);
      var t4 := With(t2, temp + 1, Got(r)).(user := Captured(e.capture, Got(r), t2.user));
      AllMatch(w, fuel, b, temp + 2, t4.user, t4);
      assert forall j: nat :: j != temp + 1 ==> Slot(t4, j) == Slot(t1, j);
    }
    VoidHolds(w, fuel, e, x, k, s, t, CatchVoidCode(temp, l.e, e.capture, lb.code));
  }

  lemma OrelseVoidTail(w: World, fuel: nat, temp: nat, e: TExpr, alt: seq<TStmt>, t: TState)
    ensures var (r, t2) := RunE(w, fuel, e, t);
            var t3 := With(t2, temp + 1, Got(r));
            var ra := RunAll(w, fuel, alt, t3);
            RunAll(w, fuel, OrelseVoidCode(temp, e, alt), t) ==
            if r.Out? then (r, t2)
            else if r.v.Just? then (Val(Unit), With(t3, temp, Unit))
            else if ra.0.Out? then ra else (Val(Unit), ra.1)
  {
    hide RunE, RunAll;
    var (r, t2) := RunE(w, fuel, e, t);
    var i := TIf(PartOf(HasValue, temp + 1), None, [SetTemp(temp, TLit(Unit))], alt);
    assert OrelseVoidCode(temp, e, alt) == [DeclareAs(temp + 1, e)] + [i];
    RunCons(w, fuel, DeclareAs(temp + 1, e), [i], t);
    if r.Val? {
      var t3 := With(t2, temp + 1, r.v);
      PartRuns(w, fuel, temp + 1, t3);
      RunOne(w, fuel, i, t3);
      RunOne(w, fuel, SetTemp(temp, TLit(Unit)), t3);
      LitRuns(w, fuel, Unit, t3);
    }
  }

  lemma OrelseVoidEquations(w: World, fuel: nat, e: Expr, k: nat, s: State)
    requires e.OrelseVoidE?
    ensures var l := LiftE(e.e, k);
            var lb := LiftAll(e.body, l.next + 2);
            LiftE(e, k) == LiftedE(l.code + OrelseVoidCode(l.next, l.e, lb.code), TLit(Unit), lb.next)
    ensures var (r, s1) := EvalE(w, fuel, e.e, s);
            EvalE(w, fuel, e, s) ==
            if r.Out? then (r, s1) else if r.v.Just? then (Val(Unit), s1) else ExecAll(w, fuel, e.body, s1)
  {
    hide LiftAll, ExecAll;
  }

  lemma {:induction false} OrelseVoidMatches(w: World, fuel: nat, e: Expr, k: nat, s: State, t: TState)
    requires e.OrelseVoidE? && OrderlyE(e) && t.user == s
    ensures MatchesE(w, fuel, e, k, s, t)
    decreases fuel, e, 2
  {
    hide RunE, RunAll, LiftE, LiftAll, EvalE, ExecAll;
    var x, b := e.e, e.body;
    var l := LiftE(x, k);
    var temp := l.next;
    var lb := LiftAll(b, temp + 2);
    OrelseVoidEquations(w, fuel, e, k, s);
    ExprMatches(w, fuel, x, k, s, t);
    FallsUnitAll(w, fuel, b, EvalE(w, fuel, x, s).1);
    var (rc, t1) := RunAll(w, fuel, l.code, t);
    if rc.Val? {
      OrelseVoidTail(w, fuel, temp, l.e, lb.code, t1);
      var (r, t2) := RunE(w, fuel, l.e, t1);
      var t3 := With(t2, temp + 1, Got(r));
      AllMatch(w, fuel, b, temp + 2, t3.user, t3);
      assert forall j: nat :: j != temp + 1 ==> Slot(t3, j) == Slot(t1, j);
    }
    VoidHolds(w, fuel, e, x, k, s, t, OrelseVoidCode(temp, l.e, lb.code));
  }

  // ----- Branches and statements -----

  lemma ReturnTryTail(w: World, fuel: nat, temp: nat, e: TExpr, t: TState)
    ensures var (r, t2) := RunE(w, fuel, e, Without(t, temp));
            RunAll(w, fuel, ReturnTryCode(temp, e), t) ==
            if r.Out? then (r, t2)
            else (Out(Returned(Propagated(r.v))), With(With(t2, temp + 1, r.v), temp, Propagated(r.v)))
  {
    hide RunE, RunAll;
    var t0 := Without(t, temp);
    var (r, t2) := RunE(w, fuel, e, t0);
    var bad, good := SetTemp(temp, PartOf(AsError, temp + 1)), SetTemp(temp, PartOf(AsOk, temp + 1));
    var i := TIf(PartOf(IsError, temp + 1), None, [bad], [good]);
    var ret := [TReturn(Temp(temp))];
    assert ReturnTryCode(temp, e) == [Declare(temp)] + ([DeclareAs(temp + 1, e)] + ([i] + ret));
    RunCons(w, fuel, Declare(temp), [DeclareAs(temp + 1, e)] + ([i] + ret), t);
    RunCons(w, fuel, DeclareAs(temp + 1, e), [i] + ret, t0);
    if r.Val? {
      var t3 := With(t2, temp + 1, r.v);
      PartRuns(w, fuel, temp + 1, t3);
      RunCons(w, fuel, i, ret, t3);
      RunOne(w, fuel, bad, t3);
      RunOne(w, fuel, good, t3);
      var t4 := With(t3, temp, Propagated(r.v));
      RunOne(w, fuel, TReturn(Temp(temp)), t4);
      TempRuns(w, fuel, temp, t4);
    }
  }

  lemma TempRuns(w: World, fuel: nat, k: nat, t: TState)
    ensures RunE(w, fuel, Temp(k), t) == (Val(TempValue(t, k)), t)
  {
  }

  /** The lifted expression of a statement followed by what the statement does with it. */
  lemma {:induction false} UsesExpr(w: World, fuel: nat, e: Expr, k: nat, s: State, t: TState, last: TStmt)
    requires OrderlyE(e) && t.user == s
    requires last == TEval(LiftE(e, k).e) || last == TReturn(LiftE(e, k).e) || (last.TSet? && last.e == LiftE(e, k).e)
      || (last.SetTemp? && last.e == LiftE(e, k).e)
    ensures var l := LiftE(e, k);
            var rc := RunAll(w, fuel, l.code + [last], t);
            var (r, s1) := EvalE(w, fuel, e, s);
            && (r.Out? ==> rc.0 == r && rc.1.user == s1 && SameTemps(t, rc.1, k, l.next))
            && (r.Val? && last.TEval? ==> rc.0 == Val(Unit) && rc.1.user == s1 && SameTemps(t, rc.1, k, l.next))
            && (r.Val? && last.TReturn? ==>
                  rc.0 == Out(Returned(r.v)) && rc.1.user == s1 && SameTemps(t, rc.1, k, l.next))
            && (r.Val? && last.TSet? ==>
                  rc.0 == Val(Unit) && rc.1.user == s1.(vars := s1.vars[last.x := r.v])
                    && SameTemps(t, rc.1, k, l.next))
            && (r.Val? && last.SetTemp? ==>
                  rc.0 == Val(Unit) && rc.1.user == s1 && Slot(rc.1, last.k) == Some(r.v)
                  && forall j: nat :: (j < k || j >= l.next) && j != last.k ==> Slot(t, j) == Slot(rc.1, j))
    decreases fuel, e, 4
  {
    hide RunE, RunAll, LiftE, EvalE;
    var l := LiftE(e, k);
    ExprMatches(w, fuel, e, k, s, t);
    RunConcat(w, fuel, l.code, [last], t);
    var (rc, t1) := RunAll(w, fuel, l.code, t);
    if rc.Val? {
      RunOne(w, fuel, last, t1);
      var (r2, t2) := RunE(w, fuel, l.e, t1);
      assert forall j: nat :: Slot(t2, j) == Slot(t1, j);
    }
  }

  lemma {:induction false} ReturnTryMatches(w: World, fuel: nat, e: Expr, k: nat, s: State, t: TState)
    requires OrderlyE(e) && t.user == s
    ensures var l := LiftE(e, k);
            var rc := RunAll(w, fuel, l.code + ReturnTryCode(l.next, l.e), t);
            var (r, s1) := EvalE(w, fuel, e, s);
            rc.0 == (if r.Out? then r else Out(Returned(Propagated(r.v)))) && rc.1.user == s1
              && SameTemps(t, rc.1, k, l.next + 2)
    decreases fuel, e, 4
  {
    hide RunE, RunAll, LiftE, EvalE;
    var l := LiftE(e, k);
    ExprMatches(w, fuel, e, k, s, t);
    RunConcat(w, fuel, l.code, ReturnTryCode(l.next, l.e), t);
    var (rc, t1) := RunAll(w, fuel, l.code, t);
    if rc.Val? {
      ReturnTryTail(w, fuel, l.next, l.e, t1);
      TouchedOnce(t1, l.next);
      RestAfter(w, fuel, e, k, t1, Without(t1, l.next));
    }
  }

  lemma {:induction false} BranchMatches(w: World, fuel: nat, b: Branch, temp: nat, k: nat, s: State, t: TState)
    requires OrderlyB(b) && t.user == s && temp < k
    ensures MatchesB(w, fuel, b, temp, k, s, t)
    decreases fuel, b, 2
  {
    hide RunE, RunAll, EvalTail, LiftTail, Run, Exec, LiftAll, ExecAll;
    var last := LiftTail(b.tail, temp, k);
    var init := LiftAll(b.ss, last.next);
    AllMatch(w, fuel, b.ss, last.next, s, t);
    RunConcat(w, fuel, init.code, last.code, t);
    var (rc, t1) := RunAll(w, fuel, init.code, t);
    if rc.Val? {
      TailMatches(w, fuel, b.tail, temp, k, t1);
      Widen(EvalTail(w, fuel, b.tail, t1.user), temp, k, last.next, t1, RunAll(w, fuel, last.code, t1), k, init.next,
        t);
    }
  }

  lemma {:induction false} TailMatches(w: World, fuel: nat, tail: Tail, temp: nat, k: nat, t: TState)
    requires (tail.Away? || OrderlyE(tail.e)) && temp < k
    ensures var l := LiftTail(tail, temp, k);
            Assigns(EvalTail(w, fuel, tail, t.user), temp, k, l.next, t, RunAll(w, fuel, l.code, t))
    decreases fuel, tail, 5
  {
    hide RunE, RunAll, LiftE, EvalE;
    match tail
    case Yield(e) =>
      if ExitsE(e) {
        ExitsReturnE(w, fuel, e, t.user);
        UsesExpr(w, fuel, e, k, t.user, t, TEval(LiftE(e, k).e));
      } else {
        UsesExpr(w, fuel, e, k, t.user, t, SetTemp(temp, LiftE(e, k).e));
      }
    case Leave(e) =>
      UsesExpr(w, fuel, e, k, t.user, t, TReturn(LiftE(e, k).e));
      var (r, s1) := EvalE(w, fuel, e, t.user);
      assert EvalTail(w, fuel, tail, t.user) == if r.Out? then (r, s1) else (Out(Returned(r.v)), s1);
    case LeaveTry(e) =>
      ReturnTryMatches(w, fuel, e, k, t.user, t);
      var (r, s1) := EvalE(w, fuel, e, t.user);
      assert EvalTail(w, fuel, tail, t.user) == if r.Out? then (r, s1) else (Out(Returned(Propagated(r.v))), s1);
    case Away(j) => GoRuns(w, fuel, j, t);
  }

  lemma {:induction false} StmtMatches(w: World, fuel: nat, x: Stmt, k: nat, s: State, t: TState)
    requires OrderlyS(x) && t.user == s
    ensures Does(Exec(w, fuel, x, s), k, LiftS(x, k).next, t, RunAll(w, fuel, LiftS(x, k).code, t))
    decreases fuel, x, 5
  {
    hide RunE, RunAll, LiftE, EvalE, Run, LiftAll, ExecAll;
    match x
    case Eval(e) =>
      var l := LiftE(e, k);
      UsesExpr(w, fuel, e, k, s, t, TEval(l.e));
      assert LiftS(x, k) == LiftedS(l.code + [TEval(l.e)], l.next);
      var (r, s1) := EvalE(w, fuel, e, s);
      assert Exec(w, fuel, x, s) == if r.Out? then (r, s1) else (Val(Unit), s1);
    case Set(y, e, _) =>
      UsesExpr(w, fuel, e, k, s, t, TSet(y, LiftE(e, k).e));
      var (r, s1) := EvalE(w, fuel, e, s);
      assert Exec(w, fuel, x, s) == if r.Out? then (r, s1) else (Val(Unit), s1.(vars := s1.vars[y := r.v]));
    case Return(e) =>
      UsesExpr(w, fuel, e, k, s, t, TReturn(LiftE(e, k).e));
      var (r, s1) := EvalE(w, fuel, e, s);
      assert Exec(w, fuel, x, s) == if r.Out? then (r, s1) else (Out(Returned(r.v)), s1);
    case ReturnTry(e) =>
      ReturnTryMatches(w, fuel, e, k, s, t);
      var (r, s1) := EvalE(w, fuel, e, s);
      assert Exec(w, fuel, x, s) == if r.Out? then (r, s1) else (Out(Returned(Propagated(r.v))), s1);
    case Go(j) => GoRuns(w, fuel, j, t);
    case IfS(_, _, _) => IfStmtMatches(w, fuel, x, k, s, t);
    case SwitchS(_, _, _) => SwitchStmtMatches(w, fuel, x, k, s, t);
    case While(_, _, _, _, _) => WhileStmtMatches(w, fuel, x, k, s, t);
    case For(_, _, _, _, _) => ForStmtMatches(w, fuel, x, k, s, t);
  }

  /** The prong a lifted switch statement takes is the lifted arm the statement takes. */
  lemma {:induction false} TakenArmLifted(arms: seq<Arm>, other: seq<Stmt>, k: nat, v: Value) returns (at: nat)
    ensures var la := LiftArms(arms, k);
            var lo := LiftAll(other, la.next);
            var p := TakenArm(arms, other, v);
            var l := LiftAll(p.body, at);
            var q := TTaken(la.prongs, lo.code, v);
            q.body == l.code && q.bind == p.bind && k <= at && l.next <= lo.next
    decreases arms
  {
    hide LiftAll;
    var la := LiftArms(arms, k);
    if arms == [] {
      at := k;
    } else if Key(v) in arms[0].items {
      at := k;
    } else {
      at := TakenArmLifted(arms[1..], other, LiftAll(arms[0].body, k).next, v);
      assert la.prongs[1..] == LiftArms(arms[1..], LiftAll(arms[0].body, k).next).prongs;
    }
  }

  lemma SwitchStmtRuns(w: World, fuel: nat, e: TExpr, prongs: seq<TProng>, other: seq<TStmt>, t: TState)
    ensures var (r, t2) := RunE(w, fuel, e, t);
            var p := TTaken(prongs, other, Got(r));
            var rb := RunAll(w, fuel, p.body, Entered(p.bind, Content(Got(r)), t2));
            RunAll(w, fuel, [TSwitch(e, prongs, other)], t) ==
            if r.Out? then (r, t2) else if rb.0.Out? then rb else (Val(Unit), rb.1)
  {
    hide RunE, RunAll, TTaken;
    RunOne(w, fuel, TSwitch(e, prongs, other), t);
  }

  lemma {:induction false} SwitchStmtMatches(w: World, fuel: nat, x: Stmt, k: nat, s: State, t: TState)
    requires x.SwitchS? && OrderlyS(x) && t.user == s
    ensures Does(Exec(w, fuel, x, s), k, LiftS(x, k).next, t, RunAll(w, fuel, LiftS(x, k).code, t))
    decreases fuel, x, 4
  {
    hide RunE, RunAll, LiftE, EvalE, Run, LiftAll, LiftArms, ExecAll, SameTemps, TakenArm, TTaken;
    var l := LiftE(x.scrutinee, k);
    var la := LiftArms(x.arms, l.next);
    var lo := LiftAll(x.other, la.next);
    ExprMatches(w, fuel, x.scrutinee, k, s, t);
    RunConcat(w, fuel, l.code, [TSwitch(l.e, la.prongs, lo.code)], t);
    var (rc, t1) := RunAll(w, fuel, l.code, t);
    SameTempsWiden(t, t1, k, l.next, k, lo.next);
    if rc.Val? {
      var (r, t2) := RunE(w, fuel, l.e, t1);
      SwitchStmtRuns(w, fuel, l.e, la.prongs, lo.code, t1);
      SameTempsKept(t1, t2, k, lo.next);
      SameTempsChain(t, t1, t2, k, lo.next);
      if r.Val? {
        var at := TakenArmLifted(x.arms, x.other, l.next, r.v);
        var p := TakenArm(x.arms, x.other, r.v);
        var t3 := Entered(p.bind, Content(r.v), t2);
        AllMatch(w, fuel, p.body, at, t3.user, t3);
        FallsUnitAll(w, fuel, p.body, t3.user);
        var t4 := RunAll(w, fuel, LiftAll(p.body, at).code, t3).1;
        SameTempsWiden(t3, t4, at, LiftAll(p.body, at).next, k, lo.next);
        SameTempsKept(t, t, k, lo.next);
        SameTempsKept(t2, t3, k, lo.next);
        SameTempsChain(t, t2, t3, k, lo.next);
        SameTempsChain(t, t3, t4, k, lo.next);
      }
    }
  }

  // ----- Loops -----

  /** An expression from which nothing is lifted is left as it is. */
  lemma {:induction false} InPlaceMatches(w: World, fuel: nat, e: Expr, k: nat, t: TState)
    requires OrderlyE(e) && !LiftsE(e)
    ensures var l := LiftE(e, k);
            l.code == [] && l.next == k
            && EvalE(w, fuel, e, t.user) == (RunE(w, fuel, l.e, t).0, RunE(w, fuel, l.e, t).1.user)
    decreases fuel, e, 4
  {
    hide RunE, LiftE, EvalE;
    NothingLifted(e, k);
    ExprMatches(w, fuel, e, k, t.user, t);
    RunNone(w, fuel, t);
  }

  lemma SameTempsChain(t: TState, t1: TState, t2: TState, k: nat, next: nat)
    requires SameTemps(t, t1, k, next) && SameTemps(t1, t2, k, next)
    ensures SameTemps(t, t2, k, next)
  {
  }

  /** The loop a lifted `while` becomes. */
  function LiftedWhile(x: Stmt, k: nat): TStmt
    requires x.While?
  {
    var l := LiftE(x.cond, k);
    var lb := LiftAll(x.body, l.next);
    TWhile(x.loop, l.e, x.bind, LiftStep(x.step, lb.next).e, lb.code)
  }

  lemma {:induction false} WhileStmtMatches(w: World, fuel: nat, x: Stmt, k: nat, s: State, t: TState)
    requires x.While? && OrderlyS(x) && t.user == s
    ensures Does(Exec(w, fuel, x, s), k, LiftS(x, k).next, t, RunAll(w, fuel, LiftS(x, k).code, t))
    decreases fuel, x, 4
  {
    hide RunAll, LiftE, LiftAll, ExecWhile, RunWhile, Does;
    WhileInPlace(x, k);
    RunOne(w, fuel, LiftedWhile(x, k), t);
    WhileMatches(w, fuel, x, k, t);
    FallsUnitWhile(w, fuel, x, s);
    DoesFalls(ExecWhile(w, fuel, x, s), k, LiftS(x, k).next, t, RunWhile(w, fuel, LiftedWhile(x, k), t));
  }

  lemma WhileInPlace(x: Stmt, k: nat)
    requires x.While? && OrderlyS(x)
    ensures LiftS(x, k) == LiftedS([LiftedWhile(x, k)], LiftAll(x.body, k).next)
    ensures LiftE(x.cond, k).next == k
  {
    hide LiftE, LiftAll, OrderlyE, LiftsE;
    NothingLifted(x.cond, k);
    var lb := LiftAll(x.body, k);
    if x.step.Some? {
      NothingLifted(x.step.value, lb.next);
    }
    assert [] + [] + [LiftedWhile(x, k)] == [LiftedWhile(x, k)];
  }

  lemma DoesFalls(r: (Result, State), k: nat, next: nat, t: TState, rc: (Result, TState))
    requires Does(r, k, next, t, rc) && (r.0.Out? || r.0 == Val(Unit))
    ensures Does(r, k, next, t, if rc.0.Out? then rc else (Val(Unit), rc.1))
  {
  }

  /** Every iteration of the lifted loop follows the loop; temporaries of earlier iterations do not matter. */
  lemma {:induction false} WhileMatches(w: World, fuel: nat, x: Stmt, k: nat, t: TState)
    requires x.While? && OrderlyS(x)
    ensures Does(ExecWhile(w, fuel, x, t.user), k, LiftAll(x.body, k).next, t, RunWhile(w, fuel, LiftedWhile(x, k), t))
    decreases fuel, x, 3
  {
    hide RunE, RunAll, LiftE, EvalE, LiftAll, ExecAll, SameTemps, LiftsE, OrderlyE;
    WhileInPlace(x, k);
    var next := LiftAll(x.body, k).next;
    var loop := LiftedWhile(x, k);
    SameTempsKept(t, t, k, next);
    if fuel > 0 {
      InPlaceMatches(w, fuel - 1, x.cond, k, t);
      var (r, t1) := RunE(w, fuel - 1, loop.c, t);
      SameTempsKept(t, t1, k, next);
      if r.Val? && Passes(x.bind, r.v) {
        var t1' := Entered(x.bind, ValueIn(r.v), t1);
        AllMatch(w, fuel - 1, x.body, k, t1'.user, t1');
        var (rb, t2) := RunAll(w, fuel - 1, loop.body, t1');
        SameTempsKept(t, t1', k, next);
        SameTempsChain(t, t1', t2, k, next);
        if !Stops(x.loop, rb) {
          if x.step.Some? {
            InPlaceMatches(w, fuel - 1, x.step.value, next, t2);
            var (rs, t3) := RunE(w, fuel - 1, loop.step.value, t2);
            SameTempsKept(t2, t3, k, next);
            SameTempsChain(t, t2, t3, k, next);
            if rs.Val? {
              WhileMatches(w, fuel - 1, x, k, t3);
              SameTempsChain(t, t3, RunWhile(w, fuel - 1, loop, t3).1, k, next);
            }
          } else {
            WhileMatches(w, fuel - 1, x, k, t2);
            SameTempsChain(t, t2, RunWhile(w, fuel - 1, loop, t2).1, k, next);
          }
        }
      }
    }
  }

  lemma SameTempsKept(t: TState, t1: TState, k: nat, next: nat)
    requires t1.temps == t.temps
    ensures SameTemps(t, t1, k, next)
  {
  }

  lemma {:induction false} ForStmtMatches(w: World, fuel: nat, x: Stmt, k: nat, s: State, t: TState)
    requires x.For? && OrderlyS(x) && t.user == s
    ensures Does(Exec(w, fuel, x, s), k, LiftS(x, k).next, t, RunAll(w, fuel, LiftS(x, k).code, t))
    decreases fuel, x, 4
  {
    hide RunAll, RunArgs, LiftArgs, EvalArgs, LiftAll, ExecFor, RunFor, SameTemps;
    var l := LiftArgs(x.over, k);
    var lb := LiftAll(x.body, l.next);
    var loop := TFor(x.loop, l.es, x.item, x.index, lb.code);
    ArgsMatch(w, fuel, x.over, k, s, t);
    RunConcat(w, fuel, l.code, [loop], t);
    var (rc, t1) := RunAll(w, fuel, l.code, t);
    SameTempsWiden(t, t1, k, l.next, k, lb.next);
    if rc.Val? {
      RunOne(w, fuel, loop, t1);
      var (r, t2) := RunArgs(w, fuel, l.es, t1);
      SameTempsKept(t1, t2, k, lb.next);
      SameTempsChain(t, t1, t2, k, lb.next);
      if r.Vals? {
        ForMatches(w, fuel, x, l.es, l.next, r.vs, 0, t2);
        FallsUnitFor(w, fuel, x, r.vs, 0, t2.user);
        var t3 := RunFor(w, fuel, loop, r.vs, 0, t2).1;
        SameTempsWiden(t2, t3, l.next, lb.next, k, lb.next);
        SameTempsChain(t, t2, t3, k, lb.next);
      }
    }
  }

  lemma SameTempsWiden(t: TState, t1: TState, k: nat, next: nat, k': nat, next': nat)
    requires SameTemps(t, t1, k, next) && k' <= k && next <= next'
    ensures SameTemps(t, t1, k', next')
  {
  }

  lemma {:induction false} ForMatches(
    w: World, fuel: nat, x: Stmt, es: seq<TExpr>, k: nat, vs: seq<Value>, i: nat, t: TState)
    requires x.For? && OrderlyS(x)
    ensures var lb := LiftAll(x.body, k);
            Does(ExecFor(w, fuel, x, vs, i, t.user), k, lb.next, t,
                 RunFor(w, fuel, TFor(x.loop, es, x.item, x.index, lb.code), vs, i, t))
    decreases fuel, x, 3
  {
    hide RunAll, LiftAll, ExecAll, SameTemps, OrderlyArgs;
    var lb := LiftAll(x.body, k);
    var loop := TFor(x.loop, es, x.item, x.index, lb.code);
    SameTempsKept(t, t, k, lb.next);
    if fuel > 0 && w.item(vs, i, t.user.trace).Some? {
      var t1 := t.(user := AtItem(x.item, x.index, w.item(vs, i, t.user.trace).value, i, t.user));
      SameTempsKept(t, t1, k, lb.next);
      AllMatch(w, fuel - 1, x.body, k, t1.user, t1);
      var (rb, t2) := RunAll(w, fuel - 1, lb.code, t1);
      SameTempsChain(t, t1, t2, k, lb.next);
      if !Stops(x.loop, rb) {
        ForMatches(w, fuel - 1, x, es, k, vs, i + 1, t2);
        SameTempsChain(t, t2, RunFor(w, fuel - 1, loop, vs, i + 1, t2).1, k, lb.next);
      }
    }
  }

  lemma {:induction false} IfStmtMatches(w: World, fuel: nat, x: Stmt, k: nat, s: State, t: TState)
    requires x.IfS? && OrderlyS(x) && t.user == s
    ensures Does(Exec(w, fuel, x, s), k, LiftS(x, k).next, t, RunAll(w, fuel, LiftS(x, k).code, t))
    decreases fuel, x, 4
  {
    hide RunE, RunAll, LiftE, EvalE, Run, LiftAll, ExecAll;
    var (c, a, b) := (x.cond, x.thenS, x.elseS);
    var l := LiftE(c, k);
    var la := LiftAll(a, l.next);
    var lb := LiftAll(b, la.next);
    ExprMatches(w, fuel, c, k, s, t);
    RunConcat(w, fuel, l.code, [TIf(l.e, None, la.code, lb.code)], t);
    var (rc, t1) := RunAll(w, fuel, l.code, t);
    if rc.Val? {
      var (r, t2) := RunE(w, fuel, l.e, t1);
      IfRuns(w, fuel, l.e, None, la.code, lb.code, t1);
      AllMatch(w, fuel, a, l.next, t2.user, t2);
      AllMatch(w, fuel, b, la.next, t2.user, t2);
      FallsUnitAll(w, fuel, a, t2.user);
      FallsUnitAll(w, fuel, b, t2.user);
      assert forall j: nat :: Slot(t2, j) == Slot(t1, j);
    } else {
      assert SameTemps(t, t1, k, lb.next);
    }
  }

  lemma {:induction false} ExecSnoc(w: World, fuel: nat, ss: seq<Stmt>, x: Stmt, s: State)
    ensures var (r, s1) := ExecAll(w, fuel, ss, s);
            ExecAll(w, fuel, ss + [x], s) ==
            if r.Out? then (r, s1)
            else if Exec(w, fuel, x, s1).0.Out? then Exec(w, fuel, x, s1)
            else (Val(Unit), Exec(w, fuel, x, s1).1)
    decreases fuel, ss
  {
    hide Exec;
    if ss == [] {
      assert ss + [x] == [x];
      assert [x][1..] == [];
    } else {
      assert (ss + [x])[1..] == ss[1..] + [x];
      ExecSnoc(w, fuel, ss[1..], x, Exec(w, fuel, ss[0], s).1);
    }
  }

  lemma {:induction false} AllMatch(w: World, fuel: nat, ss: seq<Stmt>, k: nat, s: State, t: TState)
    requires (forall x <- ss :: OrderlyS(x)) && t.user == s
    ensures Does(ExecAll(w, fuel, ss, s), k, LiftAll(ss, k).next, t, RunAll(w, fuel, LiftAll(ss, k).code, t))
    decreases fuel, ss, 6
  {
    hide RunAll, LiftS, Exec, Run;
    if ss == [] {
      RunNone(w, fuel, t);
    } else {
      var init, x := ss[..|ss| - 1], ss[|ss| - 1];
      var last := LiftS(x, k);
      var li := LiftAll(init, last.next);
      AllMatch(w, fuel, init, last.next, s, t);
      RunConcat(w, fuel, li.code, last.code, t);
      assert ss == init + [x];
      ExecSnoc(w, fuel, init, x, s);
      var (rc, t1) := RunAll(w, fuel, li.code, t);
      if rc.Val? {
        StmtMatches(w, fuel, x, k, t1.user, t1);
        FallsUnit(w, fuel, x, t1.user);
      }
    }
  }

  lemma {:induction false} FallsUnit(w: World, fuel: nat, x: Stmt, s: State)
    ensures Exec(w, fuel, x, s).0.Out? || Exec(w, fuel, x, s).0 == Val(Unit)
    decreases fuel, x, 1
  {
    if x.IfS? {
      var s1 := EvalE(w, fuel, x.cond, s).1;
      FallsUnitAll(w, fuel, x.thenS, s1);
      FallsUnitAll(w, fuel, x.elseS, s1);
    } else if x.SwitchS? {
      var (r, s1) := EvalE(w, fuel, x.scrutinee, s);
      if r.Val? {
        var p := TakenArm(x.arms, x.other, r.v);
        FallsUnitAll(w, fuel, p.body, Bound(p.bind, Content(r.v), s1));
      }
    } else if x.While? {
      FallsUnitWhile(w, fuel, x, s);
    } else if x.For? {
      var (r, s1) := EvalArgs(w, fuel, x.over, s);
      if r.Vals? {
        FallsUnitFor(w, fuel, x, r.vs, 0, s1);
      }
    }
  }

  lemma {:induction false} FallsUnitWhile(w: World, fuel: nat, x: Stmt, s: State)
    requires x.While?
    ensures ExecWhile(w, fuel, x, s).0.Out? || ExecWhile(w, fuel, x, s).0 == Val(Unit)
    decreases fuel
  {
    hide EvalE, ExecAll;
    if fuel > 0 {
      var (r, s1) := EvalE(w, fuel - 1, x.cond, s);
      if r.Val? && Passes(x.bind, r.v) {
        var (rb, s2) := ExecAll(w, fuel - 1, x.body, Bound(x.bind, ValueIn(r.v), s1));
        if !Stops(x.loop, rb) {
          FallsUnitWhile(w, fuel - 1, x, if x.step.Some? then EvalE(w, fuel - 1, x.step.value, s2).1 else s2);
        }
      }
    }
  }

  lemma {:induction false} FallsUnitFor(w: World, fuel: nat, x: Stmt, vs: seq<Value>, i: nat, s: State)
    requires x.For?
    ensures ExecFor(w, fuel, x, vs, i, s).0.Out? || ExecFor(w, fuel, x, vs, i, s).0 == Val(Unit)
    decreases fuel
  {
    hide ExecAll;
    if fuel > 0 && w.item(vs, i, s.trace).Some? {
      var s1 := AtItem(x.item, x.index, w.item(vs, i, s.trace).value, i, s);
      FallsUnitFor(w, fuel - 1, x, vs, i + 1, ExecAll(w, fuel - 1, x.body, s1).1);
    }
  }

  lemma {:induction false} FallsUnitAll(w: World, fuel: nat, ss: seq<Stmt>, s: State)
    ensures ExecAll(w, fuel, ss, s).0.Out? || ExecAll(w, fuel, ss, s).0 == Val(Unit)
    decreases fuel, ss, 0
  {
    if ss != [] {
      FallsUnitAll(w, fuel, ss[1..], Exec(w, fuel, ss[0], s).1);
    }
  }

  // ----- Results -----

  /**
   However far it is followed, a lifted function body has returned the same value, or is still running, with the same
   calls made and the same variables.
   */
  lemma BodyPreserved(w: World, fuel: nat, body: seq<Stmt>, s: State, k: nat)
    requires forall x <- body :: OrderlyS(x)
    ensures var (r, t) := RunAll(w, fuel, LiftAll(body, k).code, TState(s, map[]));
            (r, t.user) == ExecAll(w, fuel, body, s)
  {
    AllMatch(w, fuel, body, k, s, TState(s, map[]));
  }

  /**
   For a lifted control-flow expression what is left is a temporary.  Whenever its code falls through it has
   assigned the temporary the expression's value; otherwise it has returned what the expression returns.
   */
  lemma TemporaryAssigned(w: World, fuel: nat, e: Expr, k: nat, s: State, t: TState)
    requires e.TryE? || e.CatchE? || e.OrelseE? || ((e.IfE? || e.SwitchE?) && !e.isVoid)
    requires OrderlyE(e) && t.user == s
    ensures var l := LiftE(e, k);
            var (rc, t1) := RunAll(w, fuel, l.code, t);
            var (r, s1) := EvalE(w, fuel, e, s);
            l.e.Temp? && t1.user == s1
            && (r.Out? ==> rc == r) && (r.Val? ==> rc == Val(Unit) && Slot(t1, l.e.k) == Some(r.v))
  {
    hide EvalE, RunAll, LiftE;
    RestIsTemp(e, k);
    var l := LiftE(e, k);
    ExprMatches(w, fuel, e, k, s, t);
    var (rc, t1) := RunAll(w, fuel, l.code, t);
    TempRuns(w, fuel, l.e.k, t1);
  }

  lemma CallsEnd(w: World, fuel: nat, f: nat, s: State)
    ensures EvalE(w, fuel, Call(f, []), s) == (Val(w.call(f, [], s.trace)), s.(trace := s.trace + [Called(f, [])]))
    ensures EvalE(w, fuel, TryE(Call(f, [])), s).1 == s.(trace := s.trace + [Called(f, [])])
  {
    assert EvalArgs(w, fuel, [], s) == (Vals([]), s);
  }

  lemma CallRuns(w: World, fuel: nat, f: nat, t: TState)
    ensures RunE(w, fuel, TCall(f, []), t).1.user == t.user.(trace := t.user.trace + [Called(f, [])])
  {
    assert RunArgs(w, fuel, [], t) == (Vals([]), t);
  }

  lemma PairEvaluates(w: World, fuel: nat, f: Expr, g: Expr, s: State)
    requires EvalE(w, fuel, f, s).0.Val?
    ensures EvalArgs(w, fuel, [f, g], s).1 == EvalE(w, fuel, g, EvalE(w, fuel, f, s).1).1
  {
    hide EvalE;
    assert [f, g][1..] == [g] && [g][1..] == [];
    var s1 := EvalE(w, fuel, f, s).1;
    assert EvalArgs(w, fuel, [g], s1).1 == EvalE(w, fuel, g, s1).1;
  }

  lemma PairLifts(f: Expr, g: Expr, k: nat)
    ensures LiftArgs([f, g], k).code == LiftE(f, k).code + LiftE(g, LiftE(f, k).next).code
    ensures LiftsE(g) && !Calm(f) && !SilentE(g) ==> !OrderlyArgs([f, g])
  {
    hide LiftE, OrderlyE, LiftsE, Calm, Reads, WritesE;
    assert [f, g][1..] == [g] && [g][1..] == [];
    var k1 := LiftE(f, k).next;
    assert LiftArgs([g], k1).code == LiftE(g, k1).code + [];
    assert LiftsArgs([g]) <==> LiftsE(g);
  }

  lemma OpEquations(w: World, fuel: nat, f: nat, args: seq<Expr>, s: State, k: nat)
    ensures EvalE(w, fuel, Op(f, args), s).1 == EvalArgs(w, fuel, args, s).1
    ensures LiftE(Op(f, args), k).code == LiftArgs(args, k).code
    ensures OrderlyE(Op(f, args)) <==> OrderlyArgs(args)
  {
    hide EvalArgs, LiftArgs, OrderlyArgs;
  }

  lemma CallLifts(f: nat, k: nat)
    ensures LiftE(Call(f, []), k) == LiftedE([], TCall(f, []), k)
    ensures LiftE(TryE(Call(f, [])), k).code == TryCode(k, TCall(f, []))
    ensures LiftsE(TryE(Call(f, []))) && !Calm(Call(f, [])) && !SilentE(TryE(Call(f, [])))
  {
    assert LiftArgs([], k) == LiftedArgs([], [], k);
    assert [] + TryCode(k, TCall(f, [])) == TryCode(k, TCall(f, []));
  }

  lemma SumEvaluates(w: World, fuel: nat, s: State, op: nat, one: nat, two: nat)
    ensures EvalE(w, fuel, Op(op, [Call(one, []), TryE(Call(two, []))]), s).1.trace ==
      s.trace + [Called(one, [])] + [Called(two, [])]
  {
    hide EvalArgs, OrderlyE, EvalE, LiftE, LiftArgs;
    var f, g := Call(one, []), TryE(Call(two, []));
    CallsEnd(w, fuel, one, s);
    CallsEnd(w, fuel, two, EvalE(w, fuel, f, s).1);
    PairEvaluates(w, fuel, f, g, s);
    OpEquations(w, fuel, op, [f, g], s, 0);
  }

  lemma SumLifts(w: World, fuel: nat, s: State, op: nat, one: nat, two: nat, k: nat)
    ensures var e := Op(op, [Call(one, []), TryE(Call(two, []))]);
            !OrderlyE(e) && LiftE(e, k).code == TryCode(k, TCall(two, []))
  {
    hide EvalArgs, OrderlyE, OrderlyArgs, EvalE, LiftE, LiftArgs, LiftsE, Calm, TryCode;
    var f, g := Call(one, []), TryE(Call(two, []));
    PairLifts(f, g, k);
    OpEquations(w, fuel, op, [f, g], s, k);
    CallLifts(one, k);
    CallLifts(two, k);
    assert [] + TryCode(k, TCall(two, [])) == TryCode(k, TCall(two, []));
  }

  /** A call in front of a lifted operand is made after it: in `f() + try g()` the code lifted out calls `g` first. */
  lemma CallOvertaken(w: World, fuel: nat, s: State, op: nat, one: nat, two: nat, k: nat)
    ensures var e := Op(op, [Call(one, []), TryE(Call(two, []))]);
            !OrderlyE(e)
            && RunAll(w, fuel, LiftE(e, k).code, TState(s, map[])).1.user.trace == s.trace + [Called(two, [])]
            && EvalE(w, fuel, e, s).1.trace == s.trace + [Called(one, [])] + [Called(two, [])]
  {
    hide RunAll, EvalArgs, RunE, OrderlyE, EvalE, LiftE, TryCode;
    SumEvaluates(w, fuel, s, op, one, two);
    SumLifts(w, fuel, s, op, one, two, k);
    var t := TState(s, map[]);
    TryTail(w, fuel, k, TCall(two, []), t);
    CallRuns(w, fuel, two, Without(t, k));
  }

  // ----- Conditions of loops -----

  /** Answers `true` to the first call made after `trace`, and `false` to the others. */
  function FirstTrue(trace: seq<Event>): World {
    World((f, vs) => Undef, (f, vs, now) => Ok(Bool(now == trace)), (vs, i, now) => None)
  }

  /** The loop `while (try f()) {}`. */
  function TryLoop(loop: nat, f: nat): Stmt {
    While(loop, TryE(Call(f, [])), None, None, [])
  }

  lemma TryCallEvaluates(fuel: nat, trace: seq<Event>, f: nat, s: State)
    ensures EvalE(FirstTrue(trace), fuel, TryE(Call(f, [])), s) ==
            (Val(Bool(s.trace == trace)), s.(trace := s.trace + [Called(f, [])]))
  {
    CallsEnd(FirstTrue(trace), fuel, f, s);
  }

  lemma TryLoopRuns(fuel: nat, loop: nat, f: nat, s: State)
    requires fuel >= 2
    ensures Exec(FirstTrue(s.trace), fuel, TryLoop(loop, f), s) ==
            (Val(Unit), s.(trace := s.trace + [Called(f, [])] + [Called(f, [])]))
  {
    hide EvalE;
    var w, x := FirstTrue(s.trace), TryLoop(loop, f);
    var s1 := s.(trace := s.trace + [Called(f, [])]);
    TryCallEvaluates(fuel - 1, s.trace, f, s);
    TryCallEvaluates(fuel - 2, s.trace, f, s1);
    assert ExecAll(w, fuel - 1, [], s1) == (Val(Unit), s1);
    assert ExecWhile(w, fuel - 1, x, s1) == (Val(Unit), s1.(trace := s1.trace + [Called(f, [])]));
  }

  /** A loop on a temporary that holds `true` and is not assigned again. */
  lemma {:induction false} Spins(w: World, fuel: nat, loop: nat, k: nat, t: TState)
    requires Slot(t, k) == Some(Bool(true))
    ensures RunWhile(w, fuel, TWhile(loop, Temp(k), None, None, []), t) == (Out(Spent), t)
    decreases fuel
  {
    if fuel > 0 {
      RunNone(w, fuel - 1, t);
      Spins(w, fuel - 1, loop, k, t);
    }
  }

  lemma TryLoopLifts(loop: nat, f: nat, k: nat)
    ensures !OrderlyS(TryLoop(loop, f))
    ensures LiftS(TryLoop(loop, f), k).code == TryCode(k, TCall(f, [])) + [TWhile(loop, Temp(k), None, None, [])]
  {
    hide TryCode;
    CallLifts(f, k);
    assert LiftAll([], k + 2) == LiftedS([], k + 2);
    var c := TryCode(k, TCall(f, []));
    assert c + [] + [TWhile(loop, Temp(k), None, None, [])] == c + [TWhile(loop, Temp(k), None, None, [])];
  }

  /**
   What is lifted out of a condition is run once, in front of the loop: `while (try f()) {}` ends when `f` first
   answers false, but its lifted form never asks again.
   */
  lemma ConditionAskedOnce(fuel: nat, loop: nat, f: nat, s: State, k: nat)
    requires fuel >= 2
    ensures var (w, x) := (FirstTrue(s.trace), TryLoop(loop, f));
            var (r, t) := RunAll(w, fuel, LiftS(x, k).code, TState(s, map[]));
            && !OrderlyS(x)
            && Exec(w, fuel, x, s) == (Val(Unit), s.(trace := s.trace + [Called(f, [])] + [Called(f, [])]))
            && r == Out(Spent) && t.user.trace == s.trace + [Called(f, [])]
  {
    hide RunAll, EvalE, RunE, LiftS, OrderlyS, TryCode, Exec, RunWhile;
    var w, t := FirstTrue(s.trace), TState(s, map[]);
    TryLoopRuns(fuel, loop, f, s);
    TryLoopLifts(loop, f, k);
    var again := TWhile(loop, Temp(k), None, None, []);
    RunConcat(w, fuel, TryCode(k, TCall(f, [])), [again], t);
    TryTail(w, fuel, k, TCall(f, []), t);
    TryCallRuns(fuel, s.trace, f, Without(t, k));
    var t1 := RunAll(w, fuel, TryCode(k, TCall(f, [])), t).1;
    RunOne(w, fuel, again, t1);
    Spins(w, fuel, loop, k, t1);
  }

  lemma TryCallRuns(fuel: nat, trace: seq<Event>, f: nat, t: TState)
    ensures RunE(FirstTrue(trace), fuel, TCall(f, []), t) ==
            (Val(Ok(Bool(t.user.trace == trace))), t.(user := t.user.(trace := t.user.trace + [Called(f, [])])))
  {
    assert RunArgs(FirstTrue(trace), fuel, [], t) == (Vals([]), t);
  }
}
