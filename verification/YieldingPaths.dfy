/**
 Expressions that can yield a value, and statements that can fall through: when the lifter's test for leaving on every
 path, which decides between an assignment and a plain statement, says no although there is no such path.
 */
module YieldingPaths {
  import opened Options
  import opened ControlExpressions
  import opened Lifting

  // ----- A path through -----

  predicate MayYield(e: Expr)
    decreases e, 0
  {
    match e
    case Lit(_) => true
    case Var(_) => true
    case Op(_, args) => MayYieldAll(args)
    case Call(_, args) => MayYieldAll(args)
    case IfE(c, _, a, b, _) => MayYield(c) && (MayYieldB(a) || MayYieldB(b))
    case SwitchE(c, prongs, other, _) => MayYield(c) && (MayYieldB(other) || exists p <- prongs :: MayYieldB(p.body))
    case TryE(x) => MayYield(x)
    case TryVoidE(x) => MayYield(x)
    case CatchE(x, _, _) => MayYield(x)
    case OrelseE(x, _) => MayYield(x)
    case CatchVoidE(x, _, _) => MayYield(x)
    case OrelseVoidE(x, _) => MayYield(x)
  }

  predicate MayYieldAll(es: seq<Expr>)
    decreases es, 0
  {
    es == [] || (MayYield(es[0]) && MayYieldAll(es[1..]))
  }

  predicate MayYieldB(b: Branch)
    decreases b, 0
  {
    MayPassAll(b.ss) && b.tail.Yield? && MayYield(b.tail.e)
  }

  predicate MayPass(s: Stmt)
    decreases s, 0
  {
    match s
    case Eval(e) => MayYield(e)
    case Set(_, e, _) => MayYield(e)
    case Return(_) => false
    case ReturnTry(_) => false
    case Go(_) => false
    case IfS(c, a, b) => MayYield(c) && (MayPassAll(a) || MayPassAll(b))
    case SwitchS(c, arms, other) => MayYield(c) && (MayPassAll(other) || exists p <- arms :: MayPassAll(p.body))
    case While(_, c, _, _, _) => MayYield(c)
    case For(_, over, _, _, _) => MayYieldAll(over)
  }

  predicate MayPassAll(ss: seq<Stmt>)
    decreases ss, 0
  {
    ss == [] || (MayPass(ss[0]) && MayPassAll(ss[1..]))
  }

  // ----- Every run that yields has taken one -----

  lemma {:induction false} YieldedByPath(w: World, fuel: nat, e: Expr, s: State)
    requires EvalE(w, fuel, e, s).0.Val?
    ensures MayYield(e)
    decreases fuel, e, 1
  {
    match e
    case Lit(_) =>
    case Var(_) =>
    case Op(_, args) => YieldedByPaths(w, fuel, args, s);
    case Call(_, args) => YieldedByPaths(w, fuel, args, s);
    case IfE(c, bind, a, b, _) =>
      YieldedByPath(w, fuel, c, s);
      var (r, s1) := EvalE(w, fuel, c, s);
      if Passes(bind, r.v) {
        BranchYielded(w, fuel, a, Bound(bind, ValueIn(r.v), s1));
      } else {
        BranchYielded(w, fuel, b, s1);
      }
    case SwitchE(c, prongs, other, _) =>
      YieldedByPath(w, fuel, c, s);
      var (r, s1) := EvalE(w, fuel, c, s);
      var p := Taken(prongs, other, r.v);
      BranchYielded(w, fuel, p.body, Bound(p.bind, Content(r.v), s1));
    case TryE(x) => YieldedByPath(w, fuel, x, s);
    case TryVoidE(x) => YieldedByPath(w, fuel, x, s);
    case CatchE(x, _, _) => YieldedByPath(w, fuel, x, s);
    case OrelseE(x, _) => YieldedByPath(w, fuel, x, s);
    case CatchVoidE(x, _, _) => YieldedByPath(w, fuel, x, s);
    case OrelseVoidE(x, _) => YieldedByPath(w, fuel, x, s);
  }

  lemma {:induction false} YieldedByPaths(w: World, fuel: nat, es: seq<Expr>, s: State)
    requires EvalArgs(w, fuel, es, s).0.Vals?
    ensures MayYieldAll(es)
    decreases fuel, es, 1
  {
    if es != [] {
      YieldedByPath(w, fuel, es[0], s);
      YieldedByPaths(w, fuel, es[1..], EvalE(w, fuel, es[0], s).1);
    }
  }

  lemma {:induction false} BranchYielded(w: World, fuel: nat, b: Branch, s: State)
    requires EvalB(w, fuel, b, s).0.Val?
    ensures MayYieldB(b)
    decreases fuel, b, 1
  {
    PassedByPaths(w, fuel, b.ss, s);
    if b.tail.Yield? {
      YieldedByPath(w, fuel, b.tail.e, ExecAll(w, fuel, b.ss, s).1);
    }
  }

  lemma {:induction false} PassedByPath(w: World, fuel: nat, x: Stmt, s: State)
    requires Exec(w, fuel, x, s).0.Val?
    ensures MayPass(x)
    decreases fuel, x, 1
  {
    match x
    case Eval(e) => YieldedByPath(w, fuel, e, s);
    case Set(_, e, _) => YieldedByPath(w, fuel, e, s);
    case Return(_) =>
    case ReturnTry(_) =>
    case Go(_) =>
    case IfS(c, a, b) =>
      YieldedByPath(w, fuel, c, s);
      var (r, s1) := EvalE(w, fuel, c, s);
      PassedByPaths(w, fuel, if r.v == Bool(true) then a else b, s1);
    case SwitchS(c, arms, other) =>
      YieldedByPath(w, fuel, c, s);
      var (r, s1) := EvalE(w, fuel, c, s);
      var p := TakenArm(arms, other, r.v);
      PassedByPaths(w, fuel, p.body, Bound(p.bind, Content(r.v), s1));
    case While(_, c, _, _, _) => YieldedByPath(w, fuel - 1, c, s);
    case For(_, over, _, _, _) => YieldedByPaths(w, fuel, over, s);
  }

  lemma {:induction false} PassedByPaths(w: World, fuel: nat, ss: seq<Stmt>, s: State)
    requires ExecAll(w, fuel, ss, s).0.Val?
    ensures MayPassAll(ss)
    decreases fuel, ss, 1
  {
    if ss != [] {
      PassedByPath(w, fuel, ss[0], s);
      PassedByPaths(w, fuel, ss[1..], Exec(w, fuel, ss[0], s).1);
    }
  }

  // ----- The test of the lifter -----

  /** Every operand, condition and payload can yield, so none of them stops its expression for good. */
  predicate Fed(e: Expr)
    decreases e, 0
  {
    match e
    case Lit(_) => true
    case Var(_) => true
    case Op(_, args) => MayYieldAll(args)
    case Call(_, args) => MayYieldAll(args)
    case IfE(c, _, a, b, _) => MayYield(c) && FedB(a) && FedB(b)
    case SwitchE(c, prongs, other, _) => MayYield(c) && FedB(other) && forall p <- prongs :: FedB(p.body)
    case TryE(x) => MayYield(x)
    case TryVoidE(x) => MayYield(x)
    case CatchE(x, _, _) => MayYield(x) && Fed(x)
    case OrelseE(x, _) => MayYield(x) && Fed(x)
    case CatchVoidE(x, _, _) => MayYield(x) && Fed(x)
    case OrelseVoidE(x, _) => MayYield(x) && Fed(x)
  }

  predicate FedB(b: Branch)
    decreases b, 0
  {
    FedAll(b.ss) && (b.tail.Yield? ==> Fed(b.tail.e))
  }

  predicate FedS(s: Stmt)
    decreases s, 0
  {
    match s
    case Eval(e) => Fed(e)
    case Set(_, e, declares) => Fed(e) && (!declares ==> MayYield(e))
    case IfS(c, a, b) => MayYield(c) && FedAll(a) && FedAll(b)
    case SwitchS(c, arms, other) => MayYield(c) && FedAll(other) && forall p <- arms :: FedAll(p.body)
    case While(_, c, _, _, _) => MayYield(c)
    case For(_, over, _, _, _) => MayYieldAll(over)
    case _ => true
  }

  predicate FedAll(ss: seq<Stmt>)
    decreases ss, 0
  {
    ss == [] || (FedS(ss[0]) && FedAll(ss[1..]))
  }

  /** There, an expression passes the test for leaving on every path exactly if no path through it yields. */
  lemma {:induction false} ExitsIff(e: Expr)
    requires Fed(e)
    ensures ExitsE(e) <==> !MayYield(e)
    decreases e, 1
  {
    match e
    case IfE(_, _, a, b, _) =>
      ExitsBIff(a);
      ExitsBIff(b);
    case SwitchE(_, prongs, other, _) =>
      ExitsBIff(other);
      forall p | p in prongs ensures ExitsB(p.body) <==> !MayYieldB(p.body) {
        ExitsBIff(p.body);
      }
    case CatchE(x, _, _) => ExitsIff(x);
    case OrelseE(x, _) => ExitsIff(x);
    case CatchVoidE(x, _, _) => ExitsIff(x);
    case OrelseVoidE(x, _) => ExitsIff(x);
    case _ =>
  }

  lemma {:induction false} ExitsBIff(b: Branch)
    requires FedB(b)
    ensures ExitsB(b) <==> !MayYieldB(b)
    decreases b, 1
  {
    SomeExitIff(b.ss);
    if b.tail.Yield? {
      ExitsIff(b.tail.e);
    }
  }

  lemma {:induction false} ExitsSIff(s: Stmt)
    requires FedS(s)
    ensures ExitsS(s) <==> !MayPass(s)
    decreases s, 1
  {
    match s
    case Eval(e) => ExitsIff(e);
    case Set(_, e, _) => ExitsIff(e);
    case IfS(_, a, b) =>
      SomeExitIff(a);
      SomeExitIff(b);
    case SwitchS(_, arms, other) =>
      SomeExitIff(other);
      forall p | p in arms ensures (exists x <- p.body :: ExitsS(x)) <==> !MayPassAll(p.body) {
        SomeExitIff(p.body);
      }
    case _ =>
  }

  lemma {:induction false} SomeExitIff(ss: seq<Stmt>)
    requires FedAll(ss)
    ensures (exists x <- ss :: ExitsS(x)) <==> !MayPassAll(ss)
    decreases ss, 1
  {
    if ss != [] {
      ExitsSIff(ss[0]);
      SomeExitIff(ss[1..]);
      assert forall x <- ss :: x == ss[0] || x in ss[1..];
      assert forall x <- ss[1..] :: x in ss;
    }
  }

  /** So a lifted branch ends with an assignment to its temporary exactly if it can yield a value. */
  lemma AssignedIff(e: Expr, temp: nat, k: nat)
    requires Fed(e)
    ensures var (c, l) := (LiftTail(Yield(e), temp, k).code, LiftE(e, k));
            c == l.code + [if MayYield(e) then SetTemp(temp, l.e) else TEval(l.e)]
  {
    hide LiftE, ExitsE, MayYield, Fed;
    ExitsIff(e);
  }

  /** Conservative where an input leaves: in `if (return 1) 2 else 3` no value is ever yielded, but the test says no. */
  lemma DeadConditionOverlooked()
    ensures var c := IfE(Var("b"), None, Branch([], Leave(Lit(Int(1)))), Branch([], Leave(Lit(Int(1)))), false);
            var e := IfE(c, None, Branch([], Yield(Lit(Int(2)))), Branch([], Yield(Lit(Int(3)))), false);
            !ExitsE(e) && !MayYield(e)
  {
    var leave, yield2 := Branch([], Leave(Lit(Int(1)))), Branch([], Yield(Lit(Int(2))));
    assert !MayYieldB(leave);
    assert !ExitsB(yield2);
  }
}
