/**
 The lifter: control-flow expressions become statements that assign a temporary, placed before the
 statement they occur in.  The target has temporaries beside the variables; an `if` or `switch`
 expression of type void is left where it stands.
 */
module Lifting {
  import opened Options
  import opened ControlExpressions

  // ----- Target -----

  /** Parts of an error union or an optional held in a temporary. */
  datatype Part = IsError | ErrorCode | Payload | HasValue | OptionalValue | AsError | AsOk

  datatype TExpr =
    | TLit(v: Value)
    | TVar(x: string)
    | Temp(k: nat)
    | PartOf(p: Part, k: nat)
    | TOp(f: nat, args: seq<TExpr>)
    | TCall(f: nat, args: seq<TExpr>)
    | VoidIf(c: TExpr, bind: Option<string>, thenB: Branch, elseB: Branch)
    | VoidSwitch(scrutinee: Expr, prongs: seq<Prong>, other: Branch)

  datatype TStmt =
    | Declare(k: nat)                         // a declaration without
    | TEval(e: TExpr)
    | TSet(x: string, e: TExpr)
    | DeclareAs(k: nat, e: TExpr)             // a declaration with an initializer
    | SetTemp(k: nat, e: TExpr)
    | TReturn(e: TExpr)
    | TGo(j: Jump)
    | TIf(c: TExpr, bind: Option<string>, thenS: seq<TStmt>, elseS: seq<TStmt>)
    | TSwitch(c: TExpr, prongs: seq<TProng>, other: seq<TStmt>)
    | TWhile(loop: nat, c: TExpr, bind: Option<string>, step: Option<TExpr>, body: seq<TStmt>)
    | TFor(loop: nat, over: seq<TExpr>, item: string, index: Option<string>, body: seq<TStmt>)

  datatype TProng = TProng(items: seq<Value>, bind: Option<string>, body: seq<TStmt>)

  datatype TState = TState(user: State, temps: map<nat, Value>)

  function Select(p: Part, v: Value): Value {
    match p
    case IsError => Bool(v.Err?)
    case ErrorCode => ErrCode(v)
    case Payload => PayloadOf(v)
    case HasValue => Bool(v.Just?)
    case OptionalValue => ValueIn(v)
    case AsError => if v.Err? then v else Undef
    case AsOk => Ok(PayloadOf(v))
  }

  function TempValue(t: TState, k: nat): Value {
    if k in t.temps then t.temps[k] else Undef
  }

  function RunE(w: World, fuel: nat, e: TExpr, t: TState): (r: (Result, TState))
    ensures r.1.temps == t.temps
    decreases fuel, e, 0
  {
    match e
    case TLit(v) => (Val(v), t)
    case TVar(x) => (Val(Lookup(t.user.vars, x)), t)
    case Temp(k) => (Val(TempValue(t, k)), t)
    case PartOf(p, k) => (Val(Select(p, TempValue(t, k))), t)
    case TOp(f, args) =>
      var (r, t1) := RunArgs(w, fuel, args, t);
      if r.OutAll? then (Out(r.x), t1) else (Val(w.op(f, r.vs)), t1)
    case TCall(f, args) =>
      var (r, t1) := RunArgs(w, fuel, args, t);
      if r.OutAll? then (Out(r.x), t1)
      else
        (Val(w.call(f, r.vs, t1.user.trace)),
         t1.(user := t1.user.(trace := t1.user.trace + [Called(f, r.vs)])))
    case VoidIf(c, bind, a, b) =>
      var (r, t1) := RunE(w, fuel, c, t);
      if r.Out? then (r, t1)
      else
        var (r2, s2) :=
          if Passes(bind, r.v) then EvalB(w, fuel, a, Bound(bind, ValueIn(r.v), t1.user))
            else EvalB(w, fuel, b, t1.user);
        (r2, t1.(user := s2))
    case VoidSwitch(c, prongs, other) =>
      var (r2, s2) := EvalE(w, fuel, SwitchE(c, prongs, other, true), t.user);
      (r2, t.(user := s2))
  }

  function RunArgs(w: World, fuel: nat, es: seq<TExpr>, t: TState): (r: (Results, TState))
    ensures r.1.temps == t.temps
    decreases fuel, es, 0
  {
    if es == [] then (Vals([]), t)
    else
      var (r, t1) := RunE(w, fuel, es[0], t);
      if r.Out? then (OutAll(r.x), t1)
      else
        var (rest, t2) := RunArgs(w, fuel, es[1..], t1);
        if rest.OutAll? then (rest, t2) else (Vals([r.v] + rest.vs), t2)
  }

  function TTaken(prongs: seq<TProng>, other: seq<TStmt>, v: Value): (p: TProng)
    ensures p == TProng([], None, other) || p in prongs
  {
    if prongs == [] then TProng([], None, other)
    else if Key(v) in prongs[0].items then prongs[0]
    else TTaken(prongs[1..], other, v)
  }

  function Run(w: World, fuel: nat, s: TStmt, t: TState): (Result, TState)
    decreases fuel, s, 1
  {
    match s
    case Declare(k) => (Val(Unit), t.(temps := t.temps - {k}))
    case TEval(e) =>
      var (r, t1) := RunE(w, fuel, e, t);
      if r.Out? then (r, t1) else (Val(Unit), t1)
    case TSet(x, e) =>
      var (r, t1) := RunE(w, fuel, e, t);
      if r.Out? then (r, t1) else (Val(Unit), t1.(user := t1.user.(vars := t1.user.vars[x := r.v])))
    case DeclareAs(k, e) =>
      var (r, t1) := RunE(w, fuel, e, t);
      if r.Out? then (r, t1) else (Val(Unit), t1.(temps := t1.temps[k := r.v]))
    case SetTemp(k, e) =>
      var (r, t1) := RunE(w, fuel, e, t);
      if r.Out? then (r, t1) else (Val(Unit), t1.(temps := t1.temps[k := r.v]))
    case TReturn(e) =>
      var (r, t1) := RunE(w, fuel, e, t);
      if r.Out? then (r, t1) else (Out(Returned(r.v)), t1)
    case TGo(j) => (Out(Jumped(j)), t)
    case TIf(c, bind, a, b) =>
      var (r, t1) := RunE(w, fuel, c, t);
      if r.Out? then (r, t1)
      else if Passes(bind, r.v) then RunAll(w, fuel, a, t1.(user := Bound(bind, ValueIn(r.v), t1.user)))
      else RunAll(w, fuel, b, t1)
    case TSwitch(c, prongs, other) =>
      var (r, t1) := RunE(w, fuel, c, t);
      if r.Out? then (r, t1)
      else
        var p := TTaken(prongs, other, r.v);
        RunAll(w, fuel, p.body, t1.(user := Bound(p.bind, Content(r.v), t1.user)))
    case TWhile(_, _, _, _, _) => RunWhile(w, fuel, s, t)
    case TFor(_, over, _, _, _) =>
      var (r, t1) := RunArgs(w, fuel, over, t);
      if r.OutAll? then (Out(r.x), t1) else RunFor(w, fuel, s, r.vs, 0, t1)
  }

  function RunWhile(w: World, fuel: nat, s: TStmt, t: TState): (Result, TState)
    requires s.TWhile?
    decreases fuel, s, 0
  {
    if fuel == 0 then (Out(Spent), t)
    else
      var (r, t1) := RunE(w, fuel - 1, s.c, t);
      if r.Out? then (r, t1)
      else if !Passes(s.bind, r.v) then (Val(Unit), t1)
      else
        var (rb, t2) := RunAll(w, fuel - 1, s.body, t1.(user := Bound(s.bind, ValueIn(r.v), t1.user)));
        if Stops(s.loop, rb) then (AfterLoop(s.loop, rb), t2)
        else if s.step.None? then RunWhile(w, fuel - 1, s, t2)
        else
          var (rs, t3) := RunE(w, fuel - 1, s.step.value, t2);
          if rs.Out? then (rs, t3) else RunWhile(w, fuel - 1, s, t3)
  }

  function RunFor(w: World, fuel: nat, s: TStmt, vs: seq<Value>, i: nat, t: TState): (Result, TState)
    requires s.TFor?
    decreases fuel, s, 0
  {
    if fuel == 0 then (Out(Spent), t)
    else
      var v := w.item(vs, i, t.user.trace);
      if v.None? then (Val(Unit), t)
      else
        var (rb, t1) := RunAll(w, fuel - 1, s.body, t.(user := AtItem(s.item, s.index, v.value, i, t.user)));
        if Stops(s.loop, rb) then (AfterLoop(s.loop, rb), t1) else RunFor(w, fuel - 1, s, vs, i + 1, t1)
  }

  function RunAll(w: World, fuel: nat, ss: seq<TStmt>, t: TState): (Result, TState)
    decreases fuel, ss, 0
  {
    if ss == [] then (Val(Unit), t)
    else
      var (r, t1) := Run(w, fuel, ss[0], t);
      if r.Out? then (r, t1) else RunAll(w, fuel, ss[1..], t1)
  }

  // ----- Lifting -----

  /** What comes before the statement, what is left of the expression, and the next unused temporary. */
  datatype LiftedE = LiftedE(code: seq<TStmt>, e: TExpr, next: nat)
  datatype LiftedArgs = LiftedArgs(code: seq<TStmt>, es: seq<TExpr>, next: nat)
  datatype LiftedStep = LiftedStep(code: seq<TStmt>, e: Option<TExpr>, next: nat)
  datatype LiftedS = LiftedS(code: seq<TStmt>, next: nat)
  datatype LiftedProngs = LiftedProngs(prongs: seq<TProng>, next: nat)

  function LiftE(e: Expr, k: nat): (l: LiftedE)
    ensures l.next >= k
    decreases e, 0
  {
    match e
    case Lit(v) => LiftedE([], TLit(v), k)
    case Var(x) => LiftedE([], TVar(x), k)
    case Op(f, args) =>
      var l := LiftArgs(args, k);
      LiftedE(l.code, TOp(f, l.es), l.next)
    case Call(f, args) =>
      var l := LiftArgs(args, k);
      LiftedE(l.code, TCall(f, l.es), l.next)
    case IfE(c, bind, a, b, isVoid) =>
      var l := LiftE(c, k);
      if isVoid then LiftedE(l.code, VoidIf(l.e, bind, a, b), l.next)
      else
        var temp := l.next;
        var la := LiftB(a, temp, temp + 1);
        var lb := LiftB(b, temp, la.next);
        LiftedE(l.code + [Declare(temp), TIf(l.e, bind, la.code, lb.code)], Temp(temp), lb.next)
    case SwitchE(c, prongs, other, isVoid) =>
      if isVoid then LiftedE([], VoidSwitch(c, prongs, other), k)
      else
        var l := LiftE(c, k);
        var temp := l.next;
        var lp := LiftProngs(prongs, temp, temp + 1);
        var lo := LiftB(other, temp, lp.next);
        LiftedE(l.code + [Declare(temp), TSwitch(l.e, lp.prongs, lo.code)], Temp(temp), lo.next)
    case TryE(x) =>
      var l := LiftE(x, k);
      LiftedE(l.code + TryCode(l.next, l.e), Temp(l.next), l.next + 2)
    case TryVoidE(x) =>
      var l := LiftE(x, k);
      LiftedE(l.code + TryVoidCode(l.next, l.e), TLit(Unit), l.next + 2)
    case CatchE(x, cap, h) =>
      var l := LiftE(x, k);
      var temp := l.next;
      var lh := LiftB(h, temp, temp + 2);
      LiftedE(l.code + CatchCode(temp, l.e, cap, lh.code), Temp(temp), lh.next)
    case OrelseE(x, alt) =>
      var l := LiftE(x, k);
      var temp := l.next;
      var la := LiftB(alt, temp, temp + 2);
      LiftedE(l.code + OrelseCode(temp, l.e, la.code), Temp(temp), la.next)
    case CatchVoidE(x, cap, b) =>
      var l := LiftE(x, k);
      var lb := LiftAll(b, l.next + 2);
      LiftedE(l.code + CatchVoidCode(l.next, l.e, cap, lb.code), TLit(Unit), lb.next)
    case OrelseVoidE(x, b) =>
      var l := LiftE(x, k);
      var lb := LiftAll(b, l.next + 2);
      LiftedE(l.code + OrelseVoidCode(l.next, l.e, lb.code), TLit(Unit), lb.next)
  }

  /** The union goes to a second temporary; an error leaves the function, a payload is kept. */
  function TryCode(temp: nat, e: TExpr): seq<TStmt> {
    [Declare(temp), DeclareAs(temp + 1, e),
     TIf(PartOf(IsError, temp + 1), None, [TReturn(PartOf(AsError, temp + 1))], []),
     SetTemp(temp, PartOf(Payload, temp + 1))]
  }

  /** Without a payload there is no temporary to assign, though its name is used up. */
  function TryVoidCode(temp: nat, e: TExpr): seq<TStmt> {
    [DeclareAs(temp + 1, e), TIf(PartOf(IsError, temp + 1), None, [TReturn(PartOf(AsError, temp + 1))], [])]
  }

  function CatchCode(temp: nat, e: TExpr, cap: Option<string>, handler: seq<TStmt>): seq<TStmt> {
    [DeclareAs(temp, TLit(Int(0))), DeclareAs(temp + 1, e),
     TIf(PartOf(IsError, temp + 1), None, CaptureCode(temp, cap) + handler, [SetTemp(temp, PartOf(Payload, temp + 1))])]
  }

  function CaptureCode(temp: nat, cap: Option<string>): seq<TStmt> {
    if cap.Some? then [TSet(cap.value, PartOf(ErrorCode, temp + 1))] else []
  }

  function OrelseCode(temp: nat, e: TExpr, alt: seq<TStmt>): seq<TStmt> {
    [Declare(temp), DeclareAs(temp + 1, e),
     TIf(PartOf(HasValue, temp + 1), None, [SetTemp(temp, PartOf(OptionalValue, temp + 1))], alt)]
  }

  function CatchVoidCode(temp: nat, e: TExpr, cap: Option<string>, handler: seq<TStmt>): seq<TStmt> {
    [DeclareAs(temp + 1, e),
     TIf(PartOf(IsError, temp + 1), None, CaptureCode(temp, cap) + handler, [TEval(TLit(Unit))])]
  }

  function OrelseVoidCode(temp: nat, e: TExpr, alt: seq<TStmt>): seq<TStmt> {
    [DeclareAs(temp + 1, e), TIf(PartOf(HasValue, temp + 1), None, [SetTemp(temp, TLit(Unit))], alt)]
  }

  /** `return try e`: the temporary has the function's own error union type. */
  function ReturnTryCode(temp: nat, e: TExpr): seq<TStmt> {
    [Declare(temp), DeclareAs(temp + 1, e),
     TIf(PartOf(IsError, temp + 1), None, [SetTemp(temp, PartOf(AsError, temp + 1))],
       [SetTemp(temp, PartOf(AsOk, temp + 1))]),
     TReturn(Temp(temp))]
  }

  function LiftArgs(es: seq<Expr>, k: nat): (l: LiftedArgs)
    ensures l.next >= k && |l.es| == |es|
    decreases es, 0
  {
    if es == [] then LiftedArgs([], [], k)
    else
      var l := LiftE(es[0], k);
      var rest := LiftArgs(es[1..], l.next);
      LiftedArgs(l.code + rest.code, [l.e] + rest.es, rest.next)
  }

  function LiftProngs(prongs: seq<Prong>, temp: nat, k: nat): (l: LiftedProngs)
    ensures l.next >= k && |l.prongs| == |prongs|
    decreases prongs, 0
  {
    if prongs == [] then LiftedProngs([], k)
    else
      var l := LiftB(prongs[0].body, temp, k);
      var rest := LiftProngs(prongs[1..], temp, l.next);
      LiftedProngs([TProng(prongs[0].items, prongs[0].bind, l.code)] + rest.prongs, rest.next)
  }

  /** A branch assigns `temp` what it yields, unless it never gets that far; its block is walked backwards. */
  function LiftB(b: Branch, temp: nat, k: nat): (l: LiftedS)
    ensures l.next >= k
    decreases b, 0
  {
    var last := LiftTail(b.tail, temp, k);
    var init := LiftAll(b.ss, last.next);
    LiftedS(init.code + last.code, init.next)
  }

  function LiftTail(tail: Tail, temp: nat, k: nat): (l: LiftedS)
    ensures l.next >= k
    decreases tail, 0
  {
    match tail
    case Yield(e) =>
      var l := LiftE(e, k);
      LiftedS(l.code + [if ExitsE(e) then TEval(l.e) else SetTemp(temp, l.e)], l.next)
    case Leave(e) =>
      var l := LiftE(e, k);
      LiftedS(l.code + [TReturn(l.e)], l.next)
    case LeaveTry(e) =>
      var l := LiftE(e, k);
      LiftedS(l.code + ReturnTryCode(l.next, l.e), l.next + 2)
    case Away(j) => LiftedS([TGo(j)], k)
  }

  function LiftS(s: Stmt, k: nat): (l: LiftedS)
    ensures l.next >= k
    decreases s, 0
  {
    match s
    case Eval(e) =>
      var l := LiftE(e, k);
      LiftedS(l.code + [TEval(l.e)], l.next)
    case Set(x, e, _) =>
      var l := LiftE(e, k);
      LiftedS(l.code + [TSet(x, l.e)], l.next)
    case Return(e) =>
      var l := LiftE(e, k);
      LiftedS(l.code + [TReturn(l.e)], l.next)
    case ReturnTry(e) =>
      var l := LiftE(e, k);
      LiftedS(l.code + ReturnTryCode(l.next, l.e), l.next + 2)
    case Go(j) => LiftedS([TGo(j)], k)
    case IfS(c, a, b) =>
      var l := LiftE(c, k);
      var la := LiftAll(a, l.next);
      var lb := LiftAll(b, la.next);
      LiftedS(l.code + [TIf(l.e, None, la.code, lb.code)], lb.next)
    case SwitchS(c, arms, other) =>
      var l := LiftE(c, k);
      var la := LiftArms(arms, l.next);
      var lo := LiftAll(other, la.next);
      LiftedS(l.code + [TSwitch(l.e, la.prongs, lo.code)], lo.next)
    case While(loop, c, bind, step, body) =>
      var l := LiftE(c, k);
      var lb := LiftAll(body, l.next);
      var ls := LiftStep(step, lb.next);
      LiftedS(l.code + ls.code + [TWhile(loop, l.e, bind, ls.e, lb.code)], ls.next)
    case For(loop, over, item, index, body) =>
      var l := LiftArgs(over, k);
      var lb := LiftAll(body, l.next);
      LiftedS(l.code + [TFor(loop, l.es, item, index, lb.code)], lb.next)
  }

  function LiftArms(arms: seq<Arm>, k: nat): (l: LiftedProngs)
    ensures l.next >= k && |l.prongs| == |arms|
    decreases arms, 0
  {
    if arms == [] then LiftedProngs([], k)
    else
      var l := LiftAll(arms[0].body, k);
      var rest := LiftArms(arms[1..], l.next);
      LiftedProngs([TProng(arms[0].items, arms[0].bind, l.code)] + rest.prongs, rest.next)
  }

  /** What is lifted out of a continue expression goes in front of the loop, too. */
  function LiftStep(step: Option<Expr>, k: nat): (l: LiftedStep)
    ensures l.next >= k
    decreases step, 0
  {
    if step.None? then LiftedStep([], None, k)
    else
      var l := LiftE(step.value, k);
      LiftedStep(l.code, Some(l.e), l.next)
  }

  /** The last statement is lifted first. */
  function LiftAll(ss: seq<Stmt>, k: nat): (l: LiftedS)
    ensures l.next >= k
    decreases ss, 0
  {
    if ss == [] then LiftedS([], k)
    else
      var last := LiftS(ss[|ss| - 1], k);
      var init := LiftAll(ss[..|ss| - 1], last.next);
      LiftedS(init.code + last.code, init.next)
  }
}
