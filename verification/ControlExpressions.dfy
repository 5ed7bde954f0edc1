/**
 Expressions with control flow inside, as written, and their meaning: a value or an early return,
 the variables, and the trace of calls.  Fuel counts loop iterations only.
 */
module ControlExpressions {
  import opened Options

  datatype Value =
    | Undef | Unit | Bool(b: bool) | Int(n: int)
    | Err(code: int) | Ok(payload: Value)     // error unions
    | Null | Just(value: Value)               // optionals
    | Tagged(tag: int, content: Value)        // tagged unions

  datatype Event = Called(f: nat, args: seq<Value>)

  /** What operators compute, and what calls and the items of a `for` are, given everything called before. */
  datatype World = World(
    op: (nat, seq<Value>) -> Value,
    call: (nat, seq<Value>, seq<Event>) -> Value,
    item: (seq<Value>, nat, seq<Event>) -> Option<Value>)   // None past the last item

  datatype Expr =
    | Lit(v: Value)
    | Var(x: string)
    | Op(f: nat, args: seq<Expr>)
    | Call(f: nat, args: seq<Expr>)
    | IfE(cond: Expr, bind: Option<string>, thenB: Branch, elseB: Branch, isVoid: bool)
    | SwitchE(scrutinee: Expr, prongs: seq<Prong>, other: Branch, isVoid: bool)
    | TryE(e: Expr)
    | TryVoidE(e: Expr)                       // try of an error union without payload
    | CatchE(e: Expr, capture: Option<string>, handler: Branch)
    | OrelseE(e: Expr, alt: Branch)
    | CatchVoidE(e: Expr, capture: Option<string>, body: seq<Stmt>)
    | OrelseVoidE(e: Expr, body: seq<Stmt>)

  datatype Prong = Prong(items: seq<Value>, bind: Option<string>, body: Branch)

  /** A branch: statements, then the value it yields, or the return or jump it ends with. */
  datatype Branch = Branch(ss: seq<Stmt>, tail: Tail)
  datatype Tail = Yield(e: Expr) | Leave(e: Expr) | LeaveTry(e: Expr) | Away(j: Jump)

  /** Ways out of an expression other than a return. */
  datatype Jump = Break(loop: nat) | Continue(loop: nat) | Unreachable

  datatype Stmt =
    | Eval(e: Expr)
    | Set(x: string, e: Expr, declares: bool)   // an assignment, or a declaration with an initializer
    | Return(e: Expr)
    | ReturnTry(e: Expr)                      // return try e
    | Go(j: Jump)
    | IfS(cond: Expr, thenS: seq<Stmt>, elseS: seq<Stmt>)
    | SwitchS(scrutinee: Expr, arms: seq<Arm>, other: seq<Stmt>)
    | While(loop: nat, cond: Expr, bind: Option<string>, step: Option<Expr>, body: seq<Stmt>)
    | For(loop: nat, over: seq<Expr>, item: string, index: Option<string>, body: seq<Stmt>)

  datatype Arm = Arm(items: seq<Value>, bind: Option<string>, body: seq<Stmt>)

  // ----- Meaning -----

  datatype State = State(vars: map<string, Value>, trace: seq<Event>)

  /** `Val` for a value or for falling through, `Out` for leaving by a return or a jump. */
  datatype Result = Val(v: Value) | Out(x: Exit)
  datatype Results = Vals(vs: seq<Value>) | OutAll(x: Exit)
  datatype Exit = Returned(v: Value) | Jumped(j: Jump) | Spent    // `Spent`: the run was not followed any further

  function Lookup(vars: map<string, Value>, x: string): Value {
    if x in vars then vars[x] else Undef
  }

  function PayloadOf(v: Value): Value {
    if v.Ok? then v.payload else Undef
  }

  function ValueIn(v: Value): Value {
    if v.Just? then v.value else Undef
  }

  function ErrCode(v: Value): Value {
    if v.Err? then Int(v.code) else Undef
  }

  function Propagated(v: Value): Value {
    if v.Err? then v else Ok(PayloadOf(v))
  }

  function EvalE(w: World, fuel: nat, e: Expr, s: State): (Result, State)
    decreases fuel, e, 0
  {
    match e
    case Lit(v) => (Val(v), s)
    case Var(x) => (Val(Lookup(s.vars, x)), s)
    case Op(f, args) =>
      var (r, s1) := EvalArgs(w, fuel, args, s);
      if r.OutAll? then (Out(r.x), s1) else (Val(w.op(f, r.vs)), s1)
    case Call(f, args) =>
      var (r, s1) := EvalArgs(w, fuel, args, s);
      if r.OutAll? then (Out(r.x), s1)
      else (Val(w.call(f, r.vs, s1.trace)), s1.(trace := s1.trace + [Called(f, r.vs)]))
    case IfE(c, bind, t, f, _) =>
      var (r, s1) := EvalE(w, fuel, c, s);
      if r.Out? then (r, s1)
      else if Passes(bind, r.v) then EvalB(w, fuel, t, Bound(bind, ValueIn(r.v), s1))
      else EvalB(w, fuel, f, s1)
    case SwitchE(c, prongs, other, _) =>
      var (r, s1) := EvalE(w, fuel, c, s);
      if r.Out? then (r, s1)
      else
        var p := Taken(prongs, other, r.v);
        EvalB(w, fuel, p.body, Bound(p.bind, Content(r.v), s1))
    case TryE(x) =>
      var (r, s1) := EvalE(w, fuel, x, s);
      if r.Out? then (r, s1) else if r.v.Err? then (Out(Returned(r.v)), s1) else (Val(PayloadOf(r.v)), s1)
    case TryVoidE(x) =>
      var (r, s1) := EvalE(w, fuel, x, s);
      if r.Out? then (r, s1) else if r.v.Err? then (Out(Returned(r.v)), s1) else (Val(Unit), s1)
    case CatchE(x, cap, h) =>
      var (r, s1) := EvalE(w, fuel, x, s);
      if r.Out? then (r, s1)
      else if r.v.Err? then EvalB(w, fuel, h, Captured(cap, r.v, s1))
      else (Val(PayloadOf(r.v)), s1)
    case OrelseE(x, alt) =>
      var (r, s1) := EvalE(w, fuel, x, s);
      if r.Out? then (r, s1) else if r.v.Just? then (Val(r.v.value), s1) else EvalB(w, fuel, alt, s1)
    case CatchVoidE(x, cap, b) =>
      var (r, s1) := EvalE(w, fuel, x, s);
      if r.Out? then (r, s1) else if r.v.Err? then ExecAll(w, fuel, b, Captured(cap, r.v, s1)) else (Val(Unit), s1)
    case OrelseVoidE(x, b) =>
      var (r, s1) := EvalE(w, fuel, x, s);
      if r.Out? then (r, s1) else if r.v.Just? then (Val(Unit), s1) else ExecAll(w, fuel, b, s1)
  }

  /** An `if` tests a boolean, or an optional whose value it binds. */
  predicate Passes(bind: Option<string>, v: Value) {
    if bind.Some? then v.Just? else v == Bool(true)
  }

  function Bound(bind: Option<string>, v: Value, s: State): State {
    if bind.Some? then s.(vars := s.vars[bind.value := v]) else s
  }

  function Captured(cap: Option<string>, v: Value, s: State): State {
    if cap.Some? then s.(vars := s.vars[cap.value := ErrCode(v)]) else s
  }

  /** Operands from left to right. */
  function EvalArgs(w: World, fuel: nat, es: seq<Expr>, s: State): (Results, State)
    decreases fuel, es, 0
  {
    if es == [] then (Vals([]), s)
    else
      var (r, s1) := EvalE(w, fuel, es[0], s);
      if r.Out? then (OutAll(r.x), s1)
      else
        var (rest, s2) := EvalArgs(w, fuel, es[1..], s1);
        if rest.OutAll? then (rest, s2) else (Vals([r.v] + rest.vs), s2)
  }

  /** A switch looks at the tag of a tagged union, and may bind its content. */
  function Key(v: Value): Value {
    if v.Tagged? then Int(v.tag) else v
  }

  function Content(v: Value): Value {
    if v.Tagged? then v.content else Undef
  }

  /** The prong a switch takes: the first one that lists the value, otherwise the else prong. */
  function Taken(prongs: seq<Prong>, other: Branch, v: Value): (p: Prong)
    ensures p == Prong([], None, other) || p in prongs
  {
    if prongs == [] then Prong([], None, other)
    else if Key(v) in prongs[0].items then prongs[0]
    else Taken(prongs[1..], other, v)
  }

  /** The same for a switch statement; without an else arm `other` is empty. */
  function TakenArm(arms: seq<Arm>, other: seq<Stmt>, v: Value): (p: Arm)
    ensures p == Arm([], None, other) || p in arms
  {
    if arms == [] then Arm([], None, other)
    else if Key(v) in arms[0].items then arms[0]
    else TakenArm(arms[1..], other, v)
  }

  function EvalB(w: World, fuel: nat, b: Branch, s: State): (Result, State)
    decreases fuel, b, 0
  {
    var (r, s1) := ExecAll(w, fuel, b.ss, s);
    if r.Out? then (r, s1) else EvalTail(w, fuel, b.tail, s1)
  }

  function EvalTail(w: World, fuel: nat, tail: Tail, s: State): (Result, State)
    decreases fuel, tail, 0
  {
    match tail
    case Yield(e) => EvalE(w, fuel, e, s)
    case Leave(e) =>
      var (r, s1) := EvalE(w, fuel, e, s);
      if r.Out? then (r, s1) else (Out(Returned(r.v)), s1)
    case LeaveTry(e) =>
      var (r, s1) := EvalE(w, fuel, e, s);
      if r.Out? then (r, s1) else (Out(Returned(Propagated(r.v))), s1)
    case Away(j) => (Out(Jumped(j)), s)
  }

  function Exec(w: World, fuel: nat, st: Stmt, s: State): (Result, State)
    decreases fuel, st, 1
  {
    match st
    case Eval(e) =>
      var (r, s1) := EvalE(w, fuel, e, s);
      if r.Out? then (r, s1) else (Val(Unit), s1)
    case Set(x, e, _) =>
      var (r, s1) := EvalE(w, fuel, e, s);
      if r.Out? then (r, s1) else (Val(Unit), s1.(vars := s1.vars[x := r.v]))
    case Return(e) =>
      var (r, s1) := EvalE(w, fuel, e, s);
      if r.Out? then (r, s1) else (Out(Returned(r.v)), s1)
    case ReturnTry(e) =>
      var (r, s1) := EvalE(w, fuel, e, s);
      if r.Out? then (r, s1) else (Out(Returned(Propagated(r.v))), s1)
    case Go(j) => (Out(Jumped(j)), s)
    case IfS(c, t, f) =>
      var (r, s1) := EvalE(w, fuel, c, s);
      if r.Out? then (r, s1) else if r.v == Bool(true) then ExecAll(w, fuel, t, s1) else ExecAll(w, fuel, f, s1)
    case SwitchS(c, arms, other) =>
      var (r, s1) := EvalE(w, fuel, c, s);
      if r.Out? then (r, s1)
      else
        var p := TakenArm(arms, other, r.v);
        ExecAll(w, fuel, p.body, Bound(p.bind, Content(r.v), s1))
    case While(_, _, _, _, _) => ExecWhile(w, fuel, st, s)
    case For(_, over, _, _, _) =>
      var (r, s1) := EvalArgs(w, fuel, over, s);
      if r.OutAll? then (Out(r.x), s1) else ExecFor(w, fuel, st, r.vs, 0, s1)
  }

  function ExecWhile(w: World, fuel: nat, st: Stmt, s: State): (Result, State)
    requires st.While?
    decreases fuel, st, 0
  {
    if fuel == 0 then (Out(Spent), s)
    else
      var (r, s1) := EvalE(w, fuel - 1, st.cond, s);
      if r.Out? then (r, s1)
      else if !Passes(st.bind, r.v) then (Val(Unit), s1)
      else
        var (rb, s2) := ExecAll(w, fuel - 1, st.body, Bound(st.bind, ValueIn(r.v), s1));
        if Stops(st.loop, rb) then (AfterLoop(st.loop, rb), s2)
        else if st.step.None? then ExecWhile(w, fuel - 1, st, s2)
        else
          var (rs, s3) := EvalE(w, fuel - 1, st.step.value, s2);
          if rs.Out? then (rs, s3) else ExecWhile(w, fuel - 1, st, s3)
  }

  function ExecFor(w: World, fuel: nat, st: Stmt, vs: seq<Value>, i: nat, s: State): (Result, State)
    requires st.For?
    decreases fuel, st, 0
  {
    if fuel == 0 then (Out(Spent), s)
    else if w.item(vs, i, s.trace).None? then (Val(Unit), s)
    else
      var (rb, s1) := ExecAll(w, fuel - 1, st.body, AtItem(st.item, st.index, w.item(vs, i, s.trace).value, i, s));
      if Stops(st.loop, rb) then (AfterLoop(st.loop, rb), s1) else ExecFor(w, fuel - 1, st, vs, i + 1, s1)
  }

  function AtItem(item: string, index: Option<string>, v: Value, i: nat, s: State): State {
    Bound(index, Int(i), Bound(Some(item), v, s))
  }

  /** Does a loop end when its body ends like this? */
  predicate Stops(loop: nat, r: Result) {
    r.Out? && r.x != Jumped(Continue(loop))
  }

  function AfterLoop(loop: nat, r: Result): Result {
    if r == Out(Jumped(Break(loop))) then Val(Unit) else r
  }

  function ExecAll(w: World, fuel: nat, ss: seq<Stmt>, s: State): (Result, State)
    decreases fuel, ss, 0
  {
    if ss == [] then (Val(Unit), s)
    else
      var (r, s1) := Exec(w, fuel, ss[0], s);
      if r.Out? then (r, s1) else ExecAll(w, fuel, ss[1..], s1)
  }

  // ----- Leaving on every path -----

  predicate ExitsE(e: Expr)
    decreases e, 0
  {
    match e
    case IfE(_, _, t, f, _) => ExitsB(t) && ExitsB(f)
    case SwitchE(_, prongs, other, _) => (forall p <- prongs :: ExitsB(p.body)) && ExitsB(other)
    case CatchE(x, _, h) => ExitsE(x) && ExitsB(h)
    case OrelseE(x, alt) => ExitsE(x) && ExitsB(alt)
    case CatchVoidE(x, _, b) => ExitsE(x) && exists s <- b :: ExitsS(s)
    case OrelseVoidE(x, b) => ExitsE(x) && exists s <- b :: ExitsS(s)
    case _ => false
  }

  predicate ExitsB(b: Branch)
    decreases b, 0
  {
    (exists s <- b.ss :: ExitsS(s)) || (b.tail.Yield? ==> ExitsE(b.tail.e))
  }

  predicate ExitsS(s: Stmt)
    decreases s, 0
  {
    match s
    case Eval(e) => ExitsE(e)
    case Set(_, e, declares) => declares && ExitsE(e)
    case Return(_) => true
    case ReturnTry(_) => true
    case Go(_) => true
    case IfS(_, t, f) => (exists x <- t :: ExitsS(x)) && (exists x <- f :: ExitsS(x))
    case SwitchS(_, arms, other) =>
      (forall p <- arms :: exists x <- p.body :: ExitsS(x)) && (exists x <- other :: ExitsS(x))
    case While(_, _, _, _, _) => false
    case For(_, _, _, _, _) => false
  }
}
