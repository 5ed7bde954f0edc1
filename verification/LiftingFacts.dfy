/** What lifting leaves of an expression, what it may write, and when operands keep their order. */
module LiftingFacts {
  import opened Options
  import opened ControlExpressions
  import opened Lifting

  // ----- Leaving on every path -----

  lemma {:induction false} ExitsReturnE(w: World, fuel: nat, e: Expr, s: State)
    requires ExitsE(e)
    ensures EvalE(w, fuel, e, s).0.Out?
    decreases fuel, e, 1
  {
    match e
    case IfE(c, bind, a, b, _) =>
      var (r, s1) := EvalE(w, fuel, c, s);
      if r.Val? {
        ExitsReturnB(w, fuel, a, Bound(bind, ValueIn(r.v), s1));
        ExitsReturnB(w, fuel, b, s1);
      }
    case SwitchE(c, prongs, other, _) =>
      var (r, s1) := EvalE(w, fuel, c, s);
      if r.Val? {
        var p := Taken(prongs, other, r.v);
        assert ExitsB(p.body);
        ExitsReturnB(w, fuel, p.body, Bound(p.bind, Content(r.v), s1));
      }
    case CatchE(x, _, _) => ExitsReturnE(w, fuel, x, s);
    case OrelseE(x, _) => ExitsReturnE(w, fuel, x, s);
    case CatchVoidE(x, _, _) => ExitsReturnE(w, fuel, x, s);
    case OrelseVoidE(x, _) => ExitsReturnE(w, fuel, x, s);
  }

  lemma {:induction false} ExitsReturnB(w: World, fuel: nat, b: Branch, s: State)
    requires ExitsB(b)
    ensures EvalB(w, fuel, b, s).0.Out?
    decreases fuel, b, 1
  {
    var (r, s1) := ExecAll(w, fuel, b.ss, s);
    if x :| x in b.ss && ExitsS(x) {
      ExitsReturnAll(w, fuel, b.ss, s, x);
    } else if b.tail.Yield? {
      ExitsReturnE(w, fuel, b.tail.e, s1);
    }
  }

  lemma {:induction false} ExitsReturnS(w: World, fuel: nat, x: Stmt, s: State)
    requires ExitsS(x)
    ensures Exec(w, fuel, x, s).0.Out?
    decreases fuel, x, 1
  {
    match x
    case Eval(e) => ExitsReturnE(w, fuel, e, s);
    case Set(_, e, _) => ExitsReturnE(w, fuel, e, s);
    case Return(_) =>
    case ReturnTry(_) =>
    case Go(_) =>
    case IfS(c, a, b) =>
      var s1 := EvalE(w, fuel, c, s).1;
      var y :| y in a && ExitsS(y);
      var z :| z in b && ExitsS(z);
      ExitsReturnAll(w, fuel, a, s1, y);
      ExitsReturnAll(w, fuel, b, s1, z);
    case SwitchS(c, arms, other) =>
      var (r, s1) := EvalE(w, fuel, c, s);
      if r.Val? {
        var p := TakenArm(arms, other, r.v);
        var y :| y in p.body && ExitsS(y);
        ExitsReturnAll(w, fuel, p.body, Bound(p.bind, Content(r.v), s1), y);
      }
  }

  lemma {:induction false} ExitsReturnAll(w: World, fuel: nat, ss: seq<Stmt>, s: State, x: Stmt)
    requires x in ss && ExitsS(x)
    ensures ExecAll(w, fuel, ss, s).0.Out?
    decreases fuel, ss, 1
  {
    if ss[0] == x {
      ExitsReturnS(w, fuel, x, s);
    } else {
      ExitsReturnAll(w, fuel, ss[1..], Exec(w, fuel, ss[0], s).1, x);
    }
  }

  // ----- What an expression writes -----

  function WritesE(e: Expr): set<string>
    decreases e, 0
  {
    match e
    case Lit(_) => {}
    case Var(_) => {}
    case Op(_, args) => WritesArgs(args)
    case Call(_, args) => WritesArgs(args)
    case IfE(c, bind, a, b, _) => WritesE(c) + Name(bind) + WritesB(a) + WritesB(b)
    case SwitchE(c, prongs, other, _) => WritesE(c) + WritesP(prongs) + WritesB(other)
    case TryE(x) => WritesE(x)
    case TryVoidE(x) => WritesE(x)
    case CatchE(x, cap, h) => WritesE(x) + Name(cap) + WritesB(h)
    case OrelseE(x, alt) => WritesE(x) + WritesB(alt)
    case CatchVoidE(x, cap, b) => WritesE(x) + Name(cap) + WritesAll(b)
    case OrelseVoidE(x, b) => WritesE(x) + WritesAll(b)
  }

  function Name(x: Option<string>): set<string> {
    if x.Some? then {x.value} else {}
  }

  function WritesArgs(es: seq<Expr>): set<string>
    decreases es, 0
  {
    if es == [] then {} else WritesE(es[0]) + WritesArgs(es[1..])
  }

  function WritesP(prongs: seq<Prong>): set<string>
    decreases prongs, 0
  {
    if prongs == [] then {} else Name(prongs[0].bind) + WritesB(prongs[0].body) + WritesP(prongs[1..])
  }

  function WritesB(b: Branch): set<string>
    decreases b, 0
  {
    WritesAll(b.ss) + if b.tail.Away? then {} else WritesE(b.tail.e)
  }

  function WritesS(s: Stmt): set<string>
    decreases s, 0
  {
    match s
    case Eval(e) => WritesE(e)
    case Set(x, e, _) => WritesE(e) + {x}
    case Return(e) => WritesE(e)
    case ReturnTry(e) => WritesE(e)
    case Go(_) => {}
    case IfS(c, a, b) => WritesE(c) + WritesAll(a) + WritesAll(b)
    case SwitchS(c, arms, other) => WritesE(c) + WritesArms(arms) + WritesAll(other)
    case While(_, c, bind, step, body) =>
      WritesE(c) + Name(bind) + (if step.Some? then WritesE(step.value) else {}) + WritesAll(body)
    case For(_, over, item, index, body) => WritesArgs(over) + {item} + Name(index) + WritesAll(body)
  }

  function WritesArms(arms: seq<Arm>): set<string>
    decreases arms, 0
  {
    if arms == [] then {} else Name(arms[0].bind) + WritesAll(arms[0].body) + WritesArms(arms[1..])
  }

  function WritesAll(ss: seq<Stmt>): set<string>
    decreases ss, 0
  {
    if ss == [] then {} else WritesS(ss[0]) + WritesAll(ss[1..])
  }

  /** The two states agree on every variable outside `ws`. */
  ghost predicate SameVars(s: State, s': State, ws: set<string>) {
    forall x :: x !in ws ==> Lookup(s.vars, x) == Lookup(s'.vars, x)
  }

  lemma {:induction false} FrameE(w: World, fuel: nat, e: Expr, s: State)
    ensures SameVars(s, EvalE(w, fuel, e, s).1, WritesE(e))
    decreases fuel, e, 1
  {
    match e
    case Lit(_) =>
    case Var(_) =>
    case Op(_, args) => FrameArgs(w, fuel, args, s);
    case Call(_, args) => FrameArgs(w, fuel, args, s);
    case IfE(c, bind, a, b, _) =>
      FrameE(w, fuel, c, s);
      var (r, s1) := EvalE(w, fuel, c, s);
      if r.Val? {
        FrameB(w, fuel, a, Bound(bind, ValueIn(r.v), s1));
        FrameB(w, fuel, b, s1);
      }
    case SwitchE(c, prongs, other, _) =>
      FrameE(w, fuel, c, s);
      var (r, s1) := EvalE(w, fuel, c, s);
      if r.Val? {
        var p := Taken(prongs, other, r.v);
        TakenWrites(prongs, other, r.v);
        FrameB(w, fuel, p.body, Bound(p.bind, Content(r.v), s1));
      }
    case TryE(x) => FrameE(w, fuel, x, s);
    case TryVoidE(x) => FrameE(w, fuel, x, s);
    case CatchE(x, cap, h) =>
      FrameE(w, fuel, x, s);
      var (r, s1) := EvalE(w, fuel, x, s);
      if r.Val? {
        FrameB(w, fuel, h, Captured(cap, r.v, s1));
      }
    case OrelseE(x, alt) =>
      FrameE(w, fuel, x, s);
      FrameB(w, fuel, alt, EvalE(w, fuel, x, s).1);
    case CatchVoidE(x, cap, b) =>
      FrameE(w, fuel, x, s);
      var (r, s1) := EvalE(w, fuel, x, s);
      if r.Val? {
        FrameAll(w, fuel, b, Captured(cap, r.v, s1));
      }
    case OrelseVoidE(x, b) =>
      FrameE(w, fuel, x, s);
      FrameAll(w, fuel, b, EvalE(w, fuel, x, s).1);
  }

  lemma {:induction false} TakenWrites(prongs: seq<Prong>, other: Branch, v: Value)
    ensures var p := Taken(prongs, other, v); Name(p.bind) + WritesB(p.body) <= WritesP(prongs) + WritesB(other)
  {
    if prongs != [] {
      TakenWrites(prongs[1..], other, v);
    }
  }

  lemma {:induction false} FrameArgs(w: World, fuel: nat, es: seq<Expr>, s: State)
    ensures SameVars(s, EvalArgs(w, fuel, es, s).1, WritesArgs(es))
    decreases fuel, es, 1
  {
    if es != [] {
      FrameE(w, fuel, es[0], s);
      FrameArgs(w, fuel, es[1..], EvalE(w, fuel, es[0], s).1);
    }
  }

  lemma {:induction false} FrameB(w: World, fuel: nat, b: Branch, s: State)
    ensures SameVars(s, EvalB(w, fuel, b, s).1, WritesB(b))
    decreases fuel, b, 1
  {
    FrameAll(w, fuel, b.ss, s);
    if !b.tail.Away? {
      FrameE(w, fuel, b.tail.e, ExecAll(w, fuel, b.ss, s).1);
    }
  }

  lemma {:induction false} FrameS(w: World, fuel: nat, x: Stmt, s: State)
    ensures SameVars(s, Exec(w, fuel, x, s).1, WritesS(x))
    decreases fuel, x, 1
  {
    match x
    case Eval(e) => FrameE(w, fuel, e, s);
    case Set(_, e, _) => FrameE(w, fuel, e, s);
    case Return(e) => FrameE(w, fuel, e, s);
    case ReturnTry(e) => FrameE(w, fuel, e, s);
    case Go(_) =>
    case IfS(c, a, b) =>
      FrameE(w, fuel, c, s);
      var s1 := EvalE(w, fuel, c, s).1;
      FrameAll(w, fuel, a, s1);
      FrameAll(w, fuel, b, s1);
    case SwitchS(c, arms, other) =>
      FrameE(w, fuel, c, s);
      var (r, s1) := EvalE(w, fuel, c, s);
      if r.Val? {
        var p := TakenArm(arms, other, r.v);
        TakenArmWrites(arms, other, r.v);
        FrameAll(w, fuel, p.body, Bound(p.bind, Content(r.v), s1));
      }
    case While(_, _, _, _, _) => FrameWhile(w, fuel, x, s);
    case For(_, over, _, _, _) =>
      FrameArgs(w, fuel, over, s);
      var (r, s1) := EvalArgs(w, fuel, over, s);
      if r.Vals? {
        FrameFor(w, fuel, x, r.vs, 0, s1);
      }
  }

  lemma {:induction false} TakenArmWrites(arms: seq<Arm>, other: seq<Stmt>, v: Value)
    ensures var p := TakenArm(arms, other, v);
            Name(p.bind) + WritesAll(p.body) <= WritesArms(arms) + WritesAll(other)
  {
    hide WritesAll;
    if arms != [] {
      TakenArmWrites(arms[1..], other, v);
    }
  }

  lemma {:induction false} FrameWhile(w: World, fuel: nat, x: Stmt, s: State)
    requires x.While?
    ensures SameVars(s, ExecWhile(w, fuel, x, s).1, WritesS(x))
    decreases fuel, x, 0
  {
    hide EvalE, ExecAll, WritesE, WritesAll;
    if fuel > 0 {
      FrameE(w, fuel - 1, x.cond, s);
      var (r, s1) := EvalE(w, fuel - 1, x.cond, s);
      if r.Val? && Passes(x.bind, r.v) {
        var s1' := Bound(x.bind, ValueIn(r.v), s1);
        FrameAll(w, fuel - 1, x.body, s1');
        var (rb, s2) := ExecAll(w, fuel - 1, x.body, s1');
        if !Stops(x.loop, rb) {
          if x.step.Some? {
            FrameE(w, fuel - 1, x.step.value, s2);
            var (rs, s3) := EvalE(w, fuel - 1, x.step.value, s2);
            if rs.Val? {
              FrameWhile(w, fuel - 1, x, s3);
            }
          } else {
            FrameWhile(w, fuel - 1, x, s2);
          }
        }
      }
    }
  }

  lemma {:induction false} FrameFor(w: World, fuel: nat, x: Stmt, vs: seq<Value>, i: nat, s: State)
    requires x.For?
    ensures SameVars(s, ExecFor(w, fuel, x, vs, i, s).1, WritesS(x))
    decreases fuel, x, 0
  {
    hide ExecAll, WritesArgs, WritesAll;
    if fuel > 0 && w.item(vs, i, s.trace).Some? {
      var s1 := AtItem(x.item, x.index, w.item(vs, i, s.trace).value, i, s);
      FrameAll(w, fuel - 1, x.body, s1);
      var (rb, s2) := ExecAll(w, fuel - 1, x.body, s1);
      if !Stops(x.loop, rb) {
        FrameFor(w, fuel - 1, x, vs, i + 1, s2);
      }
    }
  }

  lemma {:induction false} FrameAll(w: World, fuel: nat, ss: seq<Stmt>, s: State)
    ensures SameVars(s, ExecAll(w, fuel, ss, s).1, WritesAll(ss))
    decreases fuel, ss, 1
  {
    if ss != [] {
      FrameS(w, fuel, ss[0], s);
      FrameAll(w, fuel, ss[1..], Exec(w, fuel, ss[0], s).1);
    }
  }

  // ----- What is left in place -----

  predicate LiftsE(e: Expr)
    decreases e, 0
  {
    match e
    case Lit(_) => false
    case Var(_) => false
    case Op(_, args) => LiftsArgs(args)
    case Call(_, args) => LiftsArgs(args)
    case IfE(c, _, _, _, isVoid) => !isVoid || LiftsE(c)
    case SwitchE(_, _, _, isVoid) => !isVoid
    case _ => true
  }

  predicate LiftsArgs(es: seq<Expr>)
    decreases es, 0
  {
    es != [] && (LiftsE(es[0]) || LiftsArgs(es[1..]))
  }

  /** What is left of `e` neither calls nor assigns anything. */
  predicate Calm(e: Expr)
    decreases e, 0
  {
    match e
    case Op(_, args) => CalmArgs(args)
    case Call(_, _) => false
    case IfE(_, _, _, _, isVoid) => !isVoid
    case SwitchE(_, _, _, isVoid) => !isVoid
    case _ => true
  }

  predicate CalmArgs(es: seq<Expr>)
    decreases es, 0
  {
    es == [] || (Calm(es[0]) && CalmArgs(es[1..]))
  }

  /** The variables that what is left of `e` reads. */
  function Reads(e: Expr): set<string>
    decreases e, 0
  {
    match e
    case Var(x) => {x}
    case Op(_, args) => ReadsArgs(args)
    case Call(_, args) => ReadsArgs(args)
    case _ => {}
  }

  function ReadsArgs(es: seq<Expr>): set<string>
    decreases es, 0
  {
    if es == [] then {} else Reads(es[0]) + ReadsArgs(es[1..])
  }

  /** What is left of `e` may call, but neither assigns nor leaves. */
  predicate Steady(e: Expr)
    decreases e, 0
  {
    match e
    case Op(_, args) => SteadyArgs(args)
    case Call(_, args) => SteadyArgs(args)
    case IfE(_, _, _, _, isVoid) => !isVoid
    case SwitchE(_, _, _, isVoid) => !isVoid
    case _ => true
  }

  predicate SteadyArgs(es: seq<Expr>)
    decreases es, 0
  {
    es == [] || (Steady(es[0]) && SteadyArgs(es[1..]))
  }

  /** Evaluating `e` makes no call and cannot leave. */
  predicate QuietE(e: Expr)
    decreases e, 0
  {
    match e
    case Lit(_) => true
    case Var(_) => true
    case Op(_, args) => QuietArgs(args)
    case IfE(c, _, a, b, isVoid) => !isVoid && QuietE(c) && QuietB(a) && QuietB(b)
    case SwitchE(c, prongs, other, isVoid) => !isVoid && QuietE(c) && QuietP(prongs) && QuietB(other)
    case CatchE(x, _, h) => QuietE(x) && QuietB(h)
    case OrelseE(x, alt) => QuietE(x) && QuietB(alt)
    case CatchVoidE(x, _, b) => QuietE(x) && QuietAll(b)
    case OrelseVoidE(x, b) => QuietE(x) && QuietAll(b)
    case _ => false
  }

  predicate QuietArgs(es: seq<Expr>)
    decreases es, 0
  {
    es == [] || (QuietE(es[0]) && QuietArgs(es[1..]))
  }

  predicate QuietP(prongs: seq<Prong>)
    decreases prongs, 0
  {
    prongs == [] || (QuietB(prongs[0].body) && QuietP(prongs[1..]))
  }

  predicate QuietB(b: Branch)
    decreases b, 0
  {
    b.tail.Yield? && QuietE(b.tail.e) && QuietAll(b.ss)
  }

  predicate QuietS(s: Stmt)
    decreases s, 0
  {
    match s
    case Eval(e) => QuietE(e)
    case Set(_, e, _) => QuietE(e)
    case IfS(c, a, b) => QuietE(c) && QuietAll(a) && QuietAll(b)
    case _ => false
  }

  predicate QuietAll(ss: seq<Stmt>)
    decreases ss, 0
  {
    ss == [] || (QuietS(ss[|ss| - 1]) && QuietAll(ss[..|ss| - 1]))
  }

  /** The code lifted out of `e` makes no call and cannot leave, whatever is left in place. */
  predicate SilentE(e: Expr)
    decreases e, 0
  {
    match e
    case Op(_, args) => SilentArgs(args)
    case Call(_, args) => SilentArgs(args)
    case IfE(c, _, _, _, isVoid) => if isVoid then SilentE(c) else QuietE(e)
    case SwitchE(_, _, _, isVoid) => isVoid || QuietE(e)
    case _ => QuietE(e)
  }

  predicate SilentArgs(es: seq<Expr>)
    decreases es, 0
  {
    es == [] || (SilentE(es[0]) && SilentArgs(es[1..]))
  }

  /**
   An operand in front of lifted ones must not read what they write.  It must be a constant, a variable, an
   operator on such operands or itself lifted; it may also call if the code moved in front of it neither
   calls nor leaves.
   */
  predicate OrderlyE(e: Expr)
    decreases e, 0
  {
    match e
    case Lit(_) => true
    case Var(_) => true
    case Op(_, args) => OrderlyArgs(args)
    case Call(_, args) => OrderlyArgs(args)
    case IfE(c, _, a, b, isVoid) => OrderlyE(c) && (isVoid || (OrderlyB(a) && OrderlyB(b)))
    case SwitchE(c, prongs, other, isVoid) =>
      isVoid || (OrderlyE(c) && OrderlyB(other) && forall p <- prongs :: OrderlyB(p.body))
    case TryE(x) => OrderlyE(x)
    case TryVoidE(x) => OrderlyE(x)
    case CatchE(x, _, h) => OrderlyE(x) && OrderlyB(h)
    case OrelseE(x, alt) => OrderlyE(x) && OrderlyB(alt)
    case CatchVoidE(x, _, b) => OrderlyE(x) && forall y <- b :: OrderlyS(y)
    case OrelseVoidE(x, b) => OrderlyE(x) && forall y <- b :: OrderlyS(y)
  }

  predicate OrderlyArgs(es: seq<Expr>)
    decreases es, 0
  {
    es == [] ||
    (OrderlyE(es[0]) && OrderlyArgs(es[1..])
     && (LiftsArgs(es[1..]) ==>
           (Calm(es[0]) || (Steady(es[0]) && SilentArgs(es[1..]))) && Reads(es[0]) !! WritesArgs(es[1..])))
  }

  predicate OrderlyB(b: Branch)
    decreases b, 0
  {
    (b.tail.Away? || OrderlyE(b.tail.e)) && forall s <- b.ss :: OrderlyS(s)
  }

  predicate OrderlyS(s: Stmt)
    decreases s, 0
  {
    match s
    case Eval(e) => OrderlyE(e)
    case Set(_, e, _) => OrderlyE(e)
    case Return(e) => OrderlyE(e)
    case ReturnTry(e) => OrderlyE(e)
    case Go(_) => true
    case IfS(c, a, b) => OrderlyE(c) && (forall x <- a :: OrderlyS(x)) && forall x <- b :: OrderlyS(x)
    case SwitchS(c, arms, other) =>
      OrderlyE(c) && (forall p <- arms :: forall x <- p.body :: OrderlyS(x)) && forall x <- other :: OrderlyS(x)
    case While(_, c, _, step, body) =>
      !LiftsE(c) && OrderlyE(c) && (step.Some? ==> !LiftsE(step.value) && OrderlyE(step.value))
      && forall x <- body :: OrderlyS(x)
    case For(_, over, _, _, body) => OrderlyArgs(over) && forall x <- body :: OrderlyS(x)
  }

  lemma {:induction false} NothingLifted(e: Expr, k: nat)
    requires !LiftsE(e)
    ensures LiftE(e, k).code == [] && LiftE(e, k).next == k
    decreases e, 1
  {
    match e
    case Lit(_) =>
    case Var(_) =>
    case Op(_, args) => NothingLiftedArgs(args, k);
    case Call(_, args) => NothingLiftedArgs(args, k);
    case IfE(c, _, _, _, _) => NothingLifted(c, k);
    case SwitchE(_, _, _, _) =>
  }

  lemma {:induction false} NothingLiftedArgs(es: seq<Expr>, k: nat)
    requires !LiftsArgs(es)
    ensures LiftArgs(es, k).code == [] && LiftArgs(es, k).next == k
    decreases es, 1
  {
    if es != [] {
      NothingLifted(es[0], k);
      NothingLiftedArgs(es[1..], k);
    }
  }

  // ----- What is left reads only its own temporaries -----

  function Slot(t: TState, j: nat): Option<Value> {
    if j in t.temps then Some(t.temps[j]) else None
  }

  /** The two states agree on every temporary outside `[k, next)`. */
  ghost predicate SameTemps(t: TState, t': TState, k: nat, next: nat) {
    forall j: nat :: j < k || j >= next ==> Slot(t, j) == Slot(t', j)
  }

  ghost predicate AgreeWithin(t: TState, t': TState, k: nat, next: nat) {
    forall j: nat :: k <= j < next ==> Slot(t, j) == Slot(t', j)
  }

  /** The two runs give the same result and the same variables and trace. */
  predicate Alike(r: (Result, TState), r': (Result, TState)) {
    r.0 == r'.0 && r.1.user == r'.1.user
  }

  predicate AlikeArgs(r: (Results, TState), r': (Results, TState)) {
    r.0 == r'.0 && r.1.user == r'.1.user
  }

  lemma {:induction false} Insensitive(w: World, fuel: nat, e: Expr, k: nat, t: TState, t': TState)
    requires t.user == t'.user && AgreeWithin(t, t', k, LiftE(e, k).next)
    ensures Alike(RunE(w, fuel, LiftE(e, k).e, t), RunE(w, fuel, LiftE(e, k).e, t'))
    decreases fuel, e, 1
  {
    hide LiftB, LiftProngs, EvalB, EvalE;
    match e
    case Lit(_) =>
    case Var(_) =>
    case Op(_, args) => InsensitiveArgs(w, fuel, args, k, t, t');
    case Call(_, args) => InsensitiveArgs(w, fuel, args, k, t, t');
    case IfE(c, _, a, b, isVoid) =>
      if isVoid {
        Insensitive(w, fuel, c, k, t, t');
      } else {
        OwnTempAgrees(e, k, t, t');
      }
    case SwitchE(c, prongs, other, isVoid) =>
      if !isVoid {
        OwnTempAgrees(e, k, t, t');
      }
    case TryE(_) => OwnTempAgrees(e, k, t, t');
    case TryVoidE(_) =>
    case CatchE(_, _, _) => OwnTempAgrees(e, k, t, t');
    case OrelseE(_, _) => OwnTempAgrees(e, k, t, t');
    case CatchVoidE(_, _, _) =>
    case OrelseVoidE(_, _) =>
  }

  lemma OwnTempAgrees(e: Expr, k: nat, t: TState, t': TState)
    requires e.TryE? || e.CatchE? || e.OrelseE? || ((e.IfE? || e.SwitchE?) && !e.isVoid)
    requires AgreeWithin(t, t', k, LiftE(e, k).next)
    ensures LiftE(e, k).e.Temp? && TempValue(t, LiftE(e, k).e.k) == TempValue(t', LiftE(e, k).e.k)
  {
    hide LiftE;
    RestIsTemp(e, k);
    assert Slot(t, LiftE(e, k).e.k) == Slot(t', LiftE(e, k).e.k);
  }

  /** What is left of a lifted control-flow expression is one of its own temporaries. */
  lemma RestIsTemp(e: Expr, k: nat)
    requires e.TryE? || e.CatchE? || e.OrelseE? || ((e.IfE? || e.SwitchE?) && !e.isVoid)
    ensures LiftE(e, k).e.Temp? && k <= LiftE(e, k).e.k < LiftE(e, k).next
  {
    hide LiftB, LiftProngs;
  }

  lemma {:induction false} InsensitiveArgs(w: World, fuel: nat, es: seq<Expr>, k: nat, t: TState, t': TState)
    requires t.user == t'.user && AgreeWithin(t, t', k, LiftArgs(es, k).next)
    ensures AlikeArgs(RunArgs(w, fuel, LiftArgs(es, k).es, t), RunArgs(w, fuel, LiftArgs(es, k).es, t'))
    decreases fuel, es, 1
  {
    if es != [] {
      var l := LiftE(es[0], k);
      var rest := LiftArgs(es[1..], l.next);
      Insensitive(w, fuel, es[0], k, t, t');
      var (r, t1) := RunE(w, fuel, l.e, t);
      var (r', t1') := RunE(w, fuel, l.e, t');
      assert forall j: nat :: Slot(t1, j) == Slot(t, j) && Slot(t1', j) == Slot(t', j);
      InsensitiveArgs(w, fuel, es[1..], l.next, t1, t1');
      assert ([l.e] + rest.es)[1..] == rest.es;
    }
  }

  /** A calm rest has no effect, and its value depends on its own temporaries and the variables it reads. */
  lemma {:induction false} CalmRuns(w: World, fuel: nat, e: Expr, k: nat, t: TState, t': TState)
    requires Calm(e) && AgreeWithin(t, t', k, LiftE(e, k).next)
    requires forall x <- Reads(e) :: Lookup(t.user.vars, x) == Lookup(t'.user.vars, x)
    ensures RunE(w, fuel, LiftE(e, k).e, t).0.Val? && RunE(w, fuel, LiftE(e, k).e, t).1 == t
    ensures RunE(w, fuel, LiftE(e, k).e, t') == (RunE(w, fuel, LiftE(e, k).e, t).0, t')
    decreases fuel, e, 1
  {
    hide LiftB, LiftProngs, EvalB, EvalE;
    match e
    case Lit(_) =>
    case Var(_) =>
    case Op(_, args) => CalmRunsArgs(w, fuel, args, k, t, t');
    case IfE(_, _, _, _, _) => OwnTempAgrees(e, k, t, t');
    case SwitchE(_, _, _, _) => OwnTempAgrees(e, k, t, t');
    case TryE(_) => OwnTempAgrees(e, k, t, t');
    case TryVoidE(_) =>
    case CatchE(_, _, _) => OwnTempAgrees(e, k, t, t');
    case OrelseE(_, _) => OwnTempAgrees(e, k, t, t');
    case CatchVoidE(_, _, _) =>
    case OrelseVoidE(_, _) =>
  }

  lemma {:induction false} CalmRunsArgs(w: World, fuel: nat, es: seq<Expr>, k: nat, t: TState, t': TState)
    requires CalmArgs(es) && AgreeWithin(t, t', k, LiftArgs(es, k).next)
    requires forall x <- ReadsArgs(es) :: Lookup(t.user.vars, x) == Lookup(t'.user.vars, x)
    ensures RunArgs(w, fuel, LiftArgs(es, k).es, t).0.Vals? && RunArgs(w, fuel, LiftArgs(es, k).es, t).1 == t
    ensures RunArgs(w, fuel, LiftArgs(es, k).es, t') == (RunArgs(w, fuel, LiftArgs(es, k).es, t).0, t')
    decreases fuel, es, 1
  {
    if es != [] {
      var l := LiftE(es[0], k);
      var rest := LiftArgs(es[1..], l.next);
      CalmRuns(w, fuel, es[0], k, t, t');
      CalmRunsArgs(w, fuel, es[1..], l.next, t, t');
      assert ([l.e] + rest.es)[1..] == rest.es;
    }
  }

  // ----- Calls that do not mind what moves past them -----

  function WithTrace(t: TState, trace: seq<Event>): TState {
    t.(user := t.user.(trace := trace))
  }

  /** A steady rest only calls, and what it calls and computes depends on its operands and the trace alone. */
  lemma {:induction false} SteadyRuns(w: World, fuel: nat, e: Expr, k: nat, t: TState, t': TState)
    requires Steady(e) && AgreeWithin(t, t', k, LiftE(e, k).next) && t.user.trace == t'.user.trace
    requires forall x <- Reads(e) :: Lookup(t.user.vars, x) == Lookup(t'.user.vars, x)
    ensures var (r, t1) := RunE(w, fuel, LiftE(e, k).e, t);
            r.Val? && t1 == WithTrace(t, t1.user.trace)
            && RunE(w, fuel, LiftE(e, k).e, t') == (r, WithTrace(t', t1.user.trace))
    decreases fuel, e, 1
  {
    hide LiftB, LiftProngs, EvalB, EvalE;
    match e
    case Lit(_) =>
    case Var(_) =>
    case Op(_, args) => SteadyRunsArgs(w, fuel, args, k, t, t');
    case Call(_, args) => SteadyRunsArgs(w, fuel, args, k, t, t');
    case IfE(_, _, _, _, _) => OwnTempAgrees(e, k, t, t');
    case SwitchE(_, _, _, _) => OwnTempAgrees(e, k, t, t');
    case TryE(_) => OwnTempAgrees(e, k, t, t');
    case TryVoidE(_) =>
    case CatchE(_, _, _) => OwnTempAgrees(e, k, t, t');
    case OrelseE(_, _) => OwnTempAgrees(e, k, t, t');
    case CatchVoidE(_, _, _) =>
    case OrelseVoidE(_, _) =>
  }

  lemma {:induction false} SteadyRunsArgs(w: World, fuel: nat, es: seq<Expr>, k: nat, t: TState, t': TState)
    requires SteadyArgs(es) && AgreeWithin(t, t', k, LiftArgs(es, k).next) && t.user.trace == t'.user.trace
    requires forall x <- ReadsArgs(es) :: Lookup(t.user.vars, x) == Lookup(t'.user.vars, x)
    ensures var (r, t1) := RunArgs(w, fuel, LiftArgs(es, k).es, t);
            r.Vals? && t1 == WithTrace(t, t1.user.trace)
            && RunArgs(w, fuel, LiftArgs(es, k).es, t') == (r, WithTrace(t', t1.user.trace))
    decreases fuel, es, 1
  {
    if es != [] {
      var l := LiftE(es[0], k);
      var rest := LiftArgs(es[1..], l.next);
      SteadyRuns(w, fuel, es[0], k, t, t');
      var (r, t1) := RunE(w, fuel, l.e, t);
      var t1' := WithTrace(t', t1.user.trace);
      assert forall j: nat :: Slot(t1, j) == Slot(t, j) && Slot(t1', j) == Slot(t', j);
      SteadyRunsArgs(w, fuel, es[1..], l.next, t1, t1');
      assert ([l.e] + rest.es)[1..] == rest.es;
    }
  }

  /** Target code that neither calls nor leaves. */
  predicate QuietX(e: TExpr)
    decreases e, 0
  {
    match e
    case TOp(_, args) => forall x <- args :: QuietX(x)
    case TCall(_, _) => false
    case VoidIf(_, _, _, _) => false
    case VoidSwitch(_, _, _) => false
    case _ => true
  }

  predicate QuietT(s: TStmt)
    decreases s, 0
  {
    match s
    case Declare(_) => true
    case TEval(e) => QuietX(e)
    case TSet(_, e) => QuietX(e)
    case DeclareAs(_, e) => QuietX(e)
    case SetTemp(_, e) => QuietX(e)
    case TReturn(_) => false
    case TGo(_) => false
    case TIf(c, _, a, b) => QuietX(c) && QuietCode(a) && QuietCode(b)
    case TSwitch(c, prongs, other) => QuietX(c) && QuietCode(other) && forall p <- prongs :: QuietCode(p.body)
    case TWhile(_, _, _, _, _) => false
    case TFor(_, _, _, _, _) => false
  }

  predicate QuietCode(ss: seq<TStmt>)
    decreases ss, 0
  {
    forall s <- ss :: QuietT(s)
  }

  lemma {:induction false} QuietXRuns(w: World, fuel: nat, e: TExpr, t: TState, trace: seq<Event>)
    requires QuietX(e)
    ensures RunE(w, fuel, e, t).0.Val? && RunE(w, fuel, e, t).1 == t
    ensures RunE(w, fuel, e, WithTrace(t, trace)) == (RunE(w, fuel, e, t).0, WithTrace(t, trace))
    decreases fuel, e, 1
  {
    if e.TOp? {
      QuietXRunsArgs(w, fuel, e.args, t, trace);
    }
  }

  lemma {:induction false} QuietXRunsArgs(w: World, fuel: nat, es: seq<TExpr>, t: TState, trace: seq<Event>)
    requires forall x <- es :: QuietX(x)
    ensures RunArgs(w, fuel, es, t).0.Vals? && RunArgs(w, fuel, es, t).1 == t
    ensures RunArgs(w, fuel, es, WithTrace(t, trace)) == (RunArgs(w, fuel, es, t).0, WithTrace(t, trace))
    decreases fuel, es, 1
  {
    if es != [] {
      QuietXRuns(w, fuel, es[0], t, trace);
      QuietXRunsArgs(w, fuel, es[1..], t, trace);
    }
  }

  /** Quiet code falls through, leaves the trace alone and does not depend on it. */
  ghost predicate Undisturbed(rc: (Result, TState), rc': (Result, TState), t: TState, trace: seq<Event>) {
    rc.0 == Val(Unit) && rc.1.user.trace == t.user.trace && rc' == (Val(Unit), WithTrace(rc.1, trace))
  }

  lemma {:induction false} QuietRun(w: World, fuel: nat, s: TStmt, t: TState, trace: seq<Event>)
    requires QuietT(s)
    ensures Undisturbed(Run(w, fuel, s, t), Run(w, fuel, s, WithTrace(t, trace)), t, trace)
    decreases fuel, s, 1
  {
    hide RunE, RunAll, QuietX, QuietCode;
    match s
    case Declare(_) =>
    case TEval(e) => QuietXRuns(w, fuel, e, t, trace);
    case TSet(_, e) => QuietXRuns(w, fuel, e, t, trace);
    case DeclareAs(_, e) => QuietXRuns(w, fuel, e, t, trace);
    case SetTemp(_, e) => QuietXRuns(w, fuel, e, t, trace);
    case TIf(c, bind, a, b) =>
      QuietXRuns(w, fuel, c, t, trace);
      var v := RunE(w, fuel, c, t).0.v;
      QuietRuns(w, fuel, a, t.(user := Bound(bind, ValueIn(v), t.user)), trace);
      QuietRuns(w, fuel, b, t, trace);
    case TSwitch(c, prongs, other) =>
      QuietXRuns(w, fuel, c, t, trace);
      var v := RunE(w, fuel, c, t).0.v;
      var p := TTaken(prongs, other, v);
      QuietRuns(w, fuel, p.body, t.(user := Bound(p.bind, Content(v), t.user)), trace);
  }

  lemma {:induction false} QuietRuns(w: World, fuel: nat, ss: seq<TStmt>, t: TState, trace: seq<Event>)
    requires QuietCode(ss)
    ensures Undisturbed(RunAll(w, fuel, ss, t), RunAll(w, fuel, ss, WithTrace(t, trace)), t, trace)
    decreases fuel, ss, 1
  {
    hide Run, QuietT;
    if ss != [] {
      QuietRun(w, fuel, ss[0], t, trace);
      QuietRuns(w, fuel, ss[1..], Run(w, fuel, ss[0], t).1, trace);
    }
  }

  lemma QuietConcat(a: seq<TStmt>, b: seq<TStmt>)
    requires QuietCode(a) && QuietCode(b)
    ensures QuietCode(a + b)
  {
    hide QuietT;
  }

  lemma QuietTails(temp: nat, e: TExpr, cap: Option<string>, h: seq<TStmt>)
    requires QuietX(e) && QuietCode(h)
    ensures QuietCode(CatchCode(temp, e, cap, h)) && QuietCode(OrelseCode(temp, e, h))
    ensures QuietCode(CatchVoidCode(temp, e, cap, h)) && QuietCode(OrelseVoidCode(temp, e, h))
  {
    hide QuietCode;
    QuietOne(SetTemp(temp, PartOf(Payload, temp + 1)));
    QuietOne(SetTemp(temp, PartOf(OptionalValue, temp + 1)));
    QuietOne(SetTemp(temp, TLit(Unit)));
    QuietOne(TEval(TLit(Unit)));
    NoCodeIsQuiet();
    if cap.Some? {
      QuietOne(TSet(cap.value, PartOf(ErrorCode, temp + 1)));
    }
    QuietConcat(CaptureCode(temp, cap), h);
    var c1, c2 := CatchCode(temp, e, cap, h), OrelseCode(temp, e, h);
    QuietTriple(c1[0], c1[1], c1[2]);
    QuietTriple(c2[0], c2[1], c2[2]);
    var v1, v2 := CatchVoidCode(temp, e, cap, h), OrelseVoidCode(temp, e, h);
    QuietPair(v1[0], v1[1]);
    QuietPair(v2[0], v2[1]);
  }

  lemma QuietOne(s: TStmt)
    requires QuietT(s)
    ensures QuietCode([s])
  {
    hide QuietT;
  }

  lemma QuietPair(s: TStmt, u: TStmt)
    requires QuietT(s) && QuietT(u)
    ensures QuietCode([s, u])
  {
    hide QuietT;
  }

  lemma QuietTriple(s: TStmt, u: TStmt, v: TStmt)
    requires QuietT(s) && QuietT(u) && QuietT(v)
    ensures QuietCode([s, u, v])
  {
    hide QuietT;
  }

  /** Quiet expressions lift to quiet code and a quiet rest. */
  lemma {:induction false} QuietLiftsE(e: Expr, k: nat)
    requires QuietE(e)
    ensures QuietCode(LiftE(e, k).code) && QuietX(LiftE(e, k).e)
    decreases e, 1
  {
    hide LiftB, LiftProngs, LiftAll, LiftArgs, QuietB, QuietP, QuietAll, QuietArgs, QuietCode;
    NoCodeIsQuiet();
    match e
    case Lit(_) =>
    case Var(_) =>
    case Op(_, args) => QuietLiftsArgs(args, k);
    case IfE(c, bind, a, b, _) =>
      var l := LiftE(c, k);
      var la := LiftB(a, l.next, l.next + 1);
      var lb := LiftB(b, l.next, la.next);
      QuietLiftsE(c, k);
      QuietLiftsB(a, l.next, l.next + 1);
      QuietLiftsB(b, l.next, la.next);
      QuietPair(Declare(l.next), TIf(l.e, bind, la.code, lb.code));
      QuietConcat(l.code, [Declare(l.next), TIf(l.e, bind, la.code, lb.code)]);
    case SwitchE(c, prongs, other, _) =>
      var l := LiftE(c, k);
      var lp := LiftProngs(prongs, l.next, l.next + 1);
      var lo := LiftB(other, l.next, lp.next);
      QuietLiftsE(c, k);
      QuietLiftsP(prongs, l.next, l.next + 1);
      QuietLiftsB(other, l.next, lp.next);
      QuietPair(Declare(l.next), TSwitch(l.e, lp.prongs, lo.code));
      QuietConcat(l.code, [Declare(l.next), TSwitch(l.e, lp.prongs, lo.code)]);
    case CatchE(x, cap, h) =>
      var l := LiftE(x, k);
      var lh := LiftB(h, l.next, l.next + 2);
      QuietLiftsE(x, k);
      QuietLiftsB(h, l.next, l.next + 2);
      QuietTails(l.next, l.e, cap, lh.code);
      QuietConcat(l.code, CatchCode(l.next, l.e, cap, lh.code));
    case OrelseE(x, alt) =>
      var l := LiftE(x, k);
      var la := LiftB(alt, l.next, l.next + 2);
      QuietLiftsE(x, k);
      QuietLiftsB(alt, l.next, l.next + 2);
      QuietTails(l.next, l.e, None, la.code);
      QuietConcat(l.code, OrelseCode(l.next, l.e, la.code));
    case CatchVoidE(x, cap, b) =>
      var l := LiftE(x, k);
      var lb := LiftAll(b, l.next + 2);
      QuietLiftsE(x, k);
      QuietLiftsAll(b, l.next + 2);
      QuietTails(l.next, l.e, cap, lb.code);
      QuietConcat(l.code, CatchVoidCode(l.next, l.e, cap, lb.code));
    case OrelseVoidE(x, b) =>
      var l := LiftE(x, k);
      var lb := LiftAll(b, l.next + 2);
      QuietLiftsE(x, k);
      QuietLiftsAll(b, l.next + 2);
      QuietTails(l.next, l.e, None, lb.code);
      QuietConcat(l.code, OrelseVoidCode(l.next, l.e, lb.code));
  }

  lemma {:induction false} QuietLiftsArgs(es: seq<Expr>, k: nat)
    requires QuietArgs(es)
    ensures QuietCode(LiftArgs(es, k).code) && forall x <- LiftArgs(es, k).es :: QuietX(x)
    decreases es, 1
  {
    hide LiftE, QuietE, QuietX, QuietCode;
    NoCodeIsQuiet();
    if es != [] {
      var l := LiftE(es[0], k);
      QuietLiftsE(es[0], k);
      QuietLiftsArgs(es[1..], l.next);
      QuietConcat(l.code, LiftArgs(es[1..], l.next).code);
    }
  }

  lemma NoCodeIsQuiet()
    ensures QuietCode([])
  {
  }

  lemma {:induction false} QuietLiftsP(prongs: seq<Prong>, temp: nat, k: nat)
    requires QuietP(prongs)
    ensures forall p <- LiftProngs(prongs, temp, k).prongs :: QuietCode(p.body)
    decreases prongs, 1
  {
    hide LiftB, QuietB, QuietCode;
    if prongs != [] {
      QuietLiftsB(prongs[0].body, temp, k);
      QuietLiftsP(prongs[1..], temp, LiftB(prongs[0].body, temp, k).next);
    }
  }

  lemma {:induction false} QuietLiftsB(b: Branch, temp: nat, k: nat)
    requires QuietB(b)
    ensures QuietCode(LiftB(b, temp, k).code)
    decreases b, 1
  {
    hide LiftE, LiftAll, QuietE, QuietAll, QuietX;
    var l := LiftE(b.tail.e, k);
    QuietLiftsE(b.tail.e, k);
    QuietLiftsAll(b.ss, l.next);
    QuietConcat(l.code, [if ExitsE(b.tail.e) then TEval(l.e) else SetTemp(temp, l.e)]);
    QuietConcat(LiftAll(b.ss, l.next).code, LiftTail(b.tail, temp, k).code);
  }

  lemma {:induction false} QuietLiftsS(s: Stmt, k: nat)
    requires QuietS(s)
    ensures QuietCode(LiftS(s, k).code)
    decreases s, 1
  {
    hide LiftE, LiftAll, QuietE, QuietAll, QuietX;
    match s
    case Eval(e) =>
      QuietLiftsE(e, k);
      QuietConcat(LiftE(e, k).code, [TEval(LiftE(e, k).e)]);
    case Set(x, e, _) =>
      QuietLiftsE(e, k);
      QuietConcat(LiftE(e, k).code, [TSet(x, LiftE(e, k).e)]);
    case IfS(c, a, b) =>
      var l := LiftE(c, k);
      var la := LiftAll(a, l.next);
      QuietLiftsE(c, k);
      QuietLiftsAll(a, l.next);
      QuietLiftsAll(b, la.next);
      QuietConcat(l.code, [TIf(l.e, None, la.code, LiftAll(b, la.next).code)]);
  }

  lemma {:induction false} QuietLiftsAll(ss: seq<Stmt>, k: nat)
    requires QuietAll(ss)
    ensures QuietCode(LiftAll(ss, k).code)
    decreases ss, 1
  {
    hide LiftS, QuietS, QuietCode;
    NoCodeIsQuiet();
    if ss != [] {
      var last := LiftS(ss[|ss| - 1], k);
      QuietLiftsS(ss[|ss| - 1], k);
      QuietLiftsAll(ss[..|ss| - 1], last.next);
      QuietConcat(LiftAll(ss[..|ss| - 1], last.next).code, last.code);
    }
  }

  lemma {:induction false} SilentLiftsE(e: Expr, k: nat)
    requires SilentE(e)
    ensures QuietCode(LiftE(e, k).code)
    decreases e, 1
  {
    hide QuietE, LiftB, LiftProngs, QuietX;
    NoCodeIsQuiet();
    match e
    case Op(_, args) => SilentLiftsArgs(args, k);
    case Call(_, args) => SilentLiftsArgs(args, k);
    case IfE(c, _, _, _, isVoid) => if isVoid { SilentLiftsE(c, k); } else { QuietLiftsE(e, k); }
    case SwitchE(_, _, _, isVoid) => if !isVoid { QuietLiftsE(e, k); }
    case _ => QuietLiftsE(e, k);
  }

  lemma {:induction false} SilentLiftsArgs(es: seq<Expr>, k: nat)
    requires SilentArgs(es)
    ensures QuietCode(LiftArgs(es, k).code)
    decreases es, 1
  {
    hide LiftE, SilentE, QuietCode;
    NoCodeIsQuiet();
    if es != [] {
      var l := LiftE(es[0], k);
      SilentLiftsE(es[0], k);
      SilentLiftsArgs(es[1..], l.next);
      QuietConcat(l.code, LiftArgs(es[1..], l.next).code);
    }
  }
}
