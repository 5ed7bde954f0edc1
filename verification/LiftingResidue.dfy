/** Which control-flow expressions survive lifting: exactly those hidden in a void `if` or `switch` expression. */
module LiftingResidue {
  import opened Options
  import opened ControlExpressions
  import opened Lifting

  // ----- try, catch or orelse anywhere -----

  predicate HasE(e: Expr)
    decreases e, 0
  {
    match e
    case Lit(_) => false
    case Var(_) => false
    case Op(_, args) => exists x <- args :: HasE(x)
    case Call(_, args) => exists x <- args :: HasE(x)
    case IfE(c, _, a, b, _) => HasE(c) || HasB(a) || HasB(b)
    case SwitchE(c, prongs, other, _) => HasE(c) || HasB(other) || exists p <- prongs :: HasB(p.body)
    case TryE(_) => true
    case TryVoidE(_) => true
    case CatchE(_, _, _) => true
    case OrelseE(_, _) => true
    case CatchVoidE(_, _, _) => true
    case OrelseVoidE(_, _) => true
  }

  predicate HasB(b: Branch)
    decreases b, 0
  {
    b.tail.LeaveTry? || (!b.tail.Away? && HasE(b.tail.e)) || exists s <- b.ss :: HasS(s)
  }

  predicate HasS(s: Stmt)
    decreases s, 0
  {
    match s
    case Eval(e) => HasE(e)
    case Set(_, e, _) => HasE(e)
    case Return(e) => HasE(e)
    case ReturnTry(_) => true
    case Go(_) => false
    case IfS(c, a, b) => HasE(c) || (exists x <- a :: HasS(x)) || exists x <- b :: HasS(x)
    case SwitchS(c, arms, other) =>
      HasE(c) || (exists x <- other :: HasS(x)) || exists p <- arms :: exists x <- p.body :: HasS(x)
    case While(_, c, _, step, body) => HasE(c) || (step.Some? && HasE(step.value)) || exists x <- body :: HasS(x)
    case For(_, over, _, _, body) => (exists x <- over :: HasE(x)) || exists x <- body :: HasS(x)
  }

  /** The same, in lifted code. */
  predicate LeftE(e: TExpr)
    decreases e, 0
  {
    match e
    case TOp(_, args) => exists x <- args :: LeftE(x)
    case TCall(_, args) => exists x <- args :: LeftE(x)
    case VoidIf(c, _, a, b) => LeftE(c) || HasB(a) || HasB(b)
    case VoidSwitch(c, prongs, other) => HasE(SwitchE(c, prongs, other, true))
    case _ => false
  }

  predicate LeftS(s: TStmt)
    decreases s, 0
  {
    match s
    case Declare(_) => false
    case TEval(e) => LeftE(e)
    case TSet(_, e) => LeftE(e)
    case DeclareAs(_, e) => LeftE(e)
    case SetTemp(_, e) => LeftE(e)
    case TReturn(e) => LeftE(e)
    case TGo(_) => false
    case TIf(c, _, a, b) => LeftE(c) || LeftAny(a) || LeftAny(b)
    case TSwitch(c, prongs, other) => LeftE(c) || LeftAny(other) || exists p <- prongs :: LeftAny(p.body)
    case TWhile(_, c, _, step, body) => LeftE(c) || (step.Some? && LeftE(step.value)) || LeftAny(body)
    case TFor(_, over, _, _, body) => (exists x <- over :: LeftE(x)) || LeftAny(body)
  }

  predicate LeftAny(ss: seq<TStmt>)
    decreases ss, 0
  {
    exists s <- ss :: LeftS(s)
  }

  // ----- Hidden where the lifter does not look -----

  predicate HiddenE(e: Expr)
    decreases e, 0
  {
    match e
    case Lit(_) => false
    case Var(_) => false
    case Op(_, args) => exists x <- args :: HiddenE(x)
    case Call(_, args) => exists x <- args :: HiddenE(x)
    case IfE(c, _, a, b, isVoid) => HiddenE(c) || (if isVoid then HasB(a) || HasB(b) else HiddenB(a) || HiddenB(b))
    case SwitchE(c, prongs, other, isVoid) =>
      if isVoid then HasE(e) else HiddenE(c) || HiddenB(other) || exists p <- prongs :: HiddenB(p.body)
    case TryE(x) => HiddenE(x)
    case TryVoidE(x) => HiddenE(x)
    case CatchE(x, _, h) => HiddenE(x) || HiddenB(h)
    case OrelseE(x, alt) => HiddenE(x) || HiddenB(alt)
    case CatchVoidE(x, _, b) => HiddenE(x) || exists s <- b :: HiddenS(s)
    case OrelseVoidE(x, b) => HiddenE(x) || exists s <- b :: HiddenS(s)
  }

  predicate HiddenB(b: Branch)
    decreases b, 0
  {
    (!b.tail.Away? && HiddenE(b.tail.e)) || exists s <- b.ss :: HiddenS(s)
  }

  predicate HiddenS(s: Stmt)
    decreases s, 0
  {
    match s
    case Eval(e) => HiddenE(e)
    case Set(_, e, _) => HiddenE(e)
    case Return(e) => HiddenE(e)
    case ReturnTry(e) => HiddenE(e)
    case Go(_) => false
    case IfS(c, a, b) => HiddenE(c) || (exists x <- a :: HiddenS(x)) || exists x <- b :: HiddenS(x)
    case SwitchS(c, arms, other) =>
      HiddenE(c) || (exists x <- other :: HiddenS(x)) || exists p <- arms :: HiddenArm(p)
    case While(_, c, _, step, body) =>
      HiddenE(c) || (step.Some? && HiddenE(step.value)) || exists x <- body :: HiddenS(x)
    case For(_, over, _, _, body) => (exists x <- over :: HiddenE(x)) || exists x <- body :: HiddenS(x)
  }

  predicate HiddenArm(p: Arm)
    decreases p, 0
  {
    exists x <- p.body :: HiddenS(x)
  }

  lemma LeftConcat(a: seq<TStmt>, b: seq<TStmt>)
    ensures LeftAny(a + b) <==> LeftAny(a) || LeftAny(b)
  {
    hide LeftS;
    forall s ensures s in a + b <==> s in a || s in b {
    }
  }

  lemma LeftOne(s: TStmt)
    ensures LeftAny([s]) <==> LeftS(s)
  {
    hide LeftS;
    assert s in [s];
  }

  lemma {:induction false} ResidueE(e: Expr, k: nat)
    ensures LeftAny(LiftE(e, k).code) || LeftE(LiftE(e, k).e) <==> HiddenE(e)
    decreases e, 1
  {
    hide LeftAny, HiddenB, HiddenS, HasB, LiftB, LiftAll, LiftArgs;
    LeftNone();
    match e
    case Lit(_) =>
    case Var(_) =>
    case Op(_, args) => ResidueArgs(args, k);
    case Call(_, args) => ResidueArgs(args, k);
    case IfE(c, _, a, b, isVoid) =>
      ResidueIf(e, k);
    case SwitchE(c, prongs, other, isVoid) =>
      if !isVoid {
        ResidueSwitch(e, k);
      }
    case TryE(x) =>
      ResidueE(x, k);
      LeftTry(LiftE(x, k));
    case TryVoidE(x) =>
      ResidueE(x, k);
      LeftTryVoid(LiftE(x, k));
    case CatchE(x, cap, h) =>
      var l := LiftE(x, k);
      ResidueE(x, k);
      ResidueB(h, l.next, l.next + 2);
      LeftCatch(l, cap, LiftB(h, l.next, l.next + 2).code);
    case OrelseE(x, alt) =>
      var l := LiftE(x, k);
      ResidueE(x, k);
      ResidueB(alt, l.next, l.next + 2);
      LeftOrelse(l, LiftB(alt, l.next, l.next + 2).code);
    case CatchVoidE(x, cap, b) =>
      var l := LiftE(x, k);
      ResidueE(x, k);
      ResidueAll(b, l.next + 2);
      LeftCatchVoid(l, cap, LiftAll(b, l.next + 2).code);
    case OrelseVoidE(x, b) =>
      var l := LiftE(x, k);
      ResidueE(x, k);
      ResidueAll(b, l.next + 2);
      LeftOrelseVoid(l, LiftAll(b, l.next + 2).code);
  }

  lemma LeftNone()
    ensures !LeftAny([])
  {
  }

  lemma LeftPair(a: seq<TStmt>, s: TStmt, u: TStmt)
    ensures LeftAny(a + [s, u]) <==> LeftAny(a) || LeftS(s) || LeftS(u)
  {
    hide LeftS, LeftAny;
    assert [s, u] == [s] + [u];
    LeftConcat(a, [s, u]);
    LeftConcat([s], [u]);
    LeftOne(s);
    LeftOne(u);
  }

  lemma LeftTriple(a: seq<TStmt>, s: TStmt, u: TStmt, v: TStmt)
    ensures LeftAny(a + [s, u, v]) <==> LeftAny(a) || LeftS(s) || LeftS(u) || LeftS(v)
  {
    hide LeftS, LeftAny;
    assert a + [s, u, v] == (a + [s, u]) + [v];
    LeftConcat(a + [s, u], [v]);
    LeftPair(a, s, u);
    LeftOne(v);
  }

  lemma LeftTry(l: LiftedE)
    ensures LeftAny(l.code + TryCode(l.next, l.e)) <==> LeftAny(l.code) || LeftE(l.e)
  {
    hide LeftAny;
    var c := TryCode(l.next, l.e);
    assert l.code + c == (l.code + [c[0], c[1], c[2]]) + [c[3]];
    LeftConcat(l.code + [c[0], c[1], c[2]], [c[3]]);
    LeftTriple(l.code, c[0], c[1], c[2]);
    LeftOne(c[3]);
    LeftOne(TReturn(PartOf(AsError, l.next + 1)));
    LeftNone();
  }

  lemma LeftTryVoid(l: LiftedE)
    ensures LeftAny(l.code + TryVoidCode(l.next, l.e)) <==> LeftAny(l.code) || LeftE(l.e)
  {
    hide LeftAny;
    var c := TryVoidCode(l.next, l.e);
    LeftPair(l.code, c[0], c[1]);
    LeftOne(TReturn(PartOf(AsError, l.next + 1)));
    LeftNone();
  }

  lemma LeftReturnTry(l: LiftedE)
    ensures LeftAny(l.code + ReturnTryCode(l.next, l.e)) <==> LeftAny(l.code) || LeftE(l.e)
  {
    hide LeftAny;
    var c := ReturnTryCode(l.next, l.e);
    assert l.code + c == (l.code + [c[0], c[1], c[2]]) + [c[3]];
    LeftConcat(l.code + [c[0], c[1], c[2]], [c[3]]);
    LeftTriple(l.code, c[0], c[1], c[2]);
    LeftOne(c[3]);
    LeftOne(SetTemp(l.next, PartOf(AsError, l.next + 1)));
    LeftOne(SetTemp(l.next, PartOf(AsOk, l.next + 1)));
  }

  lemma LeftCatch(l: LiftedE, cap: Option<string>, h: seq<TStmt>)
    ensures LeftAny(l.code + CatchCode(l.next, l.e, cap, h)) <==> LeftAny(l.code) || LeftE(l.e) || LeftAny(h)
  {
    hide LeftAny;
    var c := CatchCode(l.next, l.e, cap, h);
    LeftTriple(l.code, c[0], c[1], c[2]);
    LeftConcat(CaptureCode(l.next, cap), h);
    LeftNone();
    if cap.Some? {
      LeftOne(TSet(cap.value, PartOf(ErrorCode, l.next + 1)));
    }
    LeftOne(SetTemp(l.next, PartOf(Payload, l.next + 1)));
  }

  lemma LeftOrelse(l: LiftedE, alt: seq<TStmt>)
    ensures LeftAny(l.code + OrelseCode(l.next, l.e, alt)) <==> LeftAny(l.code) || LeftE(l.e) || LeftAny(alt)
  {
    hide LeftAny;
    var c := OrelseCode(l.next, l.e, alt);
    LeftTriple(l.code, c[0], c[1], c[2]);
    LeftOne(SetTemp(l.next, PartOf(OptionalValue, l.next + 1)));
  }

  lemma LeftCatchVoid(l: LiftedE, cap: Option<string>, h: seq<TStmt>)
    ensures LeftAny(l.code + CatchVoidCode(l.next, l.e, cap, h)) <==> LeftAny(l.code) || LeftE(l.e) || LeftAny(h)
  {
    hide LeftAny;
    var c := CatchVoidCode(l.next, l.e, cap, h);
    LeftPair(l.code, c[0], c[1]);
    LeftConcat(CaptureCode(l.next, cap), h);
    LeftNone();
    if cap.Some? {
      LeftOne(TSet(cap.value, PartOf(ErrorCode, l.next + 1)));
    }
    LeftOne(TEval(TLit(Unit)));
  }

  lemma LeftOrelseVoid(l: LiftedE, alt: seq<TStmt>)
    ensures LeftAny(l.code + OrelseVoidCode(l.next, l.e, alt)) <==> LeftAny(l.code) || LeftE(l.e) || LeftAny(alt)
  {
    hide LeftAny;
    var c := OrelseVoidCode(l.next, l.e, alt);
    LeftPair(l.code, c[0], c[1]);
    LeftOne(SetTemp(l.next, TLit(Unit)));
  }

  lemma {:induction false} ResidueArgs(es: seq<Expr>, k: nat)
    ensures LeftAny(LiftArgs(es, k).code) || (exists x <- LiftArgs(es, k).es :: LeftE(x)) <==>
      exists x <- es :: HiddenE(x)
    decreases es, 1
  {
    hide LeftAny, LeftE, HiddenE, LiftE;
    LeftNone();
    if es != [] {
      var l := LiftE(es[0], k);
      var rest := LiftArgs(es[1..], l.next);
      ResidueE(es[0], k);
      ResidueArgs(es[1..], l.next);
      LeftConcat(l.code, rest.code);
      assert forall x :: x in es <==> x == es[0] || x in es[1..];
      assert forall x :: x in [l.e] + rest.es <==> x == l.e || x in rest.es;
    }
  }

  lemma {:induction false} ResidueIf(e: Expr, k: nat)
    requires e.IfE?
    ensures LeftAny(LiftE(e, k).code) || LeftE(LiftE(e, k).e) <==> HiddenE(e)
    decreases e, 0
  {
    hide LeftAny, HiddenB, HasB, LiftB;
    ResidueE(e.cond, k);
    if !e.isVoid {
      var l := LiftE(e.cond, k);
      var la := LiftB(e.thenB, l.next, l.next + 1);
      var lb := LiftB(e.elseB, l.next, la.next);
      ResidueB(e.thenB, l.next, l.next + 1);
      ResidueB(e.elseB, l.next, la.next);
      LeftPair(l.code, Declare(l.next), TIf(l.e, e.bind, la.code, lb.code));
    }
  }

  lemma {:induction false} ResidueSwitch(e: Expr, k: nat)
    requires e.SwitchE? && !e.isVoid
    ensures LeftAny(LiftE(e, k).code) || LeftE(LiftE(e, k).e) <==> HiddenE(e)
    decreases e, 0
  {
    hide LeftAny, HiddenB, LiftB;
    var l := LiftE(e.scrutinee, k);
    var lp := LiftProngs(e.prongs, l.next, l.next + 1);
    var lo := LiftB(e.other, l.next, lp.next);
    ResidueE(e.scrutinee, k);
    ResidueProngs(e.prongs, l.next, l.next + 1);
    ResidueB(e.other, l.next, lp.next);
    LeftPair(l.code, Declare(l.next), TSwitch(l.e, lp.prongs, lo.code));
  }

  lemma {:induction false} ResidueProngs(prongs: seq<Prong>, temp: nat, k: nat)
    ensures (exists p <- LiftProngs(prongs, temp, k).prongs :: LeftAny(p.body)) <==>
      exists p <- prongs :: HiddenB(p.body)
    decreases prongs, 1
  {
    hide LeftAny, HiddenB, LiftB;
    if prongs != [] {
      var l := LiftB(prongs[0].body, temp, k);
      var rest := LiftProngs(prongs[1..], temp, l.next);
      ResidueB(prongs[0].body, temp, k);
      ResidueProngs(prongs[1..], temp, l.next);
      assert forall p :: p in prongs <==> p == prongs[0] || p in prongs[1..];
      var all := LiftProngs(prongs, temp, k).prongs;
      assert forall p :: p in all <==> p == TProng(prongs[0].items, prongs[0].bind, l.code) || p in rest.prongs;
    }
  }

  lemma {:induction false} ResidueB(b: Branch, temp: nat, k: nat)
    ensures LeftAny(LiftB(b, temp, k).code) <==> HiddenB(b)
    decreases b, 1
  {
    hide LeftAny, HiddenE, HiddenS, LiftE, LiftAll, LeftE, LiftTail;
    var last := LiftTail(b.tail, temp, k);
    ResidueTail(b.tail, temp, k);
    ResidueAll(b.ss, last.next);
    LeftConcat(LiftAll(b.ss, last.next).code, last.code);
  }

  lemma {:induction false} ResidueTail(tail: Tail, temp: nat, k: nat)
    ensures LeftAny(LiftTail(tail, temp, k).code) <==> !tail.Away? && HiddenE(tail.e)
    decreases tail, 1
  {
    hide LeftAny, HiddenE, LiftE, LeftE;
    match tail
    case Yield(e) =>
      var l := LiftE(e, k);
      ResidueE(e, k);
      var u := if ExitsE(e) then TEval(l.e) else SetTemp(temp, l.e);
      LeftConcat(l.code, [u]);
      LeftOne(u);
    case Leave(e) =>
      var l := LiftE(e, k);
      ResidueE(e, k);
      LeftConcat(l.code, [TReturn(l.e)]);
      LeftOne(TReturn(l.e));
    case LeaveTry(e) =>
      ResidueE(e, k);
      LeftReturnTry(LiftE(e, k));
    case Away(j) => LeftOne(TGo(j));
  }

  lemma {:induction false} ResidueS(s: Stmt, k: nat)
    ensures LeftAny(LiftS(s, k).code) <==> HiddenS(s)
    decreases s, 1
  {
    hide LeftAny, HiddenE, LiftE, LiftAll, LeftE;
    match s
    case Eval(e) =>
      ResidueE(e, k);
      LeftConcat(LiftE(e, k).code, [TEval(LiftE(e, k).e)]);
      LeftOne(TEval(LiftE(e, k).e));
    case Set(x, e, _) =>
      ResidueE(e, k);
      LeftConcat(LiftE(e, k).code, [TSet(x, LiftE(e, k).e)]);
      LeftOne(TSet(x, LiftE(e, k).e));
    case Return(e) =>
      ResidueE(e, k);
      LeftConcat(LiftE(e, k).code, [TReturn(LiftE(e, k).e)]);
      LeftOne(TReturn(LiftE(e, k).e));
    case ReturnTry(e) =>
      ResidueE(e, k);
      LeftReturnTry(LiftE(e, k));
    case Go(j) => LeftOne(TGo(j));
    case IfS(c, a, b) =>
      var l := LiftE(c, k);
      var la := LiftAll(a, l.next);
      var lb := LiftAll(b, la.next);
      ResidueE(c, k);
      ResidueAll(a, l.next);
      ResidueAll(b, la.next);
      LeftConcat(l.code, [TIf(l.e, None, la.code, lb.code)]);
      LeftOne(TIf(l.e, None, la.code, lb.code));
    case SwitchS(_, _, _) => ResidueSwitchS(s, k);
    case While(_, _, _, _, _) => ResidueWhile(s, k);
    case For(_, _, _, _, _) => ResidueFor(s, k);
  }

  lemma {:induction false} ResidueSwitchS(s: Stmt, k: nat)
    requires s.SwitchS?
    ensures LeftAny(LiftS(s, k).code) <==> HiddenS(s)
    decreases s, 0
  {
    hide LeftAny, HiddenE, LiftE, LiftAll, LeftE, LiftArms;
    var l := LiftE(s.scrutinee, k);
    var la := LiftArms(s.arms, l.next);
    var lo := LiftAll(s.other, la.next);
    var sw := TSwitch(l.e, la.prongs, lo.code);
    ResidueE(s.scrutinee, k);
    ResidueArms(s.arms, l.next);
    ResidueAll(s.other, la.next);
    LeftConcat(l.code, [sw]);
    LeftOne(sw);
  }

  lemma {:induction false} ResidueArm(p: Arm, k: nat)
    ensures LeftAny(LiftAll(p.body, k).code) <==> HiddenArm(p)
    decreases p, 1
  {
    hide LeftAny, HiddenS, LiftAll;
    ResidueAll(p.body, k);
  }

  lemma {:induction false} ResidueArms(arms: seq<Arm>, k: nat)
    ensures (exists p <- LiftArms(arms, k).prongs :: LeftAny(p.body)) <==> exists p <- arms :: HiddenArm(p)
    decreases arms, 1
  {
    hide LeftAny, HiddenArm, LiftAll;
    if arms != [] {
      var l := LiftAll(arms[0].body, k);
      var rest := LiftArms(arms[1..], l.next);
      ResidueArm(arms[0], k);
      ResidueArms(arms[1..], l.next);
      assert forall p :: p in arms <==> p == arms[0] || p in arms[1..];
      var all := LiftArms(arms, k).prongs;
      assert forall p :: p in all <==> p == TProng(arms[0].items, arms[0].bind, l.code) || p in rest.prongs;
    }
  }

  lemma {:induction false} ResidueWhile(s: Stmt, k: nat)
    requires s.While?
    ensures LeftAny(LiftS(s, k).code) <==> HiddenS(s)
    decreases s, 0
  {
    hide LeftAny, HiddenE, LiftE, LiftAll, LeftE;
    var l := LiftE(s.cond, k);
    var lb := LiftAll(s.body, l.next);
    var ls := LiftStep(s.step, lb.next);
    var loop := TWhile(s.loop, l.e, s.bind, ls.e, lb.code);
    LeftNone();
    ResidueE(s.cond, k);
    ResidueAll(s.body, l.next);
    if s.step.Some? {
      ResidueE(s.step.value, lb.next);
    }
    LeftConcat(l.code, ls.code);
    LeftConcat(l.code + ls.code, [loop]);
    LeftOne(loop);
  }

  lemma {:induction false} ResidueFor(s: Stmt, k: nat)
    requires s.For?
    ensures LeftAny(LiftS(s, k).code) <==> HiddenS(s)
    decreases s, 0
  {
    hide LeftAny, HiddenE, LiftArgs, LiftAll, LeftE;
    var l := LiftArgs(s.over, k);
    var lb := LiftAll(s.body, l.next);
    var loop := TFor(s.loop, l.es, s.item, s.index, lb.code);
    ResidueArgs(s.over, k);
    ResidueAll(s.body, l.next);
    LeftConcat(l.code, [loop]);
    LeftOne(loop);
  }

  /** Exactly what is hidden in void `if` and `switch` expressions is left over. */
  lemma {:induction false} ResidueAll(ss: seq<Stmt>, k: nat)
    ensures LeftAny(LiftAll(ss, k).code) <==> exists s <- ss :: HiddenS(s)
    decreases ss, 1
  {
    hide LeftAny, HiddenS, LiftS;
    LeftNone();
    if ss != [] {
      var init, x := ss[..|ss| - 1], ss[|ss| - 1];
      var last := LiftS(x, k);
      ResidueS(x, k);
      ResidueAll(init, last.next);
      LeftConcat(LiftAll(init, last.next).code, last.code);
      assert ss == init + [x];
      assert forall s :: s in ss <==> s == x || s in init;
    }
  }

  /** A `try` in a branch of a void `if` expression stays where it is. */
  lemma VoidIfKeepsTry(c: Expr, x: Expr, k: nat)
    ensures var b := Branch([], Yield(TryE(x)));
            LeftE(LiftE(IfE(c, None, b, b, true), k).e)
  {
  }

  /** A `try` in the operand, in a prong or in the else prong of a void `switch` expression stays where it is. */
  lemma VoidSwitchKeepsTry(
    c: Expr, items: seq<Value>, bind: Option<string>, prong: Branch, other: Branch, x: Expr, k: nat)
    requires c == TryE(x) || prong.tail == Yield(TryE(x)) || other.tail == Yield(TryE(x))
    ensures var e := SwitchE(c, [Prong(items, bind, prong)], other, true);
            LiftE(e, k).code == [] && LeftE(LiftE(e, k).e)
  {
    var p := Prong(items, bind, prong);
    assert p in [p];
    assert HasE(SwitchE(c, [p], other, true));
  }

  // ----- Without void expressions nothing is left -----

  predicate VoidFreeE(e: Expr)
    decreases e, 0
  {
    match e
    case Lit(_) => true
    case Var(_) => true
    case Op(_, args) => forall x <- args :: VoidFreeE(x)
    case Call(_, args) => forall x <- args :: VoidFreeE(x)
    case IfE(c, _, a, b, isVoid) => !isVoid && VoidFreeE(c) && VoidFreeB(a) && VoidFreeB(b)
    case SwitchE(c, prongs, other, isVoid) =>
      !isVoid && VoidFreeE(c) && VoidFreeB(other) && forall p <- prongs :: VoidFreeB(p.body)
    case TryE(x) => VoidFreeE(x)
    case TryVoidE(x) => VoidFreeE(x)
    case CatchE(x, _, h) => VoidFreeE(x) && VoidFreeB(h)
    case OrelseE(x, alt) => VoidFreeE(x) && VoidFreeB(alt)
    case CatchVoidE(x, _, b) => VoidFreeE(x) && forall s <- b :: VoidFreeS(s)
    case OrelseVoidE(x, b) => VoidFreeE(x) && forall s <- b :: VoidFreeS(s)
  }

  predicate VoidFreeB(b: Branch)
    decreases b, 0
  {
    (b.tail.Away? || VoidFreeE(b.tail.e)) && forall s <- b.ss :: VoidFreeS(s)
  }

  predicate VoidFreeS(s: Stmt)
    decreases s, 0
  {
    match s
    case Eval(e) => VoidFreeE(e)
    case Set(_, e, _) => VoidFreeE(e)
    case Return(e) => VoidFreeE(e)
    case ReturnTry(e) => VoidFreeE(e)
    case Go(_) => true
    case IfS(c, a, b) => VoidFreeE(c) && (forall x <- a :: VoidFreeS(x)) && forall x <- b :: VoidFreeS(x)
    case SwitchS(c, arms, other) =>
      VoidFreeE(c) && (forall p <- arms :: forall x <- p.body :: VoidFreeS(x)) && forall x <- other :: VoidFreeS(x)
    case While(_, c, _, step, body) =>
      VoidFreeE(c) && (step.Some? ==> VoidFreeE(step.value)) && forall x <- body :: VoidFreeS(x)
    case For(_, over, _, _, body) => (forall x <- over :: VoidFreeE(x)) && forall x <- body :: VoidFreeS(x)
  }

  lemma {:induction false} NothingHiddenE(e: Expr)
    requires VoidFreeE(e)
    ensures !HiddenE(e)
    decreases e, 1
  {
    match e
    case Lit(_) =>
    case Var(_) =>
    case Op(_, args) => forall x | x in args ensures !HiddenE(x) { NothingHiddenE(x); }
    case Call(_, args) => forall x | x in args ensures !HiddenE(x) { NothingHiddenE(x); }
    case IfE(c, _, a, b, _) =>
      NothingHiddenE(c);
      NothingHiddenB(a);
      NothingHiddenB(b);
    case SwitchE(c, prongs, other, _) =>
      NothingHiddenE(c);
      NothingHiddenB(other);
      forall p | p in prongs ensures !HiddenB(p.body) { NothingHiddenB(p.body); }
    case TryE(x) => NothingHiddenE(x);
    case TryVoidE(x) => NothingHiddenE(x);
    case CatchE(x, _, h) =>
      NothingHiddenE(x);
      NothingHiddenB(h);
    case OrelseE(x, alt) =>
      NothingHiddenE(x);
      NothingHiddenB(alt);
    case CatchVoidE(x, _, b) =>
      NothingHiddenE(x);
      forall s | s in b ensures !HiddenS(s) { NothingHiddenS(s); }
    case OrelseVoidE(x, b) =>
      NothingHiddenE(x);
      forall s | s in b ensures !HiddenS(s) { NothingHiddenS(s); }
  }

  lemma {:induction false} NothingHiddenB(b: Branch)
    requires VoidFreeB(b)
    ensures !HiddenB(b)
    decreases b, 1
  {
    if !b.tail.Away? {
      NothingHiddenE(b.tail.e);
    }
    forall s | s in b.ss ensures !HiddenS(s) {
      NothingHiddenS(s);
    }
  }

  lemma {:induction false} NothingHiddenS(s: Stmt)
    requires VoidFreeS(s)
    ensures !HiddenS(s)
    decreases s, 1
  {
    match s
    case Eval(e) => NothingHiddenE(e);
    case Set(_, e, _) => NothingHiddenE(e);
    case Return(e) => NothingHiddenE(e);
    case ReturnTry(e) => NothingHiddenE(e);
    case Go(_) =>
    case IfS(c, a, b) =>
      NothingHiddenE(c);
      forall x | x in a ensures !HiddenS(x) { NothingHiddenS(x); }
      forall x | x in b ensures !HiddenS(x) { NothingHiddenS(x); }
    case SwitchS(c, arms, other) =>
      NothingHiddenE(c);
      forall x | x in other ensures !HiddenS(x) { NothingHiddenS(x); }
      forall p | p in arms ensures !HiddenArm(p) {
        forall x | x in p.body ensures !HiddenS(x) { NothingHiddenS(x); }
      }
    case While(_, c, _, step, body) =>
      NothingHiddenE(c);
      if step.Some? {
        NothingHiddenE(step.value);
      }
      forall x | x in body ensures !HiddenS(x) { NothingHiddenS(x); }
    case For(_, over, _, _, body) =>
      forall x | x in over ensures !HiddenE(x) { NothingHiddenE(x); }
      forall x | x in body ensures !HiddenS(x) { NothingHiddenS(x); }
  }

  /** Without void `if` and `switch` expressions, no try, catch or orelse remains anywhere. */
  lemma NothingLeft(ss: seq<Stmt>, k: nat)
    requires forall s <- ss :: VoidFreeS(s)
    ensures !LeftAny(LiftAll(ss, k).code)
  {
    hide LeftAny, HiddenS, LiftAll;
    ResidueAll(ss, k);
    forall s | s in ss ensures !HiddenS(s) {
      NothingHiddenS(s);
    }
  }
}
