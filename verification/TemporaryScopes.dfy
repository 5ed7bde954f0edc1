/**
 Where the lifter's temporaries are declared: in C a declaration is seen from its place to the end of its block, and
 one inside a branch hides an outer one of the same name.
 */
module TemporaryScopes {
  import opened Options
  import opened ControlExpressions
  import opened Lifting

  // ----- Lexical scopes -----

  function TempsE(e: TExpr): set<nat>
    decreases e, 0
  {
    match e
    case TLit(_) => {}
    case TVar(_) => {}
    case Temp(k) => {k}
    case PartOf(_, k) => {k}
    case TOp(_, args) => TempsArgs(args)
    case TCall(_, args) => TempsArgs(args)
    case VoidIf(c, _, _, _) => TempsE(c)
    case VoidSwitch(_, _, _) => {}
  }

  function TempsArgs(es: seq<TExpr>): set<nat>
    decreases es, 0
  {
    if es == [] then {} else TempsE(es[0]) + TempsArgs(es[1..])
  }

  /** What a statement adds to the scope of the block it stands in. */
  function Adds(s: TStmt): set<nat> {
    match s
    case Declare(k) => {k}
    case DeclareAs(k, _) => {k}
    case _ => {}
  }

  function AddsAll(ss: seq<TStmt>): set<nat> {
    if ss == [] then {} else Adds(ss[0]) + AddsAll(ss[1..])
  }

  /** Only visible temporaries are read or assigned, and no declaration hides a visible one. */
  predicate ScopedS(s: TStmt, vis: set<nat>)
    decreases s, 0
  {
    match s
    case Declare(k) => k !in vis
    case DeclareAs(k, e) => k !in vis && TempsE(e) <= vis
    case TEval(e) => TempsE(e) <= vis
    case TSet(_, e) => TempsE(e) <= vis
    case SetTemp(k, e) => k in vis && TempsE(e) <= vis
    case TReturn(e) => TempsE(e) <= vis
    case TGo(_) => true
    case TIf(c, _, a, b) => TempsE(c) <= vis && Scoped(a, vis) && Scoped(b, vis)
    case TSwitch(c, prongs, other) => TempsE(c) <= vis && ScopedProngs(prongs, vis) && Scoped(other, vis)
    case TWhile(_, c, _, step, body) =>
      TempsE(c) <= vis && (step.Some? ==> TempsE(step.value) <= vis) && Scoped(body, vis)
    case TFor(_, over, _, _, body) => TempsArgs(over) <= vis && Scoped(body, vis)
  }

  predicate ScopedProngs(prongs: seq<TProng>, vis: set<nat>)
    decreases prongs, 0
  {
    prongs == [] || (Scoped(prongs[0].body, vis) && ScopedProngs(prongs[1..], vis))
  }

  predicate Scoped(ss: seq<TStmt>, vis: set<nat>)
    decreases ss, 0
  {
    ss == [] || (ScopedS(ss[0], vis) && Scoped(ss[1..], vis + Adds(ss[0])))
  }

  /** Every declaration in the code, at whatever depth. */
  function DeclaredS(s: TStmt): seq<nat>
    decreases s, 0
  {
    match s
    case Declare(k) => [k]
    case DeclareAs(k, _) => [k]
    case TIf(_, _, a, b) => Declared(a) + Declared(b)
    case TSwitch(_, prongs, other) => DeclaredProngs(prongs) + Declared(other)
    case TWhile(_, _, _, _, body) => Declared(body)
    case TFor(_, _, _, _, body) => Declared(body)
    case _ => []
  }

  function DeclaredProngs(prongs: seq<TProng>): seq<nat>
    decreases prongs, 0
  {
    if prongs == [] then [] else Declared(prongs[0].body) + DeclaredProngs(prongs[1..])
  }

  function Declared(ss: seq<TStmt>): seq<nat>
    decreases ss, 0
  {
    if ss == [] then [] else DeclaredS(ss[0]) + Declared(ss[1..])
  }

  /** No temporary twice, and all of them from this range. */
  ghost predicate Once(ds: seq<nat>, lo: nat, hi: nat) {
    (forall d <- ds :: lo <= d < hi) && forall i, j :: 0 <= i < j < |ds| ==> ds[i] != ds[j]
  }

  ghost predicate Avoids(vis: set<nat>, lo: nat, hi: nat) {
    forall d <- vis :: d < lo || d >= hi
  }

  lemma OnceConcat(a: seq<nat>, lo: nat, hi: nat, b: seq<nat>, lo': nat, hi': nat, all: nat, end: nat)
    requires Once(a, lo, hi) && Once(b, lo', hi') && (hi <= lo' || hi' <= lo)
    requires all <= lo && all <= lo' && hi <= end && hi' <= end
    ensures Once(a + b, all, end)
  {
    var c := a + b;
    forall i, j | 0 <= i < j < |c| ensures c[i] != c[j] {
      if i < |a| <= j {
        assert c[i] in a && c[j] in b;
      }
    }
  }

  lemma OnceMore(a: seq<nat>, lo: nat, hi: nat, all: nat, end: nat)
    requires Once(a, lo, hi) && all <= lo && hi <= end
    ensures Once(a, all, end)
  {
  }

  lemma {:induction false} ScopedConcat(a: seq<TStmt>, b: seq<TStmt>, vis: set<nat>)
    ensures Scoped(a + b, vis) <==> Scoped(a, vis) && Scoped(b, vis + AddsAll(a))
    ensures AddsAll(a + b) == AddsAll(a) + AddsAll(b)
    ensures Declared(a + b) == Declared(a) + Declared(b)
    decreases a
  {
    hide ScopedS, DeclaredS, Adds;
    if a == [] {
      assert a + b == b && vis + {} == vis;
    } else {
      assert (a + b)[1..] == a[1..] + b;
      ScopedConcat(a[1..], b, vis + Adds(a[0]));
      assert vis + Adds(a[0]) + AddsAll(a[1..]) == vis + AddsAll(a);
      assert Declared(a + b) == DeclaredS(a[0]) + (Declared(a[1..]) + Declared(b));
    }
  }

  lemma {:induction false} AddsDeclared(ss: seq<TStmt>)
    ensures forall d <- AddsAll(ss) :: d in Declared(ss)
    decreases ss
  {
    if ss != [] {
      AddsDeclared(ss[1..]);
      assert Declared(ss) == DeclaredS(ss[0]) + Declared(ss[1..]);
    }
  }

  lemma One(s: TStmt, vis: set<nat>)
    ensures Scoped([s], vis) <==> ScopedS(s, vis)
    ensures AddsAll([s]) == Adds(s) && Declared([s]) == DeclaredS(s)
  {
    hide ScopedS, DeclaredS, Adds;
    assert [s][1..] == [];
  }

  lemma Nothing(vis: set<nat>)
    ensures Scoped([], vis) && AddsAll([]) == {} && Declared([]) == []
  {
  }

  // ----- The void orelse -----

  /** No `orelse` without value, except in branches of a void `if` or `switch` expression, which are not lifted. */
  predicate NoVoidOrelseE(e: Expr)
    decreases e, 0
  {
    match e
    case Lit(_) => true
    case Var(_) => true
    case Op(_, args) => NoVoidOrelseArgs(args)
    case Call(_, args) => NoVoidOrelseArgs(args)
    case IfE(c, _, a, b, isVoid) => NoVoidOrelseE(c) && (isVoid || (NoVoidOrelseB(a) && NoVoidOrelseB(b)))
    case SwitchE(c, prongs, other, isVoid) =>
      isVoid || (NoVoidOrelseE(c) && NoVoidOrelseP(prongs) && NoVoidOrelseB(other))
    case TryE(x) => NoVoidOrelseE(x)
    case TryVoidE(x) => NoVoidOrelseE(x)
    case CatchE(x, _, h) => NoVoidOrelseE(x) && NoVoidOrelseB(h)
    case OrelseE(x, alt) => NoVoidOrelseE(x) && NoVoidOrelseB(alt)
    case CatchVoidE(x, _, b) => NoVoidOrelseE(x) && NoVoidOrelse(b)
    case OrelseVoidE(_, _) => false
  }

  predicate NoVoidOrelseArgs(es: seq<Expr>)
    decreases es, 0
  {
    es == [] || (NoVoidOrelseE(es[0]) && NoVoidOrelseArgs(es[1..]))
  }

  predicate NoVoidOrelseP(prongs: seq<Prong>)
    decreases prongs, 0
  {
    prongs == [] || (NoVoidOrelseB(prongs[0].body) && NoVoidOrelseP(prongs[1..]))
  }

  predicate NoVoidOrelseB(b: Branch)
    decreases b, 0
  {
    NoVoidOrelse(b.ss) && (!b.tail.Away? ==> NoVoidOrelseE(b.tail.e))
  }

  predicate NoVoidOrelseS(s: Stmt)
    decreases s, 0
  {
    match s
    case Eval(e) => NoVoidOrelseE(e)
    case Set(_, e, _) => NoVoidOrelseE(e)
    case Return(e) => NoVoidOrelseE(e)
    case ReturnTry(e) => NoVoidOrelseE(e)
    case Go(_) => true
    case IfS(c, a, b) => NoVoidOrelseE(c) && NoVoidOrelse(a) && NoVoidOrelse(b)
    case SwitchS(c, arms, other) => NoVoidOrelseE(c) && NoVoidOrelseArms(arms) && NoVoidOrelse(other)
    case While(_, c, _, step, body) =>
      NoVoidOrelseE(c) && (step.Some? ==> NoVoidOrelseE(step.value)) && NoVoidOrelse(body)
    case For(_, over, _, _, body) => NoVoidOrelseArgs(over) && NoVoidOrelse(body)
  }

  predicate NoVoidOrelseArms(arms: seq<Arm>)
    decreases arms, 0
  {
    arms == [] || (NoVoidOrelse(arms[0].body) && NoVoidOrelseArms(arms[1..]))
  }

  predicate NoVoidOrelse(ss: seq<Stmt>)
    decreases ss, 0
  {
    ss == [] || (NoVoidOrelseS(ss[|ss| - 1]) && NoVoidOrelse(ss[..|ss| - 1]))
  }

  // ----- The code of each form -----

  /** Declared once, and scoped exactly if nothing is left undeclared. */
  ghost predicate Fits(code: seq<TStmt>, lo: nat, hi: nat, vis: set<nat>, good: bool) {
    Once(Declared(code), lo, hi) && (Scoped(code, vis) <==> good)
  }

  ghost predicate FitsE(e: Expr, k: nat, vis: set<nat>) {
    var l := LiftE(e, k);
    Fits(l.code, k, l.next, vis, NoVoidOrelseE(e)) && TempsE(l.e) <= AddsAll(l.code)
  }

  /** Two pieces of code, the second of which sees what the first declares. */
  lemma FitsConcat(
    a: seq<TStmt>, lo: nat, hi: nat, good: bool, b: seq<TStmt>, lo': nat, hi': nat, good': bool,
    all: nat, end: nat, vis: set<nat>)
    requires Fits(a, lo, hi, vis, good) && Fits(b, lo', hi', vis + AddsAll(a), good')
    requires (hi <= lo' || hi' <= lo) && all <= lo && all <= lo' && hi <= end && hi' <= end
    ensures Fits(a + b, all, end, vis, good && good')
  {
    hide Once, Scoped, Declared;
    ScopedConcat(a, b, vis);
    OnceConcat(Declared(a), lo, hi, Declared(b), lo', hi', all, end);
  }

  /** What a piece of code declares is out of the way of the code after it. */
  lemma StillAvoids(code: seq<TStmt>, lo: nat, hi: nat, vis: set<nat>, good: bool, lo': nat, hi': nat)
    requires Fits(code, lo, hi, vis, good) && Avoids(vis, lo', hi') && (hi <= lo' || hi' <= lo)
    ensures Avoids(vis + AddsAll(code), lo', hi')
  {
    hide Scoped, Declared;
    AddsDeclared(code);
  }

  lemma TryFits(temp: nat, e: TExpr, vis: set<nat>)
    requires TempsE(e) <= vis && temp !in vis && temp + 1 !in vis
    ensures Fits(TryCode(temp, e), temp, temp + 2, vis, true) && temp in AddsAll(TryCode(temp, e))
  {
    hide TempsE;
    Simple(temp + 1);
    var back := [TReturn(PartOf(AsError, temp + 1))];
    var v1, v2 := vis + {temp}, vis + {temp} + {temp + 1};
    var a, b, c, d := Declare(temp), DeclareAs(temp + 1, e), TIf(PartOf(IsError, temp + 1), None, back, []),
      SetTemp(temp, PartOf(Payload, temp + 1));
    One(back[0], v2);
    Nothing(v2);
    Four(a, b, c, d, vis);
    assert TryCode(temp, e) == [a, b, c, d];
    assert vis + Adds(a) + Adds(b) + Adds(c) == v2;
  }

  lemma Simple(k: nat)
    ensures forall p: Part :: TempsE(PartOf(p, k)) == {k}
    ensures TempsE(Temp(k)) == {k} && forall v: Value :: TempsE(TLit(v)) == {}
  {
  }

  lemma Two(a: TStmt, b: TStmt, vis: set<nat>)
    ensures Scoped([a, b], vis) <==> ScopedS(a, vis) && ScopedS(b, vis + Adds(a))
    ensures AddsAll([a, b]) == Adds(a) + Adds(b)
    ensures Declared([a, b]) == DeclaredS(a) + DeclaredS(b)
  {
    hide ScopedS, DeclaredS, Adds;
    assert [a, b] == [a] + [b];
    One(a, vis);
    One(b, vis + Adds(a));
    ScopedConcat([a], [b], vis);
  }

  lemma Three(a: TStmt, b: TStmt, c: TStmt, vis: set<nat>)
    ensures Scoped([a, b, c], vis) <==>
      ScopedS(a, vis) && ScopedS(b, vis + Adds(a)) && ScopedS(c, vis + Adds(a) + Adds(b))
    ensures AddsAll([a, b, c]) == Adds(a) + Adds(b) + Adds(c)
    ensures Declared([a, b, c]) == DeclaredS(a) + DeclaredS(b) + DeclaredS(c)
  {
    hide ScopedS, DeclaredS, Adds;
    assert [a, b, c] == [a, b] + [c];
    Two(a, b, vis);
    One(c, vis + AddsAll([a, b]));
    assert vis + Adds(a) + Adds(b) == vis + AddsAll([a, b]);
    ScopedConcat([a, b], [c], vis);
  }

  lemma Four(a: TStmt, b: TStmt, c: TStmt, d: TStmt, vis: set<nat>)
    ensures Scoped([a, b, c, d], vis) <==>
      ScopedS(a, vis) && ScopedS(b, vis + Adds(a)) && ScopedS(c, vis + Adds(a) + Adds(b))
      && ScopedS(d, vis + Adds(a) + Adds(b) + Adds(c))
    ensures AddsAll([a, b, c, d]) == Adds(a) + Adds(b) + Adds(c) + Adds(d)
    ensures Declared([a, b, c, d]) == DeclaredS(a) + DeclaredS(b) + DeclaredS(c) + DeclaredS(d)
  {
    hide ScopedS, DeclaredS, Adds;
    assert [a, b, c, d] == [a, b, c] + [d];
    Three(a, b, c, vis);
    One(d, vis + AddsAll([a, b, c]));
    assert vis + Adds(a) + Adds(b) + Adds(c) == vis + AddsAll([a, b, c]);
    ScopedConcat([a, b, c], [d], vis);
  }

  lemma TryVoidFits(temp: nat, e: TExpr, vis: set<nat>)
    requires TempsE(e) <= vis && temp + 1 !in vis
    ensures Fits(TryVoidCode(temp, e), temp, temp + 2, vis, true)
  {
    hide TempsE;
    Simple(temp + 1);
    var back := [TReturn(PartOf(AsError, temp + 1))];
    var v1 := vis + {temp + 1};
    var a, b := DeclareAs(temp + 1, e), TIf(PartOf(IsError, temp + 1), None, back, []);
    One(back[0], v1);
    Nothing(v1);
    Two(a, b, vis);
    assert TryVoidCode(temp, e) == [a, b];
  }

  lemma ReturnTryFits(temp: nat, e: TExpr, vis: set<nat>)
    requires TempsE(e) <= vis && temp !in vis && temp + 1 !in vis
    ensures Fits(ReturnTryCode(temp, e), temp, temp + 2, vis, true)
  {
    hide TempsE;
    Simple(temp);
    Simple(temp + 1);
    var bad, good := SetTemp(temp, PartOf(AsError, temp + 1)), SetTemp(temp, PartOf(AsOk, temp + 1));
    var v2 := vis + {temp} + {temp + 1};
    var a, b, c, d := Declare(temp), DeclareAs(temp + 1, e), TIf(PartOf(IsError, temp + 1), None, [bad], [good]),
      TReturn(Temp(temp));
    One(bad, v2);
    One(good, v2);
    Four(a, b, c, d, vis);
    assert ReturnTryCode(temp, e) == [a, b, c, d];
    assert vis + Adds(a) + Adds(b) + Adds(c) == v2;
  }

  /** The two temporaries of a catch or orelse, around code that was lifted with them visible. */
  lemma OnceAround(temp: nat, ds: seq<nat>, hi: nat)
    requires Once(ds, temp + 2, hi) && hi >= temp + 2
    ensures Once([temp, temp + 1] + ds, temp, hi) && Once([temp + 1] + ds, temp, hi)
  {
    OnceConcat([temp, temp + 1], temp, temp + 2, ds, temp + 2, hi, temp, hi);
    OnceConcat([temp + 1], temp + 1, temp + 2, ds, temp + 2, hi, temp, hi);
  }

  lemma CaptureFits(temp: nat, cap: Option<string>, vis: set<nat>)
    requires temp + 1 in vis
    ensures var c := CaptureCode(temp, cap); Scoped(c, vis) && AddsAll(c) == {} && Declared(c) == []
  {
    Nothing(vis);
    if cap.Some? {
      One(TSet(cap.value, PartOf(ErrorCode, temp + 1)), vis);
    }
  }

  lemma CapturedFits(temp: nat, cap: Option<string>, h: seq<TStmt>, vis: set<nat>)
    requires temp + 1 in vis
    ensures var c := CaptureCode(temp, cap) + h; (Scoped(c, vis) <==> Scoped(h, vis)) && Declared(c) == Declared(h)
  {
    hide Scoped, Declared, CaptureCode;
    CaptureFits(temp, cap, vis);
    ScopedConcat(CaptureCode(temp, cap), h, vis);
    assert vis + {} == vis && [] + Declared(h) == Declared(h);
  }

  lemma CatchFits(temp: nat, e: TExpr, cap: Option<string>, h: seq<TStmt>, hi: nat, vis: set<nat>, good: bool)
    requires TempsE(e) <= vis && temp !in vis && temp + 1 !in vis && hi >= temp + 2
    requires Fits(h, temp + 2, hi, vis + {temp} + {temp + 1}, good)
    ensures Fits(CatchCode(temp, e, cap, h), temp, hi, vis, good) && temp in AddsAll(CatchCode(temp, e, cap, h))
  {
    hide TempsE, Scoped, Declared, CaptureCode, Once;
    Simple(temp);
    Simple(temp + 1);
    var v1, v2 := vis + {temp}, vis + {temp} + {temp + 1};
    var bad, payload := CaptureCode(temp, cap) + h, SetTemp(temp, PartOf(Payload, temp + 1));
    CapturedFits(temp, cap, h, v2);
    One(payload, v2);
    var a, b, c := DeclareAs(temp, TLit(Int(0))), DeclareAs(temp + 1, e),
      TIf(PartOf(IsError, temp + 1), None, bad, [payload]);
    Three(a, b, c, vis);
    assert CatchCode(temp, e, cap, h) == [a, b, c];
    OnceAround(temp, Declared(h), hi);
    assert Declared([a, b, c]) == [temp] + [temp + 1] + (Declared(h) + []);
    assert [temp] + [temp + 1] + (Declared(h) + []) == [temp, temp + 1] + Declared(h);
  }

  lemma OrelseFits(temp: nat, e: TExpr, alt: seq<TStmt>, hi: nat, vis: set<nat>, good: bool)
    requires TempsE(e) <= vis && temp !in vis && temp + 1 !in vis && hi >= temp + 2
    requires Fits(alt, temp + 2, hi, vis + {temp} + {temp + 1}, good)
    ensures Fits(OrelseCode(temp, e, alt), temp, hi, vis, good) && temp in AddsAll(OrelseCode(temp, e, alt))
  {
    hide TempsE, Scoped, Declared, Once;
    Simple(temp + 1);
    var v2 := vis + {temp} + {temp + 1};
    var has := SetTemp(temp, PartOf(OptionalValue, temp + 1));
    One(has, v2);
    var a, b, c := Declare(temp), DeclareAs(temp + 1, e), TIf(PartOf(HasValue, temp + 1), None, [has], alt);
    Three(a, b, c, vis);
    assert OrelseCode(temp, e, alt) == [a, b, c];
    OnceAround(temp, Declared(alt), hi);
    assert Declared([a, b, c]) == [temp] + [temp + 1] + ([] + Declared(alt));
    assert [temp] + [temp + 1] + ([] + Declared(alt)) == [temp, temp + 1] + Declared(alt);
  }

  lemma CatchVoidFits(temp: nat, e: TExpr, cap: Option<string>, h: seq<TStmt>, hi: nat, vis: set<nat>, good: bool)
    requires TempsE(e) <= vis && temp + 1 !in vis && hi >= temp + 2
    requires Fits(h, temp + 2, hi, vis + {temp + 1}, good)
    ensures Fits(CatchVoidCode(temp, e, cap, h), temp, hi, vis, good)
  {
    hide TempsE, Scoped, Declared, CaptureCode, Once;
    Simple(temp + 1);
    var v1 := vis + {temp + 1};
    CapturedFits(temp, cap, h, v1);
    One(TEval(TLit(Unit)), v1);
    var a, b := DeclareAs(temp + 1, e),
      TIf(PartOf(IsError, temp + 1), None, CaptureCode(temp, cap) + h, [TEval(TLit(Unit))]);
    Two(a, b, vis);
    assert CatchVoidCode(temp, e, cap, h) == [a, b];
    OnceAround(temp, Declared(h), hi);
    assert Declared([a, b]) == [temp + 1] + (Declared(h) + []);
    assert [temp + 1] + (Declared(h) + []) == [temp + 1] + Declared(h);
  }

  /** The present branch assigns a temporary that was never declared. */
  lemma OrelseVoidFits(temp: nat, e: TExpr, alt: seq<TStmt>, hi: nat, vis: set<nat>, good: bool)
    requires temp !in vis && hi >= temp + 2 && Fits(alt, temp + 2, hi, vis + {temp + 1}, good)
    ensures Fits(OrelseVoidCode(temp, e, alt), temp, hi, vis, false)
  {
    hide TempsE, Scoped, Declared, Once;
    var v1 := vis + {temp + 1};
    var has := SetTemp(temp, TLit(Unit));
    One(has, v1);
    var a, b := DeclareAs(temp + 1, e), TIf(PartOf(HasValue, temp + 1), None, [has], alt);
    Two(a, b, vis);
    assert OrelseVoidCode(temp, e, alt) == [a, b];
    OnceAround(temp, Declared(alt), hi);
    assert Declared([a, b]) == [temp + 1] + ([] + Declared(alt));
    assert [temp + 1] + ([] + Declared(alt)) == [temp + 1] + Declared(alt);
  }

  // ----- Every form, by induction -----

  lemma {:induction false} ExprFits(e: Expr, k: nat, vis: set<nat>)
    requires Avoids(vis, k, LiftE(e, k).next)
    ensures FitsE(e, k, vis)
    decreases e, 1
  {
    hide Scoped, Declared, Once, Avoids, LiftArgs, LiftB, LiftProngs, LiftAll, NoVoidOrelseArgs, NoVoidOrelseB,
         NoVoidOrelse, NoVoidOrelseP;
    match e
    case Lit(_) => NothingFits(k, vis);
    case Var(_) => NothingFits(k, vis);
    case Op(_, args) => ArgsFit(args, k, vis);
    case Call(_, args) => ArgsFit(args, k, vis);
    case IfE(c, _, _, _, isVoid) => if isVoid { ExprFits(c, k, vis); } else { IfFits(e, k, vis); }
    case SwitchE(_, _, _, isVoid) => if isVoid { NothingFits(k, vis); } else { SwitchFits(e, k, vis); }
    case _ => HandlerFits(e, k, vis);
  }

  lemma NothingFits(k: nat, vis: set<nat>)
    ensures Fits([], k, k, vis, true)
  {
  }

  lemma NextFree(vis: set<nat>, k: nat, mid: nat, next: nat, code: seq<TStmt>, good: bool)
    requires Avoids(vis, k, next) && k <= mid <= next && Fits(code, k, mid, vis, good)
    ensures Avoids(vis + AddsAll(code), mid, next)
    ensures forall j: nat :: mid <= j < next ==> j !in vis + AddsAll(code)
  {
    hide Scoped, Declared;
    AddsDeclared(code);
  }

  lemma Wider(vis: set<nat>, lo: nat, hi: nat, ks: set<nat>)
    requires Avoids(vis, lo, hi) && forall j <- ks :: j < lo
    ensures Avoids(vis + ks, lo, hi)
  {
  }

  lemma {:induction false} IfFits(e: Expr, k: nat, vis: set<nat>)
    requires e.IfE? && !e.isVoid && Avoids(vis, k, LiftE(e, k).next)
    ensures FitsE(e, k, vis)
    decreases e, 0
  {
    hide Scoped, Declared, Once, Avoids, LiftB, TempsE, NoVoidOrelseB, AddsAll;
    var l := LiftE(e.cond, k);
    var temp := l.next;
    var la := LiftB(e.thenB, temp, temp + 1);
    var lb := LiftB(e.elseB, temp, la.next);
    Narrower(vis, k, lb.next, k, l.next);
    ExprFits(e.cond, k, vis);
    NextFree(vis, k, temp, lb.next, l.code, NoVoidOrelseE(e.cond));
    var v := vis + AddsAll(l.code);
    Inside(v, temp, lb.next);
    Narrower(v + {temp}, temp + 1, lb.next, temp + 1, la.next);
    Narrower(v + {temp}, temp + 1, lb.next, la.next, lb.next);
    BranchFits(e.thenB, temp, temp + 1, v + {temp});
    BranchFits(e.elseB, temp, la.next, v + {temp});
    var tail := [Declare(temp), TIf(l.e, e.bind, la.code, lb.code)];
    IfCodeFits(temp, l.e, e.bind, la.code, la.next, lb.code, lb.next, v, NoVoidOrelseB(e.thenB),
               NoVoidOrelseB(e.elseB));
    FitsConcat(l.code, k, temp, NoVoidOrelseE(e.cond), tail, temp, lb.next,
               NoVoidOrelseB(e.thenB) && NoVoidOrelseB(e.elseB), k, lb.next, vis);
    ScopedConcat(l.code, tail, vis);
    Simple(temp);
  }

  lemma Narrower(vis: set<nat>, lo: nat, hi: nat, lo': nat, hi': nat)
    requires Avoids(vis, lo, hi) && lo <= lo' && hi' <= hi
    ensures Avoids(vis, lo', hi')
  {
  }

  /** A temporary just declared is out of the way of later ones. */
  lemma Inside(v: set<nat>, temp: nat, hi: nat)
    requires Avoids(v, temp, hi)
    ensures Avoids(v + {temp}, temp + 1, hi)
    ensures temp < hi ==> temp !in v
    ensures temp + 1 < hi ==> temp + 1 !in v
    ensures Avoids(v + {temp} + {temp + 1}, temp + 2, hi) && Avoids(v + {temp + 1}, temp + 2, hi)
  {
  }

  lemma IfCodeFits(
    temp: nat, c: TExpr, bind: Option<string>, a: seq<TStmt>, mid: nat, b: seq<TStmt>, hi: nat, v: set<nat>,
    goodA: bool, goodB: bool)
    requires TempsE(c) <= v && temp !in v && temp + 1 <= mid <= hi
    requires Fits(a, temp + 1, mid, v + {temp}, goodA) && Fits(b, mid, hi, v + {temp}, goodB)
    ensures var code := [Declare(temp), TIf(c, bind, a, b)];
            Fits(code, temp, hi, v, goodA && goodB) && temp in AddsAll(code)
  {
    hide Scoped, Declared, Once, TempsE;
    var s, i := Declare(temp), TIf(c, bind, a, b);
    Two(s, i, v);
    OnceConcat(Declared(a), temp + 1, mid, Declared(b), mid, hi, temp + 1, hi);
    OnceOne(temp);
    OnceConcat([temp], temp, temp + 1, Declared(a) + Declared(b), temp + 1, hi, temp, hi);
  }

  lemma OnceOne(k: nat)
    ensures Once([k], k, k + 1)
  {
  }

  lemma {:induction false} SwitchFits(e: Expr, k: nat, vis: set<nat>)
    requires e.SwitchE? && !e.isVoid && Avoids(vis, k, LiftE(e, k).next)
    ensures FitsE(e, k, vis)
    decreases e, 0
  {
    hide Scoped, Declared, Once, Avoids, LiftB, LiftProngs, TempsE, NoVoidOrelseB, NoVoidOrelseP, AddsAll;
    var l := LiftE(e.scrutinee, k);
    var temp := l.next;
    var lp := LiftProngs(e.prongs, temp, temp + 1);
    var lo := LiftB(e.other, temp, lp.next);
    Narrower(vis, k, lo.next, k, l.next);
    ExprFits(e.scrutinee, k, vis);
    NextFree(vis, k, temp, lo.next, l.code, NoVoidOrelseE(e.scrutinee));
    var v := vis + AddsAll(l.code);
    Inside(v, temp, lo.next);
    Narrower(v + {temp}, temp + 1, lo.next, temp + 1, lp.next);
    Narrower(v + {temp}, temp + 1, lo.next, lp.next, lo.next);
    ProngsFit(e.prongs, temp, temp + 1, v + {temp});
    BranchFits(e.other, temp, lp.next, v + {temp});
    var tail := [Declare(temp), TSwitch(l.e, lp.prongs, lo.code)];
    var good := NoVoidOrelseP(e.prongs) && NoVoidOrelseB(e.other);
    SwitchCodeFits(temp, l.e, lp.prongs, lp.next, lo.code, lo.next, v, NoVoidOrelseP(e.prongs), NoVoidOrelseB(e.other));
    FitsConcat(l.code, k, temp, NoVoidOrelseE(e.scrutinee), tail, temp, lo.next, good, k, lo.next, vis);
    ScopedConcat(l.code, tail, vis);
    Simple(temp);
  }

  ghost predicate FitsProngs(prongs: seq<TProng>, lo: nat, hi: nat, vis: set<nat>, good: bool) {
    Once(DeclaredProngs(prongs), lo, hi) && (ScopedProngs(prongs, vis) <==> good)
  }

  lemma SwitchCodeFits(
    temp: nat, c: TExpr, prongs: seq<TProng>, mid: nat, other: seq<TStmt>, hi: nat, v: set<nat>, goodP: bool,
    good: bool)
    requires TempsE(c) <= v && temp !in v && temp + 1 <= mid <= hi
    requires FitsProngs(prongs, temp + 1, mid, v + {temp}, goodP) && Fits(other, mid, hi, v + {temp}, good)
    ensures var code := [Declare(temp), TSwitch(c, prongs, other)];
            Fits(code, temp, hi, v, goodP && good) && temp in AddsAll(code)
  {
    hide Scoped, Declared, Once, TempsE, ScopedProngs, DeclaredProngs;
    var s, i := Declare(temp), TSwitch(c, prongs, other);
    Two(s, i, v);
    OnceConcat(DeclaredProngs(prongs), temp + 1, mid, Declared(other), mid, hi, temp + 1, hi);
    OnceOne(temp);
    OnceConcat([temp], temp, temp + 1, DeclaredProngs(prongs) + Declared(other), temp + 1, hi, temp, hi);
  }

  /** try, catch and orelse, with a value or without. */
  lemma {:induction false} HandlerFits(e: Expr, k: nat, vis: set<nat>)
    requires e.TryE? || e.TryVoidE? || e.CatchE? || e.OrelseE? || e.CatchVoidE? || e.OrelseVoidE?
    requires Avoids(vis, k, LiftE(e, k).next)
    ensures FitsE(e, k, vis)
    decreases e, 0
  {
    hide Scoped, Declared, Once, Avoids, LiftB, LiftAll, TempsE, NoVoidOrelseB, NoVoidOrelse, AddsAll,
         TryCode, TryVoidCode, CatchCode, OrelseCode, CatchVoidCode, OrelseVoidCode;
    var x, next := e.e, LiftE(e, k).next;
    var l := LiftE(x, k);
    var temp := l.next;
    var goodX := NoVoidOrelseE(x);
    Narrower(vis, k, next, k, temp);
    ExprFits(x, k, vis);
    NextFree(vis, k, temp, next, l.code, goodX);
    var v := vis + AddsAll(l.code);
    Inside(v, temp, next);
    Simple(temp);
    match e
    case TryE(_) =>
      TryFits(temp, l.e, v);
      FitsConcat(l.code, k, temp, goodX, TryCode(temp, l.e), temp, next, true, k, next, vis);
      ScopedConcat(l.code, TryCode(temp, l.e), vis);
    case TryVoidE(_) =>
      TryVoidFits(temp, l.e, v);
      FitsConcat(l.code, k, temp, goodX, TryVoidCode(temp, l.e), temp, next, true, k, next, vis);
    case CatchE(_, cap, h) =>
      var lh := LiftB(h, temp, temp + 2);
      var code := CatchCode(temp, l.e, cap, lh.code);
      BranchFits(h, temp, temp + 2, v + {temp} + {temp + 1});
      CatchFits(temp, l.e, cap, lh.code, next, v, NoVoidOrelseB(h));
      FitsConcat(l.code, k, temp, goodX, code, temp, next, NoVoidOrelseB(h), k, next, vis);
      ScopedConcat(l.code, code, vis);
    case OrelseE(_, alt) =>
      var la := LiftB(alt, temp, temp + 2);
      var code := OrelseCode(temp, l.e, la.code);
      BranchFits(alt, temp, temp + 2, v + {temp} + {temp + 1});
      OrelseFits(temp, l.e, la.code, next, v, NoVoidOrelseB(alt));
      FitsConcat(l.code, k, temp, goodX, code, temp, next, NoVoidOrelseB(alt), k, next, vis);
      ScopedConcat(l.code, code, vis);
    case CatchVoidE(_, cap, b) =>
      var lb := LiftAll(b, temp + 2);
      AllFit(b, temp + 2, v + {temp + 1});
      CatchVoidFits(temp, l.e, cap, lb.code, next, v, NoVoidOrelse(b));
      FitsConcat(l.code, k, temp, goodX, CatchVoidCode(temp, l.e, cap, lb.code), temp, next, NoVoidOrelse(b), k, next,
                 vis);
    case OrelseVoidE(_, b) =>
      var lb := LiftAll(b, temp + 2);
      AllFit(b, temp + 2, v + {temp + 1});
      OrelseVoidFits(temp, l.e, lb.code, next, v, NoVoidOrelse(b));
      FitsConcat(l.code, k, temp, goodX, OrelseVoidCode(temp, l.e, lb.code), temp, next, false, k, next, vis);
  }

  lemma {:induction false} ArgsFit(es: seq<Expr>, k: nat, vis: set<nat>)
    requires Avoids(vis, k, LiftArgs(es, k).next)
    ensures var l := LiftArgs(es, k);
            Fits(l.code, k, l.next, vis, NoVoidOrelseArgs(es)) && TempsArgs(l.es) <= AddsAll(l.code)
    decreases es, 1
  {
    hide Scoped, Declared, Once, Avoids, TempsE, NoVoidOrelseE, LiftE;
    if es == [] {
      NothingFits(k, vis);
    } else {
      var l := LiftE(es[0], k);
      var rest := LiftArgs(es[1..], l.next);
      Narrower(vis, k, rest.next, k, l.next);
      ExprFits(es[0], k, vis);
      NextFree(vis, k, l.next, rest.next, l.code, NoVoidOrelseE(es[0]));
      ArgsFit(es[1..], l.next, vis + AddsAll(l.code));
      FitsConcat(l.code, k, l.next, NoVoidOrelseE(es[0]), rest.code, l.next, rest.next, NoVoidOrelseArgs(es[1..]), k,
                 rest.next, vis);
      ScopedConcat(l.code, rest.code, vis);
      assert ([l.e] + rest.es)[1..] == rest.es;
    }
  }

  lemma {:induction false} ProngsFit(prongs: seq<Prong>, temp: nat, k: nat, vis: set<nat>)
    requires temp in vis && Avoids(vis, k, LiftProngs(prongs, temp, k).next)
    ensures var l := LiftProngs(prongs, temp, k); FitsProngs(l.prongs, k, l.next, vis, NoVoidOrelseP(prongs))
    decreases prongs, 1
  {
    hide Scoped, Declared, Once, Avoids, NoVoidOrelseB, LiftB;
    if prongs == [] {
      OnceNone(k);
    } else {
      var l := LiftB(prongs[0].body, temp, k);
      var rest := LiftProngs(prongs[1..], temp, l.next);
      Narrower(vis, k, rest.next, k, l.next);
      Narrower(vis, k, rest.next, l.next, rest.next);
      BranchFits(prongs[0].body, temp, k, vis);
      ProngsFit(prongs[1..], temp, l.next, vis);
      ProngCons(TProng(prongs[0].items, prongs[0].bind, l.code), rest.prongs, vis);
      OnceConcat(Declared(l.code), k, l.next, DeclaredProngs(rest.prongs), l.next, rest.next, k, rest.next);
    }
  }

  lemma OnceNone(k: nat)
    ensures Once([], k, k)
  {
  }

  lemma ProngCons(p: TProng, rest: seq<TProng>, vis: set<nat>)
    ensures ScopedProngs([p] + rest, vis) <==> Scoped(p.body, vis) && ScopedProngs(rest, vis)
    ensures DeclaredProngs([p] + rest) == Declared(p.body) + DeclaredProngs(rest)
  {
    hide Scoped, Declared;
    assert ([p] + rest)[1..] == rest;
  }

  lemma {:induction false} BranchFits(b: Branch, temp: nat, k: nat, vis: set<nat>)
    requires temp in vis && Avoids(vis, k, LiftB(b, temp, k).next)
    ensures var l := LiftB(b, temp, k); Fits(l.code, k, l.next, vis, NoVoidOrelseB(b))
    decreases b, 1
  {
    hide Scoped, Declared, Once, Avoids, NoVoidOrelseE, NoVoidOrelse, LiftAll, LiftTail;
    var last := LiftTail(b.tail, temp, k);
    var init := LiftAll(b.ss, last.next);
    var good := !b.tail.Away? ==> NoVoidOrelseE(b.tail.e);
    Narrower(vis, k, init.next, last.next, init.next);
    Narrower(vis, k, init.next, k, last.next);
    AllFit(b.ss, last.next, vis);
    StillAvoids(init.code, last.next, init.next, vis, NoVoidOrelse(b.ss), k, last.next);
    TailFits(b.tail, temp, k, vis + AddsAll(init.code));
    FitsConcat(init.code, last.next, init.next, NoVoidOrelse(b.ss), last.code, k, last.next, good, k, init.next, vis);
  }

  /** A statement that uses an expression, behind the code lifted out of it. */
  lemma UseFits(e: Expr, k: nat, vis: set<nat>, use: TStmt)
    requires FitsE(e, k, vis) && DeclaredS(use) == []
    requires forall v: set<nat> :: vis <= v && TempsE(LiftE(e, k).e) <= v ==> ScopedS(use, v)
    ensures Fits(LiftE(e, k).code + [use], k, LiftE(e, k).next, vis, NoVoidOrelseE(e))
  {
    hide Scoped, Declared, Once, LiftE, TempsE, NoVoidOrelseE, ScopedS, DeclaredS;
    var l := LiftE(e, k);
    One(use, vis + AddsAll(l.code));
    OnceNone(l.next);
    FitsConcat(l.code, k, l.next, NoVoidOrelseE(e), [use], l.next, l.next, true, k, l.next, vis);
  }

  lemma {:induction false} TailFits(tail: Tail, temp: nat, k: nat, vis: set<nat>)
    requires temp in vis && Avoids(vis, k, LiftTail(tail, temp, k).next)
    ensures var l := LiftTail(tail, temp, k);
            Fits(l.code, k, l.next, vis, !tail.Away? ==> NoVoidOrelseE(tail.e))
    decreases tail, 1
  {
    hide Scoped, Declared, Once, Avoids, NoVoidOrelseE, LiftE, TempsE, ReturnTryCode, ExitsE, AddsAll;
    match tail
    case Yield(e) =>
      ExprFits(e, k, vis);
      UseFits(e, k, vis, if ExitsE(e) then TEval(LiftE(e, k).e) else SetTemp(temp, LiftE(e, k).e));
    case Leave(e) =>
      ExprFits(e, k, vis);
      UseFits(e, k, vis, TReturn(LiftE(e, k).e));
    case LeaveTry(e) => ReturnTryTailFits(e, k, vis);
    case Away(j) => GoFits(j, k, vis);
  }

  lemma GoFits(j: Jump, k: nat, vis: set<nat>)
    ensures Fits([TGo(j)], k, k, vis, true)
  {
    One(TGo(j), vis);
  }

  lemma {:induction false} ReturnTryTailFits(e: Expr, k: nat, vis: set<nat>)
    requires Avoids(vis, k, LiftE(e, k).next + 2)
    ensures var l := LiftE(e, k);
            Fits(l.code + ReturnTryCode(l.next, l.e), k, l.next + 2, vis, NoVoidOrelseE(e))
    decreases e, 2
  {
    hide Scoped, Declared, Once, Avoids, NoVoidOrelseE, LiftE, TempsE, ReturnTryCode, AddsAll;
    var l := LiftE(e, k);
    Narrower(vis, k, l.next + 2, k, l.next);
    ExprFits(e, k, vis);
    NextFree(vis, k, l.next, l.next + 2, l.code, NoVoidOrelseE(e));
    ReturnTryFits(l.next, l.e, vis + AddsAll(l.code));
    FitsConcat(l.code, k, l.next, NoVoidOrelseE(e), ReturnTryCode(l.next, l.e), l.next, l.next + 2, true, k, l.next + 2,
               vis);
  }

  lemma {:induction false} AllFit(ss: seq<Stmt>, k: nat, vis: set<nat>)
    requires Avoids(vis, k, LiftAll(ss, k).next)
    ensures var l := LiftAll(ss, k); Fits(l.code, k, l.next, vis, NoVoidOrelse(ss))
    decreases ss, 1
  {
    hide Scoped, Declared, Once, Avoids, NoVoidOrelseS, LiftS;
    if ss == [] {
      NothingFits(k, vis);
    } else {
      var x, first := ss[|ss| - 1], ss[..|ss| - 1];
      var last := LiftS(x, k);
      var init := LiftAll(first, last.next);
      Narrower(vis, k, init.next, last.next, init.next);
      Narrower(vis, k, init.next, k, last.next);
      AllFit(first, last.next, vis);
      StillAvoids(init.code, last.next, init.next, vis, NoVoidOrelse(first), k, last.next);
      StmtFits(x, k, vis + AddsAll(init.code));
      FitsConcat(init.code, last.next, init.next, NoVoidOrelse(first), last.code, k, last.next, NoVoidOrelseS(x), k,
                 init.next, vis);
    }
  }

  lemma {:induction false} StmtFits(s: Stmt, k: nat, vis: set<nat>)
    requires Avoids(vis, k, LiftS(s, k).next)
    ensures var l := LiftS(s, k); Fits(l.code, k, l.next, vis, NoVoidOrelseS(s))
    decreases s, 1
  {
    hide Scoped, Declared, Once, Avoids, NoVoidOrelseE, NoVoidOrelse, NoVoidOrelseArms, NoVoidOrelseArgs, LiftE,
         LiftAll, LiftArms, LiftArgs, LiftStep, TempsE, ReturnTryCode, AddsAll;
    match s
    case Eval(e) =>
      ExprFits(e, k, vis);
      UseFits(e, k, vis, TEval(LiftE(e, k).e));
    case Set(x, e, _) =>
      ExprFits(e, k, vis);
      UseFits(e, k, vis, TSet(x, LiftE(e, k).e));
    case Return(e) =>
      ExprFits(e, k, vis);
      UseFits(e, k, vis, TReturn(LiftE(e, k).e));
    case ReturnTry(e) => ReturnTryTailFits(e, k, vis);
    case Go(j) => GoFits(j, k, vis);
    case IfS(_, _, _) => IfStmtFits(s, k, vis);
    case SwitchS(_, _, _) => SwitchStmtFits(s, k, vis);
    case While(_, _, _, _, _) => WhileFits(s, k, vis);
    case For(_, _, _, _, _) => ForFits(s, k, vis);
  }

  /** A statement with blocks in it: what it uses is visible, and its blocks see what it sees. */
  lemma BlockStmtFits(
    code: seq<TStmt>, k: nat, mid: nat, good: bool, use: TStmt, next: nat, goodUse: bool, vis: set<nat>)
    requires Fits(code, k, mid, vis, good) && k <= mid <= next && Adds(use) == {}
    requires Once(DeclaredS(use), mid, next) && (ScopedS(use, vis + AddsAll(code)) <==> goodUse)
    ensures Fits(code + [use], k, next, vis, good && goodUse)
  {
    hide Scoped, Declared, Once, ScopedS, DeclaredS;
    One(use, vis + AddsAll(code));
    FitsConcat(code, k, mid, good, [use], mid, next, goodUse, k, next, vis);
  }

  lemma {:induction false} IfStmtFits(s: Stmt, k: nat, vis: set<nat>)
    requires s.IfS? && Avoids(vis, k, LiftS(s, k).next)
    ensures var l := LiftS(s, k); Fits(l.code, k, l.next, vis, NoVoidOrelseS(s))
    decreases s, 0
  {
    hide Scoped, Declared, Once, Avoids, NoVoidOrelseE, NoVoidOrelse, LiftE, LiftAll, TempsE, AddsAll;
    var l := LiftE(s.cond, k);
    var la := LiftAll(s.thenS, l.next);
    var lb := LiftAll(s.elseS, la.next);
    Narrower(vis, k, lb.next, k, l.next);
    ExprFits(s.cond, k, vis);
    NextFree(vis, k, l.next, lb.next, l.code, NoVoidOrelseE(s.cond));
    var v := vis + AddsAll(l.code);
    Narrower(v, l.next, lb.next, l.next, la.next);
    Narrower(v, l.next, lb.next, la.next, lb.next);
    AllFit(s.thenS, l.next, v);
    AllFit(s.elseS, la.next, v);
    OnceConcat(Declared(la.code), l.next, la.next, Declared(lb.code), la.next, lb.next, l.next, lb.next);
    BlockStmtFits(l.code, k, l.next, NoVoidOrelseE(s.cond), TIf(l.e, None, la.code, lb.code), lb.next,
                  NoVoidOrelse(s.thenS) && NoVoidOrelse(s.elseS), vis);
  }

  lemma {:induction false} SwitchStmtFits(s: Stmt, k: nat, vis: set<nat>)
    requires s.SwitchS? && Avoids(vis, k, LiftS(s, k).next)
    ensures var l := LiftS(s, k); Fits(l.code, k, l.next, vis, NoVoidOrelseS(s))
    decreases s, 0
  {
    hide Scoped, Declared, Once, Avoids, NoVoidOrelseE, NoVoidOrelse, NoVoidOrelseArms, LiftE, LiftAll, LiftArms,
         TempsE, AddsAll, ScopedProngs, DeclaredProngs;
    var l := LiftE(s.scrutinee, k);
    var la := LiftArms(s.arms, l.next);
    var lo := LiftAll(s.other, la.next);
    Narrower(vis, k, lo.next, k, l.next);
    ExprFits(s.scrutinee, k, vis);
    NextFree(vis, k, l.next, lo.next, l.code, NoVoidOrelseE(s.scrutinee));
    var v := vis + AddsAll(l.code);
    Narrower(v, l.next, lo.next, l.next, la.next);
    Narrower(v, l.next, lo.next, la.next, lo.next);
    ArmsFit(s.arms, l.next, v);
    AllFit(s.other, la.next, v);
    OnceConcat(DeclaredProngs(la.prongs), l.next, la.next, Declared(lo.code), la.next, lo.next, l.next, lo.next);
    BlockStmtFits(l.code, k, l.next, NoVoidOrelseE(s.scrutinee), TSwitch(l.e, la.prongs, lo.code), lo.next,
                  NoVoidOrelseArms(s.arms) && NoVoidOrelse(s.other), vis);
  }

  lemma {:induction false} ArmsFit(arms: seq<Arm>, k: nat, vis: set<nat>)
    requires Avoids(vis, k, LiftArms(arms, k).next)
    ensures var l := LiftArms(arms, k); FitsProngs(l.prongs, k, l.next, vis, NoVoidOrelseArms(arms))
    decreases arms, 1
  {
    hide Scoped, Declared, Once, Avoids, NoVoidOrelse, LiftAll;
    if arms == [] {
      OnceNone(k);
    } else {
      var l := LiftAll(arms[0].body, k);
      var rest := LiftArms(arms[1..], l.next);
      Narrower(vis, k, rest.next, k, l.next);
      Narrower(vis, k, rest.next, l.next, rest.next);
      AllFit(arms[0].body, k, vis);
      ArmsFit(arms[1..], l.next, vis);
      ProngCons(TProng(arms[0].items, arms[0].bind, l.code), rest.prongs, vis);
      OnceConcat(Declared(l.code), k, l.next, DeclaredProngs(rest.prongs), l.next, rest.next, k, rest.next);
    }
  }

  /** The code of the condition, that of the continue expression, then the loop. */
  lemma {:induction false} WhileFits(s: Stmt, k: nat, vis: set<nat>)
    requires s.While? && Avoids(vis, k, LiftS(s, k).next)
    ensures var l := LiftS(s, k); Fits(l.code, k, l.next, vis, NoVoidOrelseS(s))
    decreases s, 0
  {
    hide Scoped, Declared, Once, Avoids, NoVoidOrelseE, NoVoidOrelse, LiftE, LiftAll, LiftStep, TempsE, AddsAll;
    var l := LiftE(s.cond, k);
    var lb := LiftAll(s.body, l.next);
    var ls := LiftStep(s.step, lb.next);
    var goodStep := s.step.Some? ==> NoVoidOrelseE(s.step.value);
    Narrower(vis, k, ls.next, k, l.next);
    ExprFits(s.cond, k, vis);
    NextFree(vis, k, l.next, ls.next, l.code, NoVoidOrelseE(s.cond));
    var v := vis + AddsAll(l.code);
    Narrower(v, l.next, ls.next, lb.next, ls.next);
    StepFits(s.step, lb.next, v);
    Narrower(v, l.next, ls.next, l.next, lb.next);
    StillAvoids(ls.code, lb.next, ls.next, v, goodStep, l.next, lb.next);
    var u := v + AddsAll(ls.code);
    AllFit(s.body, l.next, u);
    var use := TWhile(s.loop, l.e, s.bind, ls.e, lb.code);
    One(use, u);
    FitsConcat(ls.code, lb.next, ls.next, goodStep, [use], l.next, lb.next, NoVoidOrelse(s.body), l.next, ls.next, v);
    FitsConcat(l.code, k, l.next, NoVoidOrelseE(s.cond), ls.code + [use], l.next, ls.next,
               goodStep && NoVoidOrelse(s.body), k, ls.next, vis);
    assert l.code + ls.code + [use] == l.code + (ls.code + [use]);
  }

  lemma {:induction false} StepFits(step: Option<Expr>, k: nat, vis: set<nat>)
    requires Avoids(vis, k, LiftStep(step, k).next)
    ensures var l := LiftStep(step, k);
            && Fits(l.code, k, l.next, vis, step.Some? ==> NoVoidOrelseE(step.value))
            && (l.e.Some? ==> TempsE(l.e.value) <= AddsAll(l.code))
    decreases step, 1
  {
    hide Scoped, Declared, Once, Avoids, NoVoidOrelseE, LiftE, TempsE;
    if step.Some? {
      ExprFits(step.value, k, vis);
    } else {
      NothingFits(k, vis);
    }
  }

  lemma {:induction false} ForFits(s: Stmt, k: nat, vis: set<nat>)
    requires s.For? && Avoids(vis, k, LiftS(s, k).next)
    ensures var l := LiftS(s, k); Fits(l.code, k, l.next, vis, NoVoidOrelseS(s))
    decreases s, 0
  {
    hide Scoped, Declared, Once, Avoids, NoVoidOrelseArgs, NoVoidOrelse, LiftArgs, LiftAll, TempsArgs, AddsAll;
    var l := LiftArgs(s.over, k);
    var lb := LiftAll(s.body, l.next);
    Narrower(vis, k, lb.next, k, l.next);
    ArgsFit(s.over, k, vis);
    NextFree(vis, k, l.next, lb.next, l.code, NoVoidOrelseArgs(s.over));
    AllFit(s.body, l.next, vis + AddsAll(l.code));
    BlockStmtFits(l.code, k, l.next, NoVoidOrelseArgs(s.over), TFor(s.loop, l.es, s.item, s.index, lb.code), lb.next,
                  NoVoidOrelse(s.body), vis);
  }

  // ----- The result -----

  /**
   No temporary of a lifted body is declared twice.  All its reads and assignments see its declaration, which no other
   hides, exactly if no `orelse` without value was lifted: the present branch of that one assigns its temporary,
   though there is none.
   */
  lemma DeclaredIff(body: seq<Stmt>, k: nat)
    ensures var l := LiftAll(body, k);
            Once(Declared(l.code), k, l.next) && (Scoped(l.code, {}) <==> NoVoidOrelse(body))
  {
    hide LiftAll, Scoped, Once, Declared, NoVoidOrelse;
    AllFit(body, k, {});
  }

  /** `x orelse {}` */
  lemma VoidOrelseUndeclared(x: string, k: nat)
    ensures var body := [Eval(OrelseVoidE(Var(x), []))];
            LiftAll(body, k).code == [DeclareAs(k + 1, TVar(x)),
                                      TIf(PartOf(HasValue, k + 1), None, [SetTemp(k, TLit(Unit))], []),
                                      TEval(TLit(Unit))]
            && !Scoped(LiftAll(body, k).code, {})
  {
    hide Scoped;
    var s := Eval(OrelseVoidE(Var(x), []));
    var body := [s];
    assert body[..0] == [] && LiftAll([], k + 2) == LiftedS([], k + 2);
    assert LiftE(s.e, k).code == OrelseVoidCode(k, TVar(x), []);
    assert LiftS(s, k).code == OrelseVoidCode(k, TVar(x), []) + [TEval(TLit(Unit))];
    DeclaredIff(body, k);
    assert !NoVoidOrelseS(s);
  }
}
