/**
 Reading a printed declaration back gives its name and its type, for every nesting of
 pointers, arrays, functions and function pointers.
 */
module DeclaratorRoundTrip {
  import opened Options
  import opened Declarators

  // ----- The printed text is the declarator that wraps the name -----

  lemma {:induction false} StripConcat(a: seq<Token>, b: seq<Token>)
    ensures Strip(a + b) == Strip(a) + Strip(b)
  {
    hide Strip;
    StripHead(a);
    if a == [] {
      assert a + b == b;
    } else {
      StripConcat(a[1..], b);
      StripHead(a + b);
      assert (a + b)[0] == a[0] && (a + b)[1..] == a[1..] + b;
      var h := if a[0].Space? then [] else [a[0]];
      assert h + (Strip(a[1..]) + Strip(b)) == (h + Strip(a[1..])) + Strip(b);
    }
  }

  lemma StripHead(s: seq<Token>)
    ensures s == [] ==> Strip(s) == []
    ensures s != [] ==> Strip(s) == (if s[0].Space? then [] else [s[0]]) + Strip(s[1..])
  {
  }

  lemma {:induction false} StripWords(ws: seq<string>)
    ensures Strip(Words(ws)) == WordTokens(ws)
  {
    if |ws| == 1 {
      assert Words(ws)[1..] == [];
    } else if |ws| > 1 {
      StripWords(ws[1..]);
      StripConcat([Word(ws[0]), Space], Words(ws[1..]));
      assert [Word(ws[0]), Space][1..] == [Space];
      assert Strip([Space]) == [];
    }
  }

  lemma {:induction false} SuffixAppended(ss: seq<Suffixed>, s: Suffixed)
    ensures UnparseSuffixes(ss + [s]) == UnparseSuffixes(ss) + UnparseSuffix(s)
  {
    if ss == [] {
      assert ss + [s] == [s];
      assert UnparseSuffixes([s]) == UnparseSuffix(s) + UnparseSuffixes([]);
    } else {
      SuffixAppended(ss[1..], s);
      assert (ss + [s])[1..] == ss[1..] + [s];
    }
  }

  lemma UnparseAppend(d: Declarator, s: Suffixed)
    requires d.Direct?
    ensures Unparse(Append(d, s)) == Unparse(d) + UnparseSuffix(s)
  {
    SuffixAppended(d.suffixes, s);
  }

  function P(t: Type): seq<Token> { Strip(Prefix(t)) }
  function S(t: Type): seq<Token> { Strip(Suffix(t)) }

  /** What the printer of `t` leaves around a declarator `d` it is told to qualify with `q`. */
  function Around(t: Type, q: bool, d: Declarator): seq<Token> {
    P(t) + Qualifier(q) + Unparse(d) + S(t)
  }

  lemma StripSingle(x: Token)
    ensures Strip([x]) == if x.Space? then [] else [x]
  {
    assert [x][1..] == [];
  }

  lemma StripPair(x: Token, y: Token)
    ensures Strip([x, y]) == Strip([x]) + Strip([y])
  {
    assert [x, y] == [x] + [y];
    StripConcat([x], [y]);
  }

  lemma StripTriple(x: Token, y: Token, z: Token)
    ensures Strip([x, y, z]) == Strip([x]) + Strip([y]) + Strip([z])
  {
    assert [x, y, z] == [x, y] + [z];
    StripConcat([x, y], [z]);
    StripPair(x, y);
  }

  lemma PtrText(c: bool, b: Type)
    requires b != VOID
    ensures P(Ptr(c, b)) == P(b) + Qualifier(c) + (if NeedsParens(b) then [LPar, Star] else [Star])
    ensures S(Ptr(c, b)) == (if NeedsParens(b) then [RPar] else []) + S(b)
  {
    hide Strip;
    var q := if c then [Space, Const] else [];
    var o := if NeedsParens(b) then [Space, LPar, Star] else [Star];
    var r := if NeedsParens(b) then [RPar] else [];
    StripConcat(Prefix(b), q + o);
    StripConcat(q, o);
    StripConcat(r, Suffix(b));
    StripEmpty();
    StripPair(Space, Const);
    StripTriple(Space, LPar, Star);
    StripSingle(Space);
    StripSingle(Const);
    StripSingle(LPar);
    StripSingle(RPar);
    StripSingle(Star);
    assert Strip(q + o) == Qualifier(c) + (if NeedsParens(b) then [LPar, Star] else [Star]);
  }

  lemma VoidText(c: bool)
    ensures P(Ptr(c, VOID)) == [Word("void"), Star] && S(Ptr(c, VOID)) == []
  {
    hide Strip;
    StripTriple(Word("void"), Space, Star);
    StripSingle(Word("void"));
    StripSingle(Space);
    StripSingle(Star);
    StripEmpty();
  }

  lemma ArrText(n: nat, e: Type)
    ensures P(Arr(n, e)) == P(e) && S(Arr(n, e)) == [LBrk, Num(n), RBrk] + S(e)
  {
    hide Strip;
    StripConcat([LBrk, Num(n), RBrk], Suffix(e));
    StripTriple(LBrk, Num(n), RBrk);
    StripSingle(LBrk);
    StripSingle(Num(n));
    StripSingle(RBrk);
  }

  lemma FnText(ps: seq<Type>, r: Type)
    ensures P(Fn(ps, r)) == P(r) && S(Fn(ps, r)) == [LPar] + (Strip(Params(ps)) + [RPar]) + S(r)
  {
    hide Params, Strip, Prefix, Suffix;
    FnParts(ps, r);
    StripSingle(LPar);
    StripSingle(RPar);
    var inside := [LPar] + Params(ps) + [RPar];
    StripConcat(inside, Suffix(r));
    StripConcat([LPar] + Params(ps), [RPar]);
    StripConcat([LPar], Params(ps));
    assert Strip(inside) == [LPar] + (Strip(Params(ps)) + [RPar]);
  }

  lemma FnParts(ps: seq<Type>, r: Type)
    ensures Prefix(Fn(ps, r)) == Prefix(r) && Suffix(Fn(ps, r)) == [LPar] + Params(ps) + [RPar] + Suffix(r)
    ensures Prefix(FnPtr(ps, r)) == Prefix(r) + [Space, LPar, Star]
    ensures Suffix(FnPtr(ps, r)) == [RPar] + Suffix(Fn(ps, r))
  {
    hide Params;
    assert [RPar] + ([LPar] + Params(ps) + [RPar] + Suffix(r)) == [RPar, LPar] + Params(ps) + [RPar] + Suffix(r);
  }

  lemma FnPtrText(ps: seq<Type>, r: Type)
    ensures P(FnPtr(ps, r)) == P(r) + [LPar, Star]
    ensures S(FnPtr(ps, r)) == [RPar] + ([LPar] + (Strip(Params(ps)) + [RPar]) + S(r))
  {
    hide Params, Strip, Prefix, Suffix;
    FnParts(ps, r);
    StripTriple(Space, LPar, Star);
    StripSingle(Space);
    StripSingle(LPar);
    StripSingle(RPar);
    StripSingle(Star);
    assert Strip([Space, LPar, Star]) == [LPar, Star];
    StripConcat(Prefix(r), [Space, LPar, Star]);
    FnText(ps, r);
    StripConcat([RPar], Suffix(Fn(ps, r)));
  }

  /** The text around a group: the parentheses move into the declarator. */
  lemma Regroup(p: seq<Token>, c: seq<Token>, u: seq<Token>, s: seq<Token>, d: Declarator, q: bool)
    requires u == Unparse(d)
    ensures p + c + [LPar, Star] + Qualifier(q) + u + ([RPar] + s)
         == p + c + UnparseHead(Group(Pointer(q, d))) + s
  {
    hide UnparseSuffixes;
    var v := Qualifier(q) + u;
    assert Unparse(Pointer(q, d)) == [Star] + v;
    assert UnparseHead(Group(Pointer(q, d))) == [LPar] + ([Star] + v + [RPar]);
    assert p + c + [LPar, Star] + Qualifier(q) + u + ([RPar] + s) == p + c + ([LPar, Star] + v + [RPar]) + s;
    assert [LPar] + ([Star] + v + [RPar]) == [LPar, Star] + v + [RPar];
  }

  lemma UnparseGroup(h: Head)
    ensures Unparse(Direct(h, [])) == UnparseHead(h)
    ensures forall s :: Unparse(Direct(h, [s])) == UnparseHead(h) + UnparseSuffix(s)
  {
    assert UnparseSuffixes([]) == [];
    forall s ensures Unparse(Direct(h, [s])) == UnparseHead(h) + UnparseSuffix(s) {
      assert [s][1..] == [];
      assert UnparseSuffixes([s]) == UnparseSuffix(s) + UnparseSuffixes([]);
    }
  }

  /** The text `PrintsWrap` is about. */
  function Parts(t: Type, q: bool, d: Declarator): seq<Token>
    requires t.Arr? || t.Fn? ==> d.Direct?
  {
    WordTokens(Core(t, q).0) + (Qualifier(Core(t, q).1) + Unparse(Wrap(t, q, d)))
  }

  lemma PartsFollow(t: Type, u: Type, q: bool, r: bool, d: Declarator, e: Declarator)
    requires t.Arr? || t.Fn? ==> d.Direct?
    requires u.Arr? || u.Fn? ==> e.Direct?
    requires Core(t, q) == Core(u, r) && Wrap(t, q, d) == Wrap(u, r, e)
    ensures Parts(t, q, d) == Parts(u, r, e)
  {
  }

  lemma {:induction false} PrintsWrap(t: Type, q: bool, d: Declarator)
    requires t.Arr? || t.Fn? ==> d.Direct?
    ensures Around(t, q, d) == Parts(t, q, d)
    decreases t, 1
  {
    hide Prefix, Suffix, Strip, P, S, Unparse, Parts;
    match t
    case Base(ws) =>
      PrintsBase(ws, q, d);
    case Ptr(c, b) =>
      PrintsPointer(c, b, q, d);
    case Arr(n, e) =>
      PrintsWrap(e, q, Append(d, Array(n)));
      ArrText(n, e);
      UnparseAppend(d, Array(n));
      assert Around(t, q, d) == Around(e, q, Append(d, Array(n)));
      PartsFollow(t, e, q, q, d, Append(d, Array(n)));
    case Fn(ps, r) =>
      PrintsFn(ps, r, q, d);
    case FnPtr(ps, r) =>
      PrintsFnPtr(ps, r, q, d);
  }

  lemma PrintsBase(ws: seq<string>, q: bool, d: Declarator)
    ensures Around(Base(ws), q, d) == Parts(Base(ws), q, d)
  {
    hide Prefix, Suffix, Strip, P, S, Unparse;
    BaseText(ws);
  }

  lemma PrintsVoidPointer(c: bool, q: bool, d: Declarator)
    ensures Around(Ptr(c, VOID), q, d) == Parts(Ptr(c, VOID), q, d)
  {
    hide Prefix, Suffix, Strip, P, S;
    VoidText(c);
    assert WordTokens(["void"]) == [Word("void")] + WordTokens([]);
    assert WordTokens(["void"]) == [Word("void")];
    assert Core(Ptr(c, VOID), q) == (["void"], false) && Wrap(Ptr(c, VOID), q, d) == Pointer(q, d);
  }

  lemma {:induction false} PrintsPointer(c: bool, b: Type, q: bool, d: Declarator)
    ensures Around(Ptr(c, b), q, d) == Parts(Ptr(c, b), q, d)
    decreases b, 3
  {
    hide Prefix, Suffix, Strip, P, S, Parts, UnparseHead;
    var p := Pointer(q, d);
    if b == VOID {
      PrintsVoidPointer(c, q, d);
    } else if NeedsParens(b) {
      var g := Direct(Group(p), []);
      PtrText(c, b);
      PrintsWrap(b, c, g);
      UnparseGroup(Group(p));
      Regroup(P(b), Qualifier(c), Unparse(d), S(b), d, q);
      assert Around(Ptr(c, b), q, d) == Around(b, c, g);
      PartsFollow(Ptr(c, b), b, q, c, d, g);
    } else {
      PtrText(c, b);
      PrintsWrap(b, c, p);
      assert Around(Ptr(c, b), q, d) == Around(b, c, p);
      PartsFollow(Ptr(c, b), b, q, c, d, p);
    }
  }

  lemma {:induction false} PrintsFn(ps: seq<Type>, r: Type, q: bool, d: Declarator)
    requires d.Direct?
    ensures Around(Fn(ps, r), q, d) == Parts(Fn(ps, r), q, d)
    decreases Fn(ps, r), 0
  {
    hide Prefix, Suffix, Strip, P, S, Params, UnparseParams, Parts;
    var s := Function(ParamDecls(ps));
    FnText(ps, r);
    PrintsParams(ps);
    UnparseAppend(d, s);
    PrintsWrap(r, q, Append(d, s));
    assert Around(Fn(ps, r), q, d) == Around(r, q, Append(d, s));
    PartsFollow(Fn(ps, r), r, q, q, d, Append(d, s));
  }

  lemma {:induction false} PrintsFnPtr(ps: seq<Type>, r: Type, q: bool, d: Declarator)
    ensures Around(FnPtr(ps, r), q, d) == Parts(FnPtr(ps, r), q, d)
    decreases FnPtr(ps, r), 0
  {
    hide Prefix, Suffix, Strip, P, S, Params, UnparseParams, Unparse, UnparseHead, Parts;
    var s := Function(ParamDecls(ps));
    var h := Group(Pointer(q, d));
    FnPtrText(ps, r);
    PrintsParams(ps);
    PrintsWrap(r, false, Direct(h, [s]));
    UnparseGroup(h);
    var tail := UnparseSuffix(s) + S(r);
    assert S(FnPtr(ps, r)) == [RPar] + tail;
    Regroup(P(r), [], Unparse(d), tail, d, q);
    assert P(r) + [] == P(r);
    assert Around(FnPtr(ps, r), q, d) == Around(r, false, Direct(h, [s]));
    PartsFollow(FnPtr(ps, r), r, q, false, d, Direct(h, [s]));
  }

  lemma BaseText(ws: seq<string>)
    ensures P(Base(ws)) == WordTokens(ws) && S(Base(ws)) == []
  {
    StripWords(ws);
  }

  lemma {:induction false} PrintsParams(ps: seq<Type>)
    ensures Strip(Params(ps)) == UnparseParams(ParamDecls(ps))
    decreases ps, 3
  {
    StripSingle(Word("void"));
    if ps == [VOID] {
      assert Prefix(VOID) == [Word("void")] && Suffix(VOID) == [];
      assert ParamList(ps) == Prefix(VOID) + Suffix(VOID) + [];
      assert Params(ps) == [Word("void")];
    } else if ps != [] {
      PrintsList(ps);
    }
  }

  lemma {:induction false} PrintsList(ps: seq<Type>)
    requires ps != []
    ensures Strip(ParamList(ps)) == UnparseList(DeclsOf(ps))
    decreases ps, 2
  {
    hide Strip, Prefix, Suffix, Unparse, Wrap, Core;
    PrintsUnnamed(ps[0]);
    var head := Prefix(ps[0]) + Suffix(ps[0]);
    if |ps| == 1 {
      assert ParamList(ps) == head + [];
      assert ParamList(ps) == head;
      assert DeclsOf(ps[1..]) == [];
      assert DeclsOf(ps) == [DeclOf(ps[0], None)];
    } else {
      PrintsList(ps[1..]);
      StripConcat(head, [Comma, Space] + ParamList(ps[1..]));
      StripConcat([Comma, Space], ParamList(ps[1..]));
      assert [Comma, Space] == [Comma] + [Space];
      StripConcat([Comma], [Space]);
      StripSingle(Comma);
      StripSingle(Space);
      assert DeclsOf(ps)[1..] == DeclsOf(ps[1..]);
      assert |DeclsOf(ps[1..])| > 0;
    }
  }

  lemma {:induction false} PrintsUnnamed(t: Type)
    ensures Strip(Prefix(t) + Suffix(t)) == UnparseDecl(DeclOf(t, None))
    decreases t, 2
  {
    hide Strip, Prefix, Suffix, Wrap, Core;
    var d := Direct(Named(None), []);
    PrintsWrap(t, false, d);
    StripConcat(Prefix(t), Suffix(t));
    assert Unparse(d) == [];
    assert Around(t, false, d) == P(t) + S(t);
  }

  /** What stands between the prefix and the suffix. */
  function Middle(t: Type, name: Option<string>): seq<Token> {
    if name.Some? then Gap(Prefix(t)) + [Name(name.value)] else []
  }

  lemma MiddleText(t: Type, name: Option<string>)
    ensures Strip(Middle(t, name)) == Unparse(Direct(Named(name), []))
  {
    hide Strip, Prefix;
    UnparseGroup(Named(name));
    StripEmpty();
    if name.Some? {
      StripConcat(Gap(Prefix(t)), [Name(name.value)]);
      StripSingle(Space);
      StripSingle(Name(name.value));
    }
  }

  lemma PrintsDeclaration(t: Type, name: Option<string>)
    ensures Strip(Declaration(t, name)) == UnparseDecl(DeclOf(t, name))
  {
    hide Strip, Prefix, Suffix, Wrap, Core, Unparse, Middle;
    var d := Direct(Named(name), []);
    PrintsWrap(t, false, d);
    MiddleText(t, name);
    DeclarationText(t, name);
    StripConcat(Prefix(t) + Middle(t, name), Suffix(t));
    StripConcat(Prefix(t), Middle(t, name));
    assert Qualifier(false) == [];
    assert Around(t, false, d) == P(t) + Unparse(d) + S(t);
  }

  lemma DeclarationText(t: Type, name: Option<string>)
    ensures Declaration(t, name) == Prefix(t) + Middle(t, name) + Suffix(t)
  {
    hide Prefix, Suffix;
  }

  lemma StripEmpty()
    ensures Strip([]) == []
  {
  }

  // ----- The wrapped declarator is one the grammar determines -----

  function Weight(d: Declarator): nat {
    match d
    case Pointer(_, inner) => 1 + Weight(inner)
    case Direct(Named(_), ss) => |ss|
    case Direct(Group(inner), ss) => 1 + Weight(inner) + |ss|
  }

  lemma {:induction false} WrapGrows(t: Type, q: bool, d: Declarator)
    requires t.Arr? || t.Fn? ==> d.Direct?
    ensures Weight(Wrap(t, q, d)) >= Weight(d) + (if t.Base? then 0 else 1)
    ensures NameOf(Wrap(t, q, d)) == NameOf(d)
    decreases t
  {
    hide ParamDecls;
    match t
    case Base(_) =>
    case Ptr(c, b) =>
      if b != VOID {
        WrapGrows(b, c, if NeedsParens(b) then Direct(Group(Pointer(q, d)), []) else Pointer(q, d));
      }
    case Arr(n, e) => WrapGrows(e, q, Append(d, Array(n)));
    case Fn(ps, r) => WrapGrows(r, q, Append(d, Function(ParamDecls(ps))));
    case FnPtr(ps, r) => WrapGrows(r, false, Direct(Group(Pointer(q, d)), [Function(ParamDecls(ps))]));
  }

  /** Only `void` is printed like `void`. */
  lemma OnlyVoid(t: Type)
    ensures DeclOf(t, None) == VOID_DECL ==> t == VOID
  {
    WrapGrows(t, false, Direct(Named(None), []));
  }

  lemma {:induction false} WrapProper(t: Type, q: bool, d: Declarator)
    requires Wf(t) && Proper(d)
    requires t.Arr? || t.Fn? ==> d.Direct?
    ensures Proper(Wrap(t, q, d)) && Core(t, q).0 != []
    decreases t, 1
  {
    match t
    case Base(_) =>
    case Ptr(c, b) =>
      if b != VOID {
        WrapProper(b, c, if NeedsParens(b) then Direct(Group(Pointer(q, d)), []) else Pointer(q, d));
      }
    case Arr(n, e) => WrapProper(e, q, Append(d, Array(n)));
    case Fn(ps, r) =>
      ParamsProper(ps);
      WrapProper(r, q, Append(d, Function(ParamDecls(ps))));
    case FnPtr(ps, r) =>
      ParamsProper(ps);
      WrapProper(r, false, Direct(Group(Pointer(q, d)), [Function(ParamDecls(ps))]));
  }

  lemma {:induction false} ParamsProper(ps: seq<Type>)
    requires forall p <- ps :: Wf(p)
    ensures ProperSuffix(Function(ParamDecls(ps)))
    decreases ps, 3
  {
    DeclsProper(ps);
    if ps != [] {
      assert DeclsOf(ps)[0] == DeclOf(ps[0], None);
      OnlyVoid(ps[0]);
      assert ps == [VOID] || |ps| != 1 || ps[0] != VOID;
    }
  }

  lemma {:induction false} DeclsProper(ps: seq<Type>)
    requires forall p <- ps :: Wf(p)
    ensures |DeclsOf(ps)| == |ps|
    ensures forall p <- DeclsOf(ps) :: ProperDecl(p)
    decreases ps, 2
  {
    if ps != [] {
      DeclsProper(ps[1..]);
      WrapProper(ps[0], false, Direct(Named(None), []));
    }
  }

  // ----- The type it declares -----

  /** `const` written in front of the pointer to `x`: it lands on what the specifiers or the nearest star give. */
  function Written(q: bool, x: CType): CType {
    if !q then x
    else
      match x
      case CBase(ws, _) => CBase(ws, true)
      case CPtr(_, y) => CPtr(true, y)
      case CArr(n, y) => CArr(n, Written(q, y))
      case CFn(ps, y) => CFn(ps, Written(q, y))
  }

  /** The type the printed declaration of `t` has in C. */
  function Reading(t: Type): CType
    decreases t, 0
  {
    match t
    case Base(ws) => CBase(ws, false)
    case Ptr(c, b) => CPtr(false, if b == VOID then CBase(["void"], false) else Written(c, Reading(b)))
    case Arr(n, e) => CArr(n, Reading(e))
    case Fn(ps, r) => CFn(if ps == [VOID] then [] else Readings(ps), Reading(r))
    case FnPtr(ps, r) => CPtr(false, CFn(if ps == [VOID] then [] else Readings(ps), Reading(r)))
  }

  function Readings(ps: seq<Type>): seq<CType>
    decreases ps, 0
  {
    if ps == [] then [] else [Reading(ps[0])] + Readings(ps[1..])
  }

  lemma {:induction false} ApplyAppended(ss: seq<Suffixed>, s: Suffixed, base: CType)
    ensures ApplySuffixes(ss + [s], base) == ApplySuffixes(ss, ApplySuffixes([s], base))
  {
    if ss == [] {
      assert ss + [s] == [s];
    } else {
      ApplyAppended(ss[1..], s, base);
      assert (ss + [s])[1..] == ss[1..] + [s];
    }
  }

  lemma ApplyAppend(d: Declarator, s: Suffixed, base: CType)
    requires d.Direct?
    ensures Apply(Append(d, s), base) == Apply(d, ApplySuffixes([s], base))
  {
    ApplyAppended(d.suffixes, s, base);
  }

  lemma SingleSuffix(s: Suffixed, base: CType)
    ensures ApplySuffixes([s], base) == if s.Array? then CArr(s.n, base) else CFn(DeclTypes(s.params), base)
  {
    assert [s][1..] == [];
    assert ApplySuffixes([s][1..], base) == base;
  }

  lemma {:induction false} WrapMeans(t: Type, q: bool, d: Declarator)
    requires t.Arr? || t.Fn? ==> d.Direct?
    ensures Apply(Wrap(t, q, d), CBase(Core(t, q).0, Core(t, q).1)) == Apply(d, Written(q, Reading(t)))
    decreases t, 1
  {
    hide DeclTypes, ApplySuffixes, ParamDecls;
    var base := CBase(Core(t, q).0, Core(t, q).1);
    match t
    case Base(_) =>
    case Ptr(c, b) =>
      var p := Pointer(q, d);
      if b != VOID {
        var g := Direct(Group(p), []);
        NoSuffixes(Written(c, Reading(b)));
        WrapMeans(b, c, if NeedsParens(b) then g else p);
      }
    case Arr(n, e) =>
      WrapMeans(e, q, Append(d, Array(n)));
      ApplyAppend(d, Array(n), Written(q, Reading(e)));
      SingleSuffix(Array(n), Written(q, Reading(e)));
    case Fn(ps, r) =>
      var s := Function(ParamDecls(ps));
      WrapMeans(r, q, Append(d, s));
      ApplyAppend(d, s, Written(q, Reading(r)));
      SingleSuffix(s, Written(q, Reading(r)));
      ParamsMean(ps);
    case FnPtr(ps, r) =>
      var s := Function(ParamDecls(ps));
      WrapMeans(r, false, Direct(Group(Pointer(q, d)), [s]));
      SingleSuffix(s, Reading(r));
      ParamsMean(ps);
  }

  lemma NoSuffixes(base: CType)
    ensures ApplySuffixes([], base) == base
  {
  }

  lemma {:induction false} ParamsMean(ps: seq<Type>)
    ensures DeclTypes(ParamDecls(ps)) == if ps == [VOID] then [] else Readings(ps)
    decreases ps, 3
  {
    if ps != [VOID] {
      DeclsMean(ps);
    }
  }

  lemma {:induction false} DeclsMean(ps: seq<Type>)
    ensures DeclTypes(DeclsOf(ps)) == Readings(ps)
    decreases ps, 2
  {
    if ps != [] {
      DeclsMean(ps[1..]);
      var d := Direct(Named(None), []);
      WrapMeans(ps[0], false, d);
      NoSuffixes(Reading(ps[0]));
      assert DeclsOf(ps)[1..] == DeclsOf(ps[1..]);
    }
  }

  /** Every printed declaration is one declaration of its name, with type `Reading(t)`. */
  lemma DeclarationReadsBack(t: Type, name: Option<string>)
    requires Wf(t)
    ensures ReadBack(Declaration(t, name)) == Some((name, Reading(t)))
  {
    hide ReadDecl, Strip, Wrap, Core, UnparseDecl;
    var d := Direct(Named(name), []);
    PrintsDeclaration(t, name);
    WrapProper(t, false, d);
    WrapGrows(t, false, d);
    WrapMeans(t, false, d);
    NoSuffixes(Reading(t));
    var p := DeclOf(t, name);
    DeclReads(p, []);
    assert UnparseDecl(p) + [] == UnparseDecl(p);
  }

  // ----- When that is the intended type -----

  /** A qualified array is an array of qualified elements; functions take no qualifier. */
  function Qualified(q: bool, x: CType): CType {
    if !q then x
    else
      match x
      case CBase(ws, _) => CBase(ws, true)
      case CPtr(_, y) => CPtr(true, y)
      case CArr(n, y) => CArr(n, Qualified(q, y))
      case CFn(_, _) => x
  }

  /** The C type the compiler means; `const` on a pointer to `void` is dropped on purpose. */
  function Intended(t: Type): CType
    decreases t, 0
  {
    match t
    case Base(ws) => CBase(ws, false)
    case Ptr(c, b) => CPtr(false, Qualified(c && b != VOID, Intended(b)))
    case Arr(n, e) => CArr(n, Intended(e))
    case Fn(ps, r) => CFn(IntendedAll(ps), Intended(r))
    case FnPtr(ps, r) => CPtr(false, CFn(IntendedAll(ps), Intended(r)))
  }

  function IntendedAll(ps: seq<Type>): seq<CType>
    decreases ps, 0
  {
    if ps == [] then [] else [Intended(ps[0])] + IntendedAll(ps[1..])
  }

  predicate FunctionInArrays(t: Type) {
    t.Fn? || (t.Arr? && FunctionInArrays(t.elem))
  }

  /** No pointer to constant functions, and no parameter list consisting of `void` alone. */
  predicate Clean(t: Type)
    decreases t, 0
  {
    match t
    case Base(_) => true
    case Ptr(c, b) => !(c && FunctionInArrays(b)) && Clean(b)
    case Arr(_, e) => Clean(e)
    case Fn(ps, r) => ps != [VOID] && (forall p <- ps :: Clean(p)) && Clean(r)
    case FnPtr(ps, r) => ps != [VOID] && (forall p <- ps :: Clean(p)) && Clean(r)
  }

  /** Is the place a leading `const` lands on already constant? */
  predicate TopConst(x: CType) {
    match x
    case CBase(_, c) => c
    case CPtr(c, _) => c
    case CArr(_, y) => TopConst(y)
    case CFn(_, y) => TopConst(y)
  }

  predicate CFunctionInArrays(x: CType) {
    x.CFn? || (x.CArr? && CFunctionInArrays(x.elem))
  }

  lemma {:induction false} WrittenFacts(x: CType, y: CType)
    ensures TopConst(Written(true, x))
    ensures !TopConst(x) && !TopConst(y) && Written(true, x) == Written(true, y) ==> x == y
    ensures Qualified(true, x) == if CFunctionInArrays(x) then x else Written(true, x)
  {
    match x
    case CBase(_, _) =>
    case CPtr(_, _) =>
    case CArr(_, e) => WrittenFacts(e, if y.CArr? then y.elem else y);
    case CFn(_, r) => WrittenFacts(r, if y.CFn? then y.ret else y);
  }

  lemma {:induction false} TypeFacts(t: Type)
    ensures !TopConst(Reading(t)) && !TopConst(Intended(t))
    ensures CFunctionInArrays(Intended(t)) <==> FunctionInArrays(t)
  {
    match t
    case Base(_) =>
    case Ptr(_, _) =>
    case Arr(_, e) => TypeFacts(e);
    case Fn(_, r) => TypeFacts(r);
    case FnPtr(_, r) =>
  }

  lemma {:induction false} ReadingIsIntended(t: Type)
    ensures Reading(t) == Intended(t) <==> Clean(t)
    decreases t, 0
  {
    match t
    case Base(_) =>
    case Ptr(c, b) =>
      if b != VOID {
        ReadingIsIntended(b);
        TypeFacts(b);
        WrittenFacts(Intended(b), Reading(b));
        WrittenFacts(Reading(b), Intended(b));
      }
    case Arr(_, e) => ReadingIsIntended(e);
    case Fn(ps, r) =>
      ReadingsAreIntended(ps);
      ReadingIsIntended(r);
    case FnPtr(ps, r) =>
      ReadingsAreIntended(ps);
      ReadingIsIntended(r);
  }

  lemma {:induction false} ReadingsAreIntended(ps: seq<Type>)
    ensures Readings(ps) == IntendedAll(ps) <==> forall p <- ps :: Clean(p)
    ensures |IntendedAll(ps)| == |ps|
    decreases ps, 0
  {
    if ps != [] {
      ReadingIsIntended(ps[0]);
      ReadingsAreIntended(ps[1..]);
      assert Readings(ps)[0] == Reading(ps[0]) && Readings(ps)[1..] == Readings(ps[1..]);
      assert IntendedAll(ps)[0] == Intended(ps[0]) && IntendedAll(ps)[1..] == IntendedAll(ps[1..]);
      assert forall p <- ps :: p == ps[0] || p in ps[1..];
    }
  }

  /** The round trip is exact if and only if the type is clean. */
  lemma RoundTripIff(t: Type, name: Option<string>)
    requires Wf(t)
    ensures ReadBack(Declaration(t, name)) == Some((name, Intended(t))) <==> Clean(t)
  {
    DeclarationReadsBack(t, name);
    ReadingIsIntended(t);
  }

  /** A pointer to a constant function is declared as a pointer to a function returning a constant. */
  lemma ConstFunctionMisread()
    ensures var t := Ptr(true, Fn([], Base(["int"])));
            ReadBack(Declaration(t, Some("f"))) == Some((Some("f"), CPtr(false, CFn([], CBase(["int"], true)))))
  {
    hide ReadBack, Declaration;
    DeclarationReadsBack(Ptr(true, Fn([], Base(["int"]))), Some("f"));
  }

  /** A function taking one `void` parameter is declared as a function taking none. */
  lemma VoidParameterMisread()
    ensures var t := Fn([VOID], Base(["int"]));
            ReadBack(Declaration(t, Some("f"))) == Some((Some("f"), CFn([], CBase(["int"], false))))
            && Intended(t) != Reading(t)
  {
    hide ReadBack, Declaration;
    DeclarationReadsBack(Fn([VOID], Base(["int"])), Some("f"));
    assert |IntendedAll([VOID])| == 1;
  }

  // ----- Words stay apart -----

  predicate WordLike(x: Token) {
    x.Word? || x.Const? || x.Name? || x.Num?
  }

  /** Once spelled as characters, neighbouring words do not run together. */
  predicate Spaced(s: seq<Token>) {
    forall i :: 0 <= i < |s| - 1 ==> !(WordLike(s[i]) && WordLike(s[i + 1]))
  }

  predicate Joins(a: seq<Token>, b: seq<Token>) {
    a == [] || b == [] || !(WordLike(a[|a| - 1]) && WordLike(b[0]))
  }

  lemma SpacedConcat(a: seq<Token>, b: seq<Token>)
    requires Spaced(a) && Spaced(b) && Joins(a, b)
    ensures Spaced(a + b)
  {
    forall i | 0 <= i < |a + b| - 1
      ensures !(WordLike((a + b)[i]) && WordLike((a + b)[i + 1]))
    {
      if i + 1 < |a| {
        assert (a + b)[i] == a[i] && (a + b)[i + 1] == a[i + 1];
      } else if i >= |a| {
        assert (a + b)[i] == b[i - |a|] && (a + b)[i + 1] == b[i - |a| + 1];
      }
    }
  }

  lemma {:induction false} WordsSpaced(ws: seq<string>)
    ensures Spaced(Words(ws))
  {
    if |ws| > 1 {
      WordsSpaced(ws[1..]);
      SpacedConcat([Word(ws[0]), Space], Words(ws[1..]));
    }
  }

  lemma {:induction false} PrefixSpaced(t: Type)
    requires Wf(t)
    ensures Prefix(t) != [] && Spaced(Prefix(t))
  {
    match t
    case Base(ws) => WordsSpaced(ws);
    case Ptr(c, b) =>
      if b != VOID {
        PrefixSpaced(b);
        SpacedConcat(Prefix(b), (if c then [Space, Const] else [])
          + (if NeedsParens(b) then [Space, LPar, Star] else [Star]));
      }
    case Arr(_, e) => PrefixSpaced(e);
    case Fn(_, r) => PrefixSpaced(r);
    case FnPtr(_, r) =>
      PrefixSpaced(r);
      SpacedConcat(Prefix(r), [Space, LPar, Star]);
  }

  lemma {:induction false} SuffixSpaced(t: Type)
    requires Wf(t)
    ensures Spaced(Suffix(t)) && (Suffix(t) != [] ==> !WordLike(Suffix(t)[0]))
    decreases t, 1
  {
    match t
    case Base(_) =>
    case Ptr(_, b) =>
      if b != VOID {
        SuffixSpaced(b);
        SpacedConcat(if NeedsParens(b) then [RPar] else [], Suffix(b));
      }
    case Arr(n, e) =>
      SuffixSpaced(e);
      SpacedConcat([LBrk, Num(n), RBrk], Suffix(e));
    case Fn(ps, r) => CallSpaced(t, ps, r);
    case FnPtr(ps, r) =>
      CallSpaced(t, ps, r);
      SpacedConcat([RPar], [LPar] + Params(ps) + [RPar] + Suffix(r));
  }

  lemma {:induction false} CallSpaced(t: Type, ps: seq<Type>, r: Type)
    requires t == Fn(ps, r) || t == FnPtr(ps, r)
    requires Wf(r) && forall p <- ps :: Wf(p)
    ensures Spaced([LPar] + Params(ps) + [RPar] + Suffix(r))
    decreases t, 0
  {
    hide Suffix, Params;
    SuffixSpaced(r);
    ParamsSpaced(ps);
    SpacedConcat([LPar], Params(ps));
    SpacedConcat([LPar] + Params(ps), [RPar]);
    SpacedConcat([LPar] + Params(ps) + [RPar], Suffix(r));
  }

  lemma {:induction false} ParamsSpaced(ps: seq<Type>)
    requires forall p <- ps :: Wf(p)
    ensures Spaced(Params(ps))
    decreases ps, 0
  {
    if ps != [] {
      var head := Prefix(ps[0]) + Suffix(ps[0]);
      PrefixSpaced(ps[0]);
      SuffixSpaced(ps[0]);
      SpacedConcat(Prefix(ps[0]), Suffix(ps[0]));
      if |ps| > 1 {
        ParamsSpaced(ps[1..]);
        SpacedConcat([Comma, Space], ParamList(ps[1..]));
        SpacedConcat(head, [Comma, Space] + ParamList(ps[1..]));
      }
    }
  }

  lemma DeclarationSpaced(t: Type, name: Option<string>)
    requires Wf(t)
    ensures Spaced(Declaration(t, name))
  {
    hide Prefix, Suffix, Wf;
    PrefixSpaced(t);
    SuffixSpaced(t);
    if name.Some? {
      SpacedConcat(Gap(Prefix(t)), [Name(name.value)]);
      SpacedConcat(Prefix(t), Gap(Prefix(t)) + [Name(name.value)]);
      SpacedConcat(Prefix(t) + (Gap(Prefix(t)) + [Name(name.value)]), Suffix(t));
    } else {
      SpacedConcat(Prefix(t), Suffix(t));
      assert Declaration(t, name) == Prefix(t) + Suffix(t);
    }
  }
}
