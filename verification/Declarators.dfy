/**
 The inside-out C declarator printer, and a reader for C declarators (section 6.5.4 of
 ISO/IEC 9899:1990).  Text is a sequence of tokens with the spaces the printer writes.
 */
module Declarators {
  import opened Options

  /** Compiler types as far as declarators see them; `isConst` on a pointer qualifies what it points to. */
  datatype Type =
    | Base(words: seq<string>)
    | Ptr(isConst: bool, to: Type)
    | Arr(size: nat, elem: Type)
    | Fn(params: seq<Type>, ret: Type)
    | FnPtr(params: seq<Type>, ret: Type)

  const VOID := Base(["void"])

  datatype Token =
    | Word(w: string)       // a type specifier keyword, tag or typedef name
    | Const
    | Star
    | LPar | RPar | LBrk | RBrk | Comma
    | Num(n: nat)
    | Name(x: string)       // the declared identifier
    | Space

  // ----- Printing -----

  function Words(ws: seq<string>): seq<Token> {
    if ws == [] then [] else if |ws| == 1 then [Word(ws[0])] else [Word(ws[0]), Space] + Words(ws[1..])
  }

  predicate NeedsParens(t: Type) {
    t.Arr? || t.Fn? || t.FnPtr?
  }

  function Prefix(t: Type): seq<Token> {
    match t
    case Base(ws) => Words(ws)
    case Ptr(c, b) =>
      if b == VOID then [Word("void"), Space, Star]
      else Prefix(b) + ((if c then [Space, Const] else []) + (if NeedsParens(b) then [Space, LPar, Star] else [Star]))
    case Arr(_, e) => Prefix(e)
    case Fn(_, r) => Prefix(r)
    case FnPtr(_, r) => Prefix(r) + [Space, LPar, Star]
  }

  function Suffix(t: Type): seq<Token>
    decreases t, 1
  {
    match t
    case Base(_) => []
    case Ptr(_, b) =>
      if b == VOID then [] else (if NeedsParens(b) then [RPar] else []) + Suffix(b)
    case Arr(n, e) => [LBrk, Num(n), RBrk] + Suffix(e)
    case Fn(ps, r) => [LPar] + Params(ps) + [RPar] + Suffix(r)
    case FnPtr(ps, r) => [RPar] + ([LPar] + Params(ps) + [RPar] + Suffix(r))
  }

  /** `void` for an empty list, otherwise unnamed declarators separated by commas. */
  function Params(ps: seq<Type>): seq<Token>
    decreases ps, 3
  {
    if ps == [] then [Word("void")] else ParamList(ps)
  }

  function ParamList(ps: seq<Type>): seq<Token>
    requires ps != []
    decreases ps, 2
  {
    Prefix(ps[0]) + Suffix(ps[0]) + (if |ps| == 1 then [] else [Comma, Space] + ParamList(ps[1..]))
  }

  /** A space before the name unless one, or an opening parenthesis, is already there. */
  function Gap(before: seq<Token>): seq<Token> {
    if before != [] && (before[|before| - 1] == LPar || before[|before| - 1] == Space) then [] else [Space]
  }

  function Declaration(t: Type, name: Option<string>): seq<Token> {
    Prefix(t) + (if name.Some? then Gap(Prefix(t)) + [Name(name.value)] else []) + Suffix(t)
  }

  // ----- Reading -----

  /** C types: a qualifier sits on the thing it qualifies. */
  datatype CType =
    | CBase(words: seq<string>, isConst: bool)
    | CPtr(isConst: bool, to: CType)
    | CArr(size: nat, elem: CType)
    | CFn(params: seq<CType>, ret: CType)

  /** Declarators: pointers in front of a head followed by array and function suffixes. */
  datatype Declarator = Pointer(isConst: bool, d: Declarator) | Direct(head: Head, suffixes: seq<Suffixed>)
  datatype Head = Named(x: Option<string>) | Group(d: Declarator)
  datatype Suffixed = Array(n: nat) | Function(params: seq<Decl>)
  datatype Decl = Decl(words: seq<string>, isConst: bool, d: Declarator)

  /** The type a declarator gives its identifier, by the rules of section 6.5.4. */
  function Apply(d: Declarator, base: CType): CType
    decreases d, 0
  {
    match d
    case Pointer(c, inner) => Apply(inner, CPtr(c, base))
    case Direct(h, ss) =>
      var t := ApplySuffixes(ss, base);
      match h
      case Named(_) => t
      case Group(inner) => Apply(inner, t)
  }

  function ApplySuffixes(ss: seq<Suffixed>, base: CType): CType
    decreases ss, 0
  {
    if ss == [] then base
    else
      match ss[0]
      case Array(n) => CArr(n, ApplySuffixes(ss[1..], base))
      case Function(ps) => CFn(DeclTypes(ps), ApplySuffixes(ss[1..], base))
  }

  function DeclTypes(ps: seq<Decl>): seq<CType>
    decreases ps, 0
  {
    if ps == [] then [] else [Apply(ps[0].d, CBase(ps[0].words, ps[0].isConst))] + DeclTypes(ps[1..])
  }

  type Parsed<T> = Option<(T, seq<Token>)>

  function SkipWords(toks: seq<Token>): (r: (seq<string>, seq<Token>))
    ensures |r.1| <= |toks| && (toks != [] && toks[0].Word? ==> |r.1| < |toks|)
  {
    if toks == [] || !toks[0].Word? then ([], toks)
    else
      var (ws, rest) := SkipWords(toks[1..]);
      ([toks[0].w] + ws, rest)
  }

  function ReadDecl(toks: seq<Token>): (r: Parsed<Decl>)
    ensures r.Some? ==> |r.value.1| < |toks|
    decreases |toks|, 3
  {
    if toks == [] || !toks[0].Word? then None
    else
      var (ws, rest) := SkipWords(toks);
      var c := rest != [] && rest[0].Const?;
      var rest1 := if c then rest[1..] else rest;
      match ReadDeclarator(rest1)
      case None => None
      case Some((d, rest2)) => Some((Decl(ws, c, d), rest2))
  }

  function ReadDeclarator(toks: seq<Token>): (r: Parsed<Declarator>)
    ensures r.Some? ==> |r.value.1| <= |toks|
    decreases |toks|, 2
  {
    if toks != [] && toks[0].Star? then
      var c := |toks| > 1 && toks[1].Const?;
      match ReadDeclarator(if c then toks[2..] else toks[1..])
      case None => None
      case Some((d, rest)) => Some((Pointer(c, d), rest))
    else
      match ReadHead(toks)
      case None => None
      case Some((h, rest)) =>
        match ReadSuffixes(rest)
        case None => None
        case Some((ss, rest1)) => Some((Direct(h, ss), rest1))
  }

  /** In front of an unnamed declarator, a parenthesis opens a group unless a parameter list can start there. */
  function ReadHead(toks: seq<Token>): (r: Parsed<Head>)
    ensures r.Some? ==> |r.value.1| <= |toks|
    decreases |toks|, 1
  {
    if toks != [] && toks[0].Name? then Some((Named(Some(toks[0].x)), toks[1..]))
    else if |toks| > 1 && toks[0].LPar? && (toks[1].Star? || toks[1].LPar? || toks[1].LBrk? || toks[1].Name?) then
      match ReadDeclarator(toks[1..])
      case None => None
      case Some((d, rest)) => if rest != [] && rest[0].RPar? then Some((Group(d), rest[1..])) else None
    else Some((Named(None), toks))
  }

  function ReadSuffixes(toks: seq<Token>): (r: Parsed<seq<Suffixed>>)
    ensures r.Some? ==> |r.value.1| <= |toks|
    decreases |toks|, 0
  {
    if |toks| >= 3 && toks[0].LBrk? && toks[1].Num? && toks[2].RBrk? then
      match ReadSuffixes(toks[3..])
      case None => None
      case Some((ss, rest)) => Some(([Array(toks[1].n)] + ss, rest))
    else if toks != [] && toks[0].LPar? then
      match ReadParams(toks[1..])
      case None => None
      case Some((ps, rest)) =>
        match ReadSuffixes(rest)
        case None => None
        case Some((ss, rest1)) => Some(([Function(ps)] + ss, rest1))
    else Some(([], toks))
  }

  /** A parameter list up to and including its closing parenthesis; `(void)` is the empty list. */
  function ReadParams(toks: seq<Token>): (r: Parsed<seq<Decl>>)
    ensures r.Some? ==> |r.value.1| <= |toks|
    decreases |toks|, 5
  {
    if |toks| >= 2 && toks[0] == Word("void") && toks[1].RPar? then Some(([], toks[2..])) else ReadParamList(toks)
  }

  function ReadParamList(toks: seq<Token>): (r: Parsed<seq<Decl>>)
    ensures r.Some? ==> |r.value.1| <= |toks|
    decreases |toks|, 4
  {
    match ReadDecl(toks)
    case None => None
    case Some((p, rest)) =>
      if rest != [] && rest[0].RPar? then Some(([p], rest[1..]))
      else if rest != [] && rest[0].Comma? then
        match ReadParamList(rest[1..])
        case None => None
        case Some((ps, rest1)) => Some(([p] + ps, rest1))
      else None
  }

  /** The reader proper sees no spaces. */
  function Strip(toks: seq<Token>): seq<Token> {
    if toks == [] then [] else (if toks[0].Space? then [] else [toks[0]]) + Strip(toks[1..])
  }

  function NameOf(d: Declarator): Option<string> {
    match d
    case Pointer(_, inner) => NameOf(inner)
    case Direct(Named(x), _) => x
    case Direct(Group(inner), _) => NameOf(inner)
  }

  /** A whole declaration: the identifier it declares, if any, and its type. */
  function ReadBack(text: seq<Token>): Option<(Option<string>, CType)> {
    match ReadDecl(Strip(text))
    case None => None
    case Some((p, rest)) =>
      if rest == [] then Some((NameOf(p.d), Apply(p.d, CBase(p.words, p.isConst)))) else None
  }

  // ----- Declarators written out -----

  function Qualifier(c: bool): seq<Token> {
    if c then [Const] else []
  }

  function WordTokens(ws: seq<string>): seq<Token> {
    if ws == [] then [] else [Word(ws[0])] + WordTokens(ws[1..])
  }

  function Unparse(d: Declarator): seq<Token>
    decreases d, 0
  {
    match d
    case Pointer(c, inner) => [Star] + (Qualifier(c) + Unparse(inner))
    case Direct(h, ss) => UnparseHead(h) + UnparseSuffixes(ss)
  }

  function UnparseHead(h: Head): seq<Token>
    decreases h, 0
  {
    match h
    case Named(None) => []
    case Named(Some(x)) => [Name(x)]
    case Group(inner) => [LPar] + (Unparse(inner) + [RPar])
  }

  function UnparseSuffixes(ss: seq<Suffixed>): seq<Token>
    decreases ss, 0
  {
    if ss == [] then [] else UnparseSuffix(ss[0]) + UnparseSuffixes(ss[1..])
  }

  function UnparseSuffix(s: Suffixed): seq<Token>
    decreases s, 0
  {
    match s
    case Array(n) => [LBrk, Num(n), RBrk]
    case Function(ps) => [LPar] + (UnparseParams(ps) + [RPar])
  }

  function UnparseParams(ps: seq<Decl>): seq<Token>
    decreases ps, 1
  {
    if ps == [] then [Word("void")] else UnparseList(ps)
  }

  function UnparseList(ps: seq<Decl>): seq<Token>
    requires ps != []
    decreases ps, 0
  {
    UnparseDecl(ps[0]) + (if |ps| == 1 then [] else [Comma] + UnparseList(ps[1..]))
  }

  function UnparseDecl(p: Decl): seq<Token>
    decreases p, 0
  {
    WordTokens(p.words) + (Qualifier(p.isConst) + Unparse(p.d))
  }

  const VOID_DECL := Decl(["void"], false, Direct(Named(None), []))

  /** Declarators the grammar determines: groups hold pointers, specifiers are not empty, no sole `void`. */
  predicate Proper(d: Declarator)
    decreases d, 0
  {
    match d
    case Pointer(_, inner) => Proper(inner)
    case Direct(h, ss) => (h.Group? ==> h.d.Pointer? && Proper(h.d)) && forall s <- ss :: ProperSuffix(s)
  }

  predicate ProperSuffix(s: Suffixed)
    decreases s, 0
  {
    s.Function? ==> s.params != [VOID_DECL] && forall p <- s.params :: ProperDecl(p)
  }

  predicate ProperDecl(p: Decl)
    decreases p, 0
  {
    p.words != [] && Proper(p.d)
  }

  /** What may follow a declarator: the end, a comma or a closing parenthesis. */
  predicate Closes(rest: seq<Token>) {
    rest == [] || rest[0].RPar? || rest[0].Comma?
  }

  lemma {:induction false} WordsRead(ws: seq<string>, rest: seq<Token>)
    requires rest == [] || !rest[0].Word?
    ensures SkipWords(WordTokens(ws) + rest) == (ws, rest)
  {
    if ws == [] {
      assert WordTokens(ws) + rest == rest;
    } else {
      WordsRead(ws[1..], rest);
      FirstWord(ws, rest);
      assert [ws[0]] + ws[1..] == ws;
    }
  }

  /** The first token of a declarator is never a specifier word, nor a qualifier. */
  lemma FirstToken(d: Declarator, rest: seq<Token>)
    requires Closes(rest)
    ensures var all := Unparse(d) + rest; all == [] || !(all[0].Word? || all[0].Const?)
  {
    match d
    case Pointer(c, inner) =>
    case Direct(h, ss) =>
      if h == Named(None) {
        assert Unparse(d) == UnparseSuffixes(ss);
        if ss == [] {
          assert Unparse(d) + rest == rest;
        } else {
          assert UnparseSuffixes(ss)[0] == UnparseSuffix(ss[0])[0];
        }
      }
  }

  lemma PointerStep(c: bool, more: seq<Token>, d: Declarator, rest: seq<Token>)
    requires more == [] || !more[0].Const?
    requires ReadDeclarator(more) == Some((d, rest))
    ensures ReadDeclarator([Star] + (Qualifier(c) + more)) == Some((Pointer(c, d), rest))
  {
    var all := [Star] + (Qualifier(c) + more);
    if c {
      assert all[1] == Const && all[2..] == more;
    } else {
      assert all[1..] == more;
    }
  }

  lemma DirectStep(all: seq<Token>, h: Head, more: seq<Token>, ss: seq<Suffixed>, rest: seq<Token>)
    requires all == [] || !all[0].Star?
    requires ReadHead(all) == Some((h, more)) && ReadSuffixes(more) == Some((ss, rest))
    ensures ReadDeclarator(all) == Some((Direct(h, ss), rest))
  {
  }

  lemma ArrayStep(n: nat, more: seq<Token>, ss: seq<Suffixed>, rest: seq<Token>)
    requires ReadSuffixes(more) == Some((ss, rest))
    ensures ReadSuffixes([LBrk, Num(n), RBrk] + more) == Some(([Array(n)] + ss, rest))
  {
    hide ReadParams, ReadDecl;
    assert ([LBrk, Num(n), RBrk] + more)[3..] == more;
  }

  lemma NoSuffix(rest: seq<Token>)
    requires Closes(rest)
    ensures ReadSuffixes(rest) == Some(([], rest))
  {
  }

  lemma FunctionStep(inner: seq<Token>, ps: seq<Decl>, more: seq<Token>, ss: seq<Suffixed>, rest: seq<Token>)
    requires ReadParams(inner) == Some((ps, more)) && ReadSuffixes(more) == Some((ss, rest))
    ensures ReadSuffixes([LPar] + inner) == Some(([Function(ps)] + ss, rest))
  {
    hide ReadParams, ReadDecl;
    assert ([LPar] + inner)[1..] == inner;
  }

  lemma GroupStep(inner: seq<Token>, d: Declarator, more: seq<Token>)
    requires inner != [] && inner[0].Star?
    requires ReadDeclarator(inner) == Some((d, [RPar] + more))
    ensures ReadHead([LPar] + inner) == Some((Group(d), more))
  {
    hide ReadDeclarator;
    assert ([LPar] + inner)[1..] == inner;
    assert ([RPar] + more)[1..] == more;
  }

  lemma DeclStep(ws: seq<string>, c: bool, body: seq<Token>, d: Declarator, rest: seq<Token>)
    requires ws != [] && (body == [] || !(body[0].Word? || body[0].Const?))
    requires ReadDeclarator(body) == Some((d, rest))
    ensures ReadDecl(WordTokens(ws) + (Qualifier(c) + body)) == Some((Decl(ws, c, d), rest))
  {
    hide ReadDeclarator;
    var after := Qualifier(c) + body;
    WordsRead(ws, after);
    assert (WordTokens(ws) + after)[0] == WordTokens(ws)[0];
    if c {
      assert after[1..] == body;
    } else {
      assert after == body;
    }
  }

  lemma {:induction false} DeclaratorReads(d: Declarator, rest: seq<Token>)
    requires Proper(d) && Closes(rest)
    ensures ReadDeclarator(Unparse(d) + rest) == Some((d, rest))
    decreases d, 2
  {
    hide ReadDeclarator, ReadHead, ReadSuffixes;
    match d
    case Pointer(c, inner) =>
      FirstToken(inner, rest);
      DeclaratorReads(inner, rest);
      var more := Unparse(inner) + rest;
      PointerStep(c, more, inner, rest);
      assert Unparse(d) + rest == [Star] + (Qualifier(c) + more);
    case Direct(h, ss) =>
      var more := UnparseSuffixes(ss) + rest;
      assert Unparse(d) + rest == UnparseHead(h) + more;
      SuffixesRead(ss, rest);
      HeadReads(h, ss, rest);
      SuffixesStart(ss, rest);
      DirectStep(UnparseHead(h) + more, h, more, ss, rest);
  }

  lemma SuffixesStart(ss: seq<Suffixed>, rest: seq<Token>)
    requires Closes(rest)
    ensures var more := UnparseSuffixes(ss) + rest;
            more == [] || more[0].LBrk? || more[0].LPar? || more[0].RPar? || more[0].Comma?
  {
    if ss == [] {
      assert UnparseSuffixes(ss) + rest == rest;
    } else {
      assert UnparseSuffix(ss[0]) != [];
      assert UnparseSuffixes(ss)[0] == UnparseSuffix(ss[0])[0];
    }
  }

  /** A parameter list always opens with a specifier word. */
  lemma ParamsStart(ps: seq<Decl>)
    requires forall p <- ps :: ProperDecl(p)
    ensures UnparseParams(ps) != [] && UnparseParams(ps)[0].Word?
  {
    if ps != [] {
      assert ProperDecl(ps[0]);
      assert UnparseDecl(ps[0])[0] == Word(ps[0].words[0]);
      assert UnparseList(ps)[0] == UnparseDecl(ps[0])[0];
    }
  }

  /** Without a name the suffixes follow at once, and none of them looks like a group. */
  lemma NamelessReads(ss: seq<Suffixed>, rest: seq<Token>)
    requires forall s <- ss :: ProperSuffix(s)
    requires Closes(rest)
    ensures ReadHead(UnparseSuffixes(ss) + rest) == Some((Named(None), UnparseSuffixes(ss) + rest))
  {
    hide ReadDeclarator, UnparseParams;
    var more := UnparseSuffixes(ss) + rest;
    SuffixesStart(ss, rest);
    if ss == [] {
      assert more == rest;
    } else {
      assert more == UnparseSuffix(ss[0]) + (UnparseSuffixes(ss[1..]) + rest);
      if ss[0].Function? {
        assert ProperSuffix(ss[0]);
        ParamsStart(ss[0].params);
        assert more[1] == UnparseParams(ss[0].params)[0];
      }
    }
  }

  lemma {:induction false} HeadReads(h: Head, ss: seq<Suffixed>, rest: seq<Token>)
    requires h.Group? ==> h.d.Pointer? && Proper(h.d)
    requires forall s <- ss :: ProperSuffix(s)
    requires Closes(rest)
    ensures ReadHead(UnparseHead(h) + (UnparseSuffixes(ss) + rest)) == Some((h, UnparseSuffixes(ss) + rest))
    decreases h, 3
  {
    hide UnparseSuffixes, ReadDeclarator;
    var more := UnparseSuffixes(ss) + rest;
    var all := UnparseHead(h) + more;
    match h
    case Named(None) =>
      NamelessReads(ss, rest);
      assert all == more;
    case Named(Some(x)) =>
      assert all[1..] == more;
    case Group(inner) =>
      DeclaratorReads(inner, [RPar] + more);
      assert all == [LPar] + (Unparse(inner) + ([RPar] + more));
      GroupStep(Unparse(inner) + ([RPar] + more), inner, more);
  }

  lemma {:induction false} SuffixesRead(ss: seq<Suffixed>, rest: seq<Token>)
    requires forall s <- ss :: ProperSuffix(s)
    requires Closes(rest)
    ensures ReadSuffixes(UnparseSuffixes(ss) + rest) == Some((ss, rest))
    decreases ss, 2
  {
    hide ReadSuffixes, ReadParams, UnparseParams;
    var all := UnparseSuffixes(ss) + rest;
    if ss == [] {
      assert all == rest;
      NoSuffix(rest);
    } else {
      SuffixesRead(ss[1..], rest);
      var more := UnparseSuffixes(ss[1..]) + rest;
      assert all == UnparseSuffix(ss[0]) + more;
      assert [ss[0]] + ss[1..] == ss;
      assert ProperSuffix(ss[0]);
      match ss[0]
      case Array(n) =>
        ArrayStep(n, more, ss[1..], rest);
      case Function(ps) =>
        ParamsRead(ps, more);
        assert all == [LPar] + (UnparseParams(ps) + ([RPar] + more));
        FunctionStep(UnparseParams(ps) + ([RPar] + more), ps, more, ss[1..], rest);
    }
  }

  lemma {:induction false} ParamsRead(ps: seq<Decl>, more: seq<Token>)
    requires ps != [VOID_DECL] && forall p <- ps :: ProperDecl(p)
    ensures ReadParams(UnparseParams(ps) + ([RPar] + more)) == Some((ps, more))
    decreases ps, 2
  {
    var all := UnparseParams(ps) + ([RPar] + more);
    if ps == [] {
      assert all[2..] == more;
    } else {
      ListReads(ps, more);
      if |all| >= 2 && all[0] == Word("void") && all[1].RPar? {
        SoleVoid(ps, more);
      }
    }
  }

  /** The text of a parameter list after its first parameter. */
  function Others(ps: seq<Decl>): seq<Token>
    requires ps != []
  {
    if |ps| == 1 then [] else [Comma] + UnparseList(ps[1..])
  }

  /** Only the parameter list `void` looks like one. */
  lemma SoleVoid(ps: seq<Decl>, more: seq<Token>)
    requires ps != [] && forall p <- ps :: ProperDecl(p)
    requires var all := UnparseList(ps) + ([RPar] + more); all[0] == Word("void") && |all| >= 2 && all[1].RPar?
    ensures ps == [VOID_DECL]
  {
    hide UnparseList, Unparse, WordTokens, Proper;
    var p := ps[0];
    assert ProperDecl(p);
    var tail := Others(ps) + ([RPar] + more);
    var rest := Qualifier(p.isConst) + (Unparse(p.d) + tail);
    ListText(ps, more);
    FirstWord(p.words, rest);
    assert (WordTokens(p.words[1..]) + rest)[0].RPar?;
    WordsStart(p.words[1..], rest);
    assert p.words == ["void"];
    NoWords(rest);
    assert !p.isConst;
    assert rest == Unparse(p.d) + tail;
    DeclaratorStart(p.d, tail);
    NoDeclarator(tail);
    assert tail[0].RPar?;
    OthersStart(ps, more);
  }

  lemma ListText(ps: seq<Decl>, more: seq<Token>)
    requires ps != []
    ensures UnparseList(ps) + ([RPar] + more) ==
            WordTokens(ps[0].words) + (Qualifier(ps[0].isConst) + (Unparse(ps[0].d) + (Others(ps) + ([RPar] + more))))
  {
    hide Unparse, WordTokens;
    var a, b, c, d := WordTokens(ps[0].words), Qualifier(ps[0].isConst), Unparse(ps[0].d), Others(ps);
    Flatten(a, b, c, d, [RPar] + more);
  }

  lemma Flatten(a: seq<Token>, b: seq<Token>, c: seq<Token>, d: seq<Token>, e: seq<Token>)
    ensures (a + (b + c)) + d + e == a + (b + (c + (d + e)))
  {
  }

  lemma Headed(x: Token, t: seq<Token>, rest: seq<Token>)
    ensures (([x] + t) + rest)[0] == x && (([x] + t) + rest)[1..] == t + rest
  {
  }

  lemma FirstWord(ws: seq<string>, rest: seq<Token>)
    requires ws != []
    ensures (WordTokens(ws) + rest)[0] == Word(ws[0]) && (WordTokens(ws) + rest)[1..] == WordTokens(ws[1..]) + rest
  {
    Headed(Word(ws[0]), WordTokens(ws[1..]), rest);
  }

  lemma NoWords(rest: seq<Token>)
    ensures WordTokens([]) + rest == rest
  {
  }

  lemma NoDeclarator(tail: seq<Token>)
    ensures Unparse(Direct(Named(None), [])) + tail == tail
  {
    assert UnparseSuffixes([]) == [];
  }

  lemma OthersStart(ps: seq<Decl>, more: seq<Token>)
    requires ps != []
    ensures (Others(ps) + ([RPar] + more))[0].RPar? ==> |ps| == 1
  {
  }

  lemma WordsStart(ws: seq<string>, tail: seq<Token>)
    ensures ws != [] ==> (WordTokens(ws) + tail)[0].Word?
  {
  }

  /** Only the empty declarator lets a closing parenthesis come first. */
  lemma DeclaratorStart(d: Declarator, tail: seq<Token>)
    requires tail != []
    ensures d == Direct(Named(None), []) || !(Unparse(d) + tail)[0].RPar?
  {
    if d.Direct? {
      if d.head != Named(None) {
        assert UnparseHead(d.head) != [];
      } else if d.suffixes != [] {
        assert UnparseSuffix(d.suffixes[0]) != [];
        assert UnparseSuffixes(d.suffixes)[0] == UnparseSuffix(d.suffixes[0])[0];
      }
    }
  }

  lemma {:induction false} ListReads(ps: seq<Decl>, more: seq<Token>)
    requires ps != [] && forall p <- ps :: ProperDecl(p)
    ensures ReadParamList(UnparseList(ps) + ([RPar] + more)) == Some((ps, more))
    decreases ps, 1
  {
    hide UnparseDecl, ReadDecl;
    assert ProperDecl(ps[0]);
    if |ps| == 1 {
      DeclReads(ps[0], [RPar] + more);
      assert UnparseList(ps) + ([RPar] + more) == UnparseDecl(ps[0]) + ([RPar] + more);
      assert ([RPar] + more)[1..] == more;
      assert ps == [ps[0]];
    } else {
      ListReads(ps[1..], more);
      var after := UnparseList(ps[1..]) + ([RPar] + more);
      DeclReads(ps[0], [Comma] + after);
      assert UnparseList(ps) + ([RPar] + more) == UnparseDecl(ps[0]) + ([Comma] + after);
      assert ([Comma] + after)[1..] == after;
      assert ps == [ps[0]] + ps[1..];
    }
  }

  lemma {:induction false} DeclReads(p: Decl, rest: seq<Token>)
    requires ProperDecl(p) && Closes(rest)
    ensures ReadDecl(UnparseDecl(p) + rest) == Some((p, rest))
    decreases p, 3
  {
    hide ReadDecl, ReadDeclarator;
    var body := Unparse(p.d) + rest;
    FirstToken(p.d, rest);
    DeclaratorReads(p.d, rest);
    DeclStep(p.words, p.isConst, body, p.d, rest);
    assert UnparseDecl(p) + rest == WordTokens(p.words) + (Qualifier(p.isConst) + body);
  }

  // ----- The printed text is a declarator -----

  /** Types whose specifiers are not empty. */
  predicate Wf(t: Type) {
    match t
    case Base(ws) => ws != []
    case Ptr(_, b) => Wf(b)
    case Arr(_, e) => Wf(e)
    case Fn(ps, r) => Wf(r) && forall p <- ps :: Wf(p)
    case FnPtr(ps, r) => Wf(r) && forall p <- ps :: Wf(p)
  }

  /** The specifiers the prefix of `t` ends up with, when `q` qualifies `t`. */
  function Core(t: Type, q: bool): (seq<string>, bool) {
    match t
    case Base(ws) => (ws, q)
    case Ptr(c, b) => if b == VOID then (["void"], false) else Core(b, c)
    case Arr(_, e) => Core(e, q)
    case Fn(_, r) => Core(r, q)
    case FnPtr(_, r) => Core(r, false)
  }

  function Append(d: Declarator, s: Suffixed): Declarator
    requires d.Direct?
  {
    d.(suffixes := d.suffixes + [s])
  }

  /** The declarator of `t` around `d`. */
  function Wrap(t: Type, q: bool, d: Declarator): Declarator
    requires t.Arr? || t.Fn? ==> d.Direct?
    decreases t, 1
  {
    match t
    case Base(_) => d
    case Ptr(c, b) =>
      var p := Pointer(q, d);
      if b == VOID then p else Wrap(b, c, if NeedsParens(b) then Direct(Group(p), []) else p)
    case Arr(n, e) => Wrap(e, q, Append(d, Array(n)))
    case Fn(ps, r) => Wrap(r, q, Append(d, Function(ParamDecls(ps))))
    case FnPtr(ps, r) => Wrap(r, false, Direct(Group(Pointer(q, d)), [Function(ParamDecls(ps))]))
  }

  function DeclOf(t: Type, name: Option<string>): Decl
    decreases t, 3
  {
    Decl(Core(t, false).0, Core(t, false).1, Wrap(t, false, Direct(Named(name), [])))
  }

  /** A sole `void` parameter is printed like no parameter. */
  function ParamDecls(ps: seq<Type>): seq<Decl>
    decreases ps, 5
  {
    if ps == [VOID] then [] else DeclsOf(ps)
  }

  function DeclsOf(ps: seq<Type>): seq<Decl>
    decreases ps, 4
  {
    if ps == [] then [] else [DeclOf(ps[0], None)] + DeclsOf(ps[1..])
  }
}
