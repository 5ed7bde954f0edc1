/**
 The emitter's declarator methods: they append to the output and look back at the last
 character written to decide about spaces.
 */
module DeclaratorWriter {
  import opened Options
  import opened Declarators
  import RoundTrip = DeclaratorRoundTrip

  class Writer {
    var out: seq<Token>

    constructor ()
      ensures out == []
    {
      out := [];
    }

    method Write(toks: seq<Token>)
      modifies this
      ensures out == old(out) + toks
    {
      out := out + toks;
    }

    /** Is the last character written `c`? */
    predicate LastIs(c: Token)
      reads this
    {
      out != [] && out[|out| - 1] == c
    }

    method EmitDeclarator(t: Type, name: Option<string>)
      requires Wf(t)
      modifies this
      ensures out == old(out) + Declaration(t, name)
      decreases t, 2
    {
      hide Prefix, Suffix;
      EmitTypePrefix(t);
      RoundTrip.PrefixSpaced(t);
      assert out[|out| - 1] == Prefix(t)[|Prefix(t)| - 1];
      if name.Some? {
        if !LastIs(LPar) && !LastIs(Space) {
          Write([Space]);
        }
        Write([Name(name.value)]);
      }
      assert out == old(out) + (Prefix(t) + (if name.Some? then Gap(Prefix(t)) + [Name(name.value)] else []));
      EmitTypeSuffix(t);
    }

    method EmitTypePrefix(t: Type)
      modifies this
      ensures out == old(out) + Prefix(t)
      decreases t, 0
    {
      hide Prefix;
      PrefixEquations(t);
      match t
      case Base(ws) => Write(Words(ws));
      case Ptr(c, b) =>
        if b == VOID {
          Write([Word("void")]);
          if !LastIs(Space) {
            Write([Space]);
          }
          Write([Star]);
        } else {
          EmitTypePrefix(b);
          if c {
            Write([Space, Const]);
          }
          if NeedsParens(b) {
            Write([Space, LPar, Star]);
          } else {
            Write([Star]);
          }
        }
      case Arr(_, e) => EmitTypePrefix(e);
      case Fn(_, r) => EmitTypePrefix(r);
      case FnPtr(_, r) =>
        EmitTypePrefix(r);
        Write([Space, LPar, Star]);
    }

    method EmitTypeSuffix(t: Type)
      requires Wf(t)
      modifies this
      ensures out == old(out) + Suffix(t)
      decreases t, 1
    {
      hide Suffix, Params;
      SuffixEquations(t);
      match t
      case Base(_) =>
      case Ptr(_, b) =>
        if b != VOID {
          if NeedsParens(b) {
            Write([RPar]);
          }
          EmitTypeSuffix(b);
        }
      case Arr(n, e) =>
        Write([LBrk]);
        Write([Num(n)]);
        Write([RBrk]);
        assert out == old(out) + [LBrk, Num(n), RBrk];
        EmitTypeSuffix(e);
      case Fn(ps, r) =>
        EmitParams(ps);
        EmitTypeSuffix(r);
      case FnPtr(ps, r) =>
        Write([RPar]);
        EmitParams(ps);
        EmitTypeSuffix(r);
    }

    /** A parenthesised parameter list. */
    method EmitParams(ps: seq<Type>)
      requires forall p <- ps :: Wf(p)
      modifies this
      ensures out == old(out) + ([LPar] + Params(ps) + [RPar])
      decreases ps, 3
    {
      hide Prefix, Suffix, ParamList;
      Write([LPar]);
      if |ps| == 0 {
        Write([Word("void")]);
      } else {
        ghost var start := out;
        var i := 0;
        while i < |ps|
          invariant 0 <= i <= |ps|
          invariant out + Rest(ps[i..]) == start + ParamList(ps)
        {
          ghost var before := out;
          EmitDeclarator(ps[i], None);
          if i < |ps| - 1 {
            Write([Comma, Space]);
          }
          RestStep(ps, i, before, out);
          i := i + 1;
        }
        assert ps[i..] == [];
        assert out == start + ParamList(ps);
      }
      Write([RPar]);
    }
  }

  lemma PrefixEquations(t: Type)
    ensures t.Base? ==> Prefix(t) == Words(t.words)
    ensures t.Ptr? ==>
      Prefix(t) ==
      if t.to == VOID then [Word("void"), Space, Star]
      else
        Prefix(t.to) +
        ((if t.isConst then [Space, Const] else []) + (if NeedsParens(t.to) then [Space, LPar, Star] else [Star]))
    ensures t.Arr? ==> Prefix(t) == Prefix(t.elem)
    ensures t.Fn? ==> Prefix(t) == Prefix(t.ret)
    ensures t.FnPtr? ==> Prefix(t) == Prefix(t.ret) + [Space, LPar, Star]
  {
  }

  lemma SuffixEquations(t: Type)
    ensures t.Base? ==> Suffix(t) == []
    ensures t.Ptr? ==> Suffix(t) == if t.to == VOID then []
      else (if NeedsParens(t.to) then [RPar] else []) + Suffix(t.to)
    ensures t.Arr? ==> Suffix(t) == [LBrk, Num(t.size), RBrk] + Suffix(t.elem)
    ensures t.Fn? ==> Suffix(t) == ([LPar] + Params(t.params) + [RPar]) + Suffix(t.ret)
    ensures t.FnPtr? ==> Suffix(t) == [RPar] + (([LPar] + Params(t.params) + [RPar]) + Suffix(t.ret))
  {
  }

  /** What is still to be written of a parameter list. */
  function Rest(ps: seq<Type>): seq<Token> {
    if ps == [] then [] else ParamList(ps)
  }

  lemma RestStep(ps: seq<Type>, i: nat, before: seq<Token>, after: seq<Token>)
    requires i < |ps|
    requires after == before + Declaration(ps[i], None) + (if i < |ps| - 1 then [Comma, Space] else [])
    ensures before + Rest(ps[i..]) == after + Rest(ps[i + 1..])
  {
    hide Prefix, Suffix;
    assert ps[i..][0] == ps[i] && ps[i..][1..] == ps[i + 1..];
    assert Declaration(ps[i], None) == Prefix(ps[i]) + Suffix(ps[i]);
  }
}
