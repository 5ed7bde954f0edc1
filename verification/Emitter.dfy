/**
 The emitter itself: an object that appends to an output buffer while keeping a stack of defer
 scopes, a stack of loop ids and, per open loop, whether a `continue` was emitted for it.
 Each method is proved to append exactly the code `Emission` specifies.
 */
module Emitter {
  import opened Source
  import opened SourceFacts
  import opened Target
  import opened Emission
  import opened Labels
  import opened Simulation

  /** The continue flags after `code` was emitted inside the loops `ids`. */
  function Mark(flags: seq<bool>, ids: seq<LoopId>, code: Program): (marked: seq<bool>)
    requires |flags| == |ids|
    ensures |marked| == |flags|
  {
    seq(|flags|, i requires 0 <= i < |flags| => flags[i] || Goto(LoopContinue(ids[i])) in code)
  }

  lemma MarkConcat(flags: seq<bool>, ids: seq<LoopId>, a: Program, b: Program)
    requires |flags| == |ids|
    ensures Mark(Mark(flags, ids, a), ids, b) == Mark(flags, ids, a + b)
  {
  }

  lemma MarkNothing(flags: seq<bool>, ids: seq<LoopId>, code: Program)
    requires |flags| == |ids| && forall i :: i in code ==> !i.Goto?
    ensures Mark(flags, ids, code) == flags
  {
  }

  predicate NoRepeats(ids: seq<LoopId>) {
    forall i, j :: 0 <= i < j < |ids| ==> ids[i] != ids[j]
  }

  /** None of the open loops is among these ids. */
  predicate Apart(open: seq<LoopId>, ids: set<LoopId>) {
    forall i :: 0 <= i < |open| ==> open[i] !in ids
  }

  lemma {:induction false} SizeAt(ss: seq<Stmt>, i: nat)
    requires i < |ss|
    ensures Size(ss[i]) < SizeSeq(ss) && SizeSeq(ss[..i]) <= SizeSeq(ss)
    decreases |ss|
  {
    if i == 0 {
    } else {
      SizeAt(ss[1..], i - 1);
      assert ss[..i][1..] == ss[1..][..i - 1];
    }
  }

  function Register(sc: Scope, s: Stmt): Scope {
    if s.Defer? then sc.(defers := sc.defers + [s.deferred])
    else if s.ErrDefer? then sc.(errDefers := sc.errDefers + [s.deferred])
    else sc
  }

  function HeadCode(flag: bool, s: Stmt, stack: Stack): Program
    requires Shaped(s) && GoodStack(stack)
  {
    if s.Defer? || s.ErrDefer? then [] else EmitStmt(flag, s, stack)
  }

  lemma RegisterIsGood(sc: Scope, s: Stmt)
    requires GoodScope(sc) && Shaped(s)
    ensures GoodScope(Register(sc, s))
  {
    hide Deferrable, Shaped;
    if s.Defer? || s.ErrDefer? {
      DeferParts(s);
    }
  }

  lemma SeqHead(flag: bool, rest: seq<Stmt>, stack: Stack, sc: Scope)
    requires rest != [] && ShapedSeq(rest) && GoodStack(stack) && GoodScope(sc)
    ensures GoodStack(stack + [sc]) && GoodScope(Register(sc, rest[0])) && Shaped(rest[0]) && ShapedSeq(rest[1..])
    ensures EmitSeq(flag, rest, stack, sc) ==
      HeadCode(flag, rest[0], stack + [sc]) +
      (if AllPathsExit(rest[0]) then [] else EmitSeq(flag, rest[1..], stack, Register(sc, rest[0])))
    ensures SizeSeq(rest[1..]) + SizeSeq(Register(sc, rest[0]).defers) + SizeSeq(Register(sc, rest[0]).errDefers)
      <= SizeSeq(rest) + SizeSeq(sc.defers) + SizeSeq(sc.errDefers)
  {
    hide EmitSeq, EmitStmt, Deferrable, Shaped, ShapedSeq, Size, SizeSeq;
    SeqParts(rest, {});
    SeqCode(flag, rest, stack, sc);
    RegisterIsGood(sc, rest[0]);
    if rest[0].Defer? || rest[0].ErrDefer? {
      DeferParts(rest[0]);
      SizeSeqAppend(sc.defers, rest[0].deferred);
      SizeSeqAppend(sc.errDefers, rest[0].deferred);
      var tail := EmitSeq(flag, rest[1..], stack, Register(sc, rest[0]));
      assert [] + tail == tail;
    }
  }

  lemma Associate(a: Program, b: Program, c: Program)
    ensures a + (b + c) == (a + b) + c
  {
  }

  /** What the rest of a block, from statement `i` on, still promises once `sc` has been registered. */
  ghost predicate Ahead(body: seq<Stmt>, i: nat, loops: seq<LoopId>, sc: Scope) {
    && i <= |body| && DistinctSeq(body[i..]) && Apart(loops, IdsSeq(body[i..]))
    && (DeferrableSeq(body) ==> DeferrableSeq(body[i..]))
    && SizeSeq(body[i..]) + SizeSeq(sc.defers) + SizeSeq(sc.errDefers) <= SizeSeq(body)
  }

  lemma AheadStarts(body: seq<Stmt>, loops: seq<LoopId>, owner: int)
    requires DistinctSeq(body) && Apart(loops, IdsSeq(body))
    ensures Ahead(body, 0, loops, Scope(owner, [], []))
  {
    hide DistinctSeq, IdsSeq, DeferrableSeq;
    assert body[0..] == body;
  }

  lemma AheadStep(flag: bool, body: seq<Stmt>, i: nat, loops: seq<LoopId>, stack: Stack, sc: Scope)
    requires i < |body| && Ahead(body, i, loops, sc) && ShapedSeq(body[i..]) && GoodStack(stack) && GoodScope(sc)
    ensures Shaped(body[i]) && Distinct(body[i]) && Apart(loops, Ids(body[i]))
    ensures Rank(body[i]) <= RankSeq(body) && Size(body[i]) < SizeSeq(body)
    ensures ShapedSeq(body[i + 1..]) && GoodScope(Register(sc, body[i])) && GoodStack(stack + [sc])
    ensures Ahead(body, i + 1, loops, Register(sc, body[i]))
    ensures EmitSeq(flag, body[i..], stack, sc) ==
      HeadCode(flag, body[i], stack + [sc]) +
      (if AllPathsExit(body[i]) then [] else EmitSeq(flag, body[i + 1..], stack, Register(sc, body[i])))
  {
    hide EmitSeq, EmitStmt, Deferrable, DeferrableSeq, Shaped, ShapedSeq, Distinct, DistinctSeq, Ids, IdsSeq, Size,
         SizeSeq, AllPathsExit, Register, HeadCode, GoodStack, GoodScope;
    assert body[i..][0] == body[i] && body[i..][1..] == body[i + 1..];
    SeqParts(body[i..], {});
    SeqHead(flag, body[i..], stack, sc);
  }

  lemma OpensGood(stack: Stack, owner: int)
    requires GoodStack(stack)
    ensures GoodScope(Scope(owner, [], [])) && GoodStack(stack + [Scope(owner, [], [])])
  {
  }

  lemma ScopeBodies(sc: Scope)
    requires GoodScope(sc)
    ensures GoodBodies(sc.defers)
  {
  }

  lemma LastScope(stack: Stack, sc: Scope)
    ensures (stack + [sc])[..|stack|] == stack && (stack + [sc])[|stack|] == sc
  {
  }

  lemma AheadBound(body: seq<Stmt>, i: nat, loops: seq<LoopId>, sc: Scope)
    requires Ahead(body, i, loops, sc)
    ensures SizeSeq(sc.defers) <= SizeSeq(body)
  {
    hide SizeSeq, DistinctSeq, IdsSeq, DeferrableSeq;
  }

  lemma NoProngs(flag: bool, ps: seq<Prong>, stack: Stack, offset: int)
    requires ps == [] && ShapedProngs(ps) && GoodStack(stack)
    ensures EmitProngs(flag, ps, stack) == [] && Arms(flag, ps, stack, offset) == []
  {
  }

  lemma ProngsStep(flag: bool, ps: seq<Prong>, stack: Stack, offset: int)
    requires ps != [] && ShapedProngs(ps) && DistinctProngs(ps) && GoodStack(stack)
    ensures ShapedSeq(ps[0].body) && ShapedProngs(ps[1..]) && DistinctSeq(ps[0].body) && DistinctProngs(ps[1..])
    ensures IdsProngs(ps) == IdsSeq(ps[0].body) + IdsProngs(ps[1..])
    ensures SizeProngs(ps) == 1 + SizeSeq(ps[0].body) + SizeProngs(ps[1..])
    ensures DeferrableProngs(ps) ==> DeferrableSeq(ps[0].body) && DeferrableProngs(ps[1..])
    ensures var code := ActCode(ps[0].capture) + EmitSeq(flag, ps[0].body, stack, Scope(NO_LABEL, [], []));
      var rest := EmitProngs(flag, ps[1..], stack);
      && EmitProngs(flag, ps, stack) == code + ([Jump(|rest| + 1)] + rest)
      && Arms(flag, ps, stack, offset) ==
         [Arm(if ps[0].isElse then [] else ExpandAll(ps[0].items), ps[0].isElse, offset)] +
         Arms(flag, ps[1..], stack, offset + |code| + 1)
  {
    hide EmitSeq, ExpandAll;
  }

  class C89Emitter {
    var out: Program
    var deferStack: Stack
    var loopIds: seq<LoopId>
    var hasContinue: seq<bool>
    const flag: bool

    ghost predicate Valid()
      reads this
    {
      GoodStack(deferStack) && |hasContinue| == |loopIds| && NoRepeats(loopIds)
    }

    constructor (flag: bool)
      ensures Valid() && out == [] && deferStack == [] && loopIds == [] && this.flag == flag
    {
      this.flag := flag;
      out, deferStack, loopIds, hasContinue := [], [], [], [];
    }

    /** The code was appended, the stacks are as before, and its continues were recorded. */
    twostate predicate Appended(code: Program)
      reads this
    {
      && old(Valid()) && Valid()
      && out == old(out) + code
      && deferStack == old(deferStack) && loopIds == old(loopIds)
      && hasContinue == Mark(old(hasContinue), loopIds, code)
    }

    method Write(code: Program)
      modifies this`out
      ensures out == old(out) + code
    {
      out := out + code;
    }

    method WritePlain(code: Program)
      requires Valid() && forall i :: i in code ==> !i.Goto?
      modifies this
      ensures Appended(code)
    {
      MarkNothing(hasContinue, loopIds, code);
      out := out + code;
    }

    method EmitDeferred(ds: seq<Stmt>)
      requires Valid() && GoodBodies(ds)
      modifies this
      ensures Appended(EmitBodies(flag, ds, old(deferStack)))
      decreases 0, SizeSeq(ds), 2
    {
      hide Deferrable, Shaped, EmitStmt, EmitBodies, Size, SizeSeq, Distinct, Ids, Mark;
      var i := |ds|;
      ghost var done: Program := [];
      MarkNothing(hasContinue, loopIds, []);
      assert ds[..i] == ds;
      while i > 0
        invariant 0 <= i <= |ds|
        invariant Appended(done)
        invariant done + EmitBodies(flag, ds[..i], deferStack) == EmitBodies(flag, ds, deferStack)
      {
        label before:
        ghost var rest := ds[..i];
        EmitBodiesStep(flag, rest, deferStack);
        i := i - 1;
        assert rest[..i] == ds[..i];
        SizeAt(ds, i);
        DeferrableHasNoIds(ds[i]);
        ghost var code := EmitStmt(flag, ds[i], deferStack);
        EmitStatement(ds[i]);
        MarkConcat(old(hasContinue), loopIds, done, code);
        done := done + code;
      }
      assert ds[..i] == [] && done + [] == done;
      EmitBodiesStep(flag, [], deferStack);
    }

    /** Exit code from the innermost scope outwards, through the scope owned by `target`. */
    method EmitDefersForScopeExit(target: int)
      requires Valid()
      modifies this
      ensures Appended(EmitExit(flag, old(deferStack), |old(deferStack)|, target))
      decreases 1, 0, 1
    {
      hide EmitExit, ErrCode, EmitBodies, Mark, Deferrable, Shaped, ScopeCode, NoRepeats;
      var i := |deferStack|;
      var stopped := false;
      ghost var done: Program := [];
      ghost var goal := EmitExit(flag, deferStack, i, target);
      MarkNothing(hasContinue, loopIds, []);
      while i > 0 && !stopped
        invariant 0 <= i <= |deferStack|
        invariant Appended(done)
        invariant done + (if stopped then [] else EmitExit(flag, deferStack, i, target)) == goal
        decreases i
      {
        i := i - 1;
        ghost var flags, before := hasContinue, done;
        ExitCode(flag, deferStack, i + 1, target);
        var scope := deferStack[i];
        EmitScopeExit(scope);
        ghost var code := ScopeCode(flag, scope, deferStack);
        MarkConcat(old(hasContinue), loopIds, done, code);
        done := done + code;
        stopped := target != NO_LABEL && scope.owner == target;
        ghost var rest := if stopped then [] else EmitExit(flag, deferStack, i, target);
        Associate(before, code, rest);
      }
      ExitNone(flag, deferStack, target);
      assert done + [] == done;
    }

    method EmitScopeExit(scope: Scope)
      requires Valid() && GoodScope(scope)
      modifies this
      ensures Appended(ScopeCode(flag, scope, old(deferStack)))
      decreases 1, 0, 0
    {
      hide EmitBodies, Mark, Deferrable, Shaped, GoodStack;
      ghost var stack, flags, o := deferStack, hasContinue, out;
      ghost var ds := EmitBodies(flag, scope.defers, stack);
      ghost var es := EmitBodies(flag, scope.errDefers, stack);
      BodiesArePlain(flag, scope.defers, stack);
      BodiesArePlain(flag, scope.errDefers, stack);
      MarkNothing(flags, loopIds, ScopeCode(flag, scope, stack));
      MarkNothing(flags, loopIds, ds);
      MarkNothing(flags, loopIds, es);
      EmitDeferred(scope.defers);
      if |scope.errDefers| > 0 && flag {
        var at := |out|;
        Write([BranchUnlessFlag(0)]);
        EmitDeferred(scope.errDefers);
        assert out == (o + ds) + [BranchUnlessFlag(0)] + es;
        out := out[at := BranchUnlessFlag(|out| - at)];
        assert out == o + (ds + ([BranchUnlessFlag(|es| + 1)] + es));
      } else {
        assert ds + [] == ds;
      }
    }

    method EmitBreak(id: LoopId)
      requires Valid()
      modifies this
      ensures Appended(EmitExit(flag, old(deferStack), |old(deferStack)|, id) + [Goto(LoopEnd(id))])
      decreases 1, 0, 2
    {
      hide EmitExit, GoodStack;
      ghost var exit := EmitExit(flag, deferStack, |deferStack|, id);
      EmitDefersForScopeExit(id);
      out := out + [Goto(LoopEnd(id))];
      assert Mark(old(hasContinue), loopIds, exit) == Mark(old(hasContinue), loopIds, exit + [Goto(LoopEnd(id))]);
    }

    /** Looks the target up from the innermost open loop outwards and records the continue there. */
    method EmitContinue(id: LoopId)
      requires Valid()
      modifies this
      ensures Appended(EmitExit(flag, old(deferStack), |old(deferStack)|, id) + [Goto(LoopContinue(id))])
      decreases 1, 0, 2
    {
      hide EmitExit, GoodStack;
      ghost var exit := EmitExit(flag, deferStack, |deferStack|, id);
      EmitDefersForScopeExit(id);
      ghost var flags := hasContinue;
      var i := |loopIds|;
      while i > 0 && loopIds[i - 1] != id
        invariant 0 <= i <= |loopIds|
        invariant forall j :: i <= j < |loopIds| ==> loopIds[j] != id
      {
        i := i - 1;
      }
      if i > 0 {
        hasContinue := hasContinue[i - 1 := true];
      }
      out := out + [Goto(LoopContinue(id))];
      MarkConcat(old(hasContinue), loopIds, exit, [Goto(LoopContinue(id))]);
      assert hasContinue == Mark(flags, loopIds, [Goto(LoopContinue(id))]);
    }

    method HasPendingDefers() returns (pending: bool)
      requires Valid()
      ensures pending == HasPending(deferStack)
    {
      pending := false;
      var i := 0;
      while i < |deferStack| && !pending
        invariant 0 <= i <= |deferStack|
        invariant pending ==> HasPending(deferStack)
        invariant !pending ==> forall j :: 0 <= j < i ==> deferStack[j].defers == [] && deferStack[j].errDefers == []
      {
        pending := |deferStack[i].defers| > 0 || |deferStack[i].errDefers| > 0;
        i := i + 1;
      }
    }

    method EmitReturn(s: Stmt)
      requires s.Return? && Valid()
      modifies this
      ensures Appended(EmitStmt(flag, s, old(deferStack)))
      decreases 1, 0, 2
    {
      hide EmitExit, GoodStack, Mark;
      ghost var o, flags := out, hasContinue;
      ghost var exit := EmitExit(flag, deferStack, |deferStack|, NO_LABEL);
      ExitIsPlain(flag, deferStack, |deferStack|, NO_LABEL);
      MarkNothing(flags, loopIds, exit);
      MarkNothing(flags, loopIds, EmitStmt(flag, s, deferStack));
      var pending := HasPendingDefers();
      if pending || s.boxed {
        ghost var set1 := if flag then [FlagIfError] else [];
        Write([Evaluate(s.operand, s.boxed)]);
        if flag {
          Write([FlagIfError]);
        }
        assert out == o + [Evaluate(s.operand, s.boxed)] + set1;
        EmitDefersForScopeExit(NO_LABEL);
        Write([ReturnEvaluated]);
        assert out == o + ([Evaluate(s.operand, s.boxed)] + (set1 + (exit + [ReturnEvaluated])));
      } else {
        Write([ReturnNow(s.operand)]);
      }
    }

    /** One statement of the innermost open block; deferred statements are only registered. */
    method EmitInBlock(s: Stmt) returns (exits: bool)
      requires Valid() && Shaped(s) && Distinct(s) && Apart(loopIds, Ids(s)) && deferStack != []
      modifies this
      ensures Valid() && loopIds == old(loopIds) && exits == AllPathsExit(s)
      ensures deferStack == old(deferStack)[..|old(deferStack)| - 1]
        + [Register(old(deferStack)[|old(deferStack)| - 1], s)]
      ensures out == old(out) + HeadCode(flag, s, old(deferStack))
      ensures hasContinue == Mark(old(hasContinue), loopIds, HeadCode(flag, s, old(deferStack)))
      decreases Rank(s), Size(s), 6
    {
      hide EmitStmt, Mark, Deferrable, Shaped, Distinct, Ids, Size, AllPathsExit;
      exits := AllPathsExit(s);
      if s.Defer? || s.ErrDefer? {
        RegisterIsGood(deferStack[|deferStack| - 1], s);
        MarkNothing(hasContinue, loopIds, []);
        deferStack := deferStack[..|deferStack| - 1] + [Register(deferStack[|deferStack| - 1], s)];
      } else {
        EmitStatement(s);
        assert deferStack == deferStack[..|deferStack| - 1] + [deferStack[|deferStack| - 1]];
      }
    }

    /** Two passes over a block collapse to one here: declarations have no effect of their own. */
    method EmitBlock(body: seq<Stmt>, owner: int)
      requires Valid() && ShapedSeq(body) && DistinctSeq(body) && Apart(loopIds, IdsSeq(body))
      modifies this
      ensures Appended(EmitSeq(flag, body, old(deferStack), Scope(owner, [], [])))
      decreases RankSeq(body), SizeSeq(body), 5
    {
      hide EmitSeq, EmitStmt, EmitBodies, Mark, Deferrable, DeferrableSeq, Shaped, ShapedSeq, Distinct, DistinctSeq,
           Ids, IdsSeq, Size, SizeSeq, Apart, NoRepeats, Rank, RankSeq, HasPending, GoodStack, GoodScope, GoodBodies;
      ghost var base, flags := deferStack, hasContinue;
      OpensGood(base, owner);
      deferStack := deferStack + [Scope(owner, [], [])];
      var exits, done := EmitStatements(body, base, owner);
      if !exits {
        ghost var ds := deferStack[|deferStack| - 1].defers;
        EmitDeferred(deferStack[|deferStack| - 1].defers);
        MarkConcat(flags, loopIds, done, EmitBodies(flag, ds, deferStack));
        Associate(old(out), done, EmitBodies(flag, ds, deferStack));
      }
      assert done + [] == done;
      deferStack := deferStack[..|deferStack| - 1];
    }

    /** The statements of the innermost open block, up to the first that always exits. */
    method EmitStatements(body: seq<Stmt>, ghost base: Stack, owner: int) returns (exits: bool, ghost done: Program)
      requires Valid() && ShapedSeq(body) && DistinctSeq(body) && Apart(loopIds, IdsSeq(body))
      requires GoodStack(base) && GoodScope(Scope(owner, [], [])) && deferStack == base + [Scope(owner, [], [])]
      modifies this
      ensures Valid() && loopIds == old(loopIds)
      ensures |deferStack| == |base| + 1 && deferStack[..|base|] == base && deferStack == base + [deferStack[|base|]]
      ensures GoodBodies(deferStack[|base|].defers) && SizeSeq(deferStack[|base|].defers) <= SizeSeq(body)
      ensures out == old(out) + done && hasContinue == Mark(old(hasContinue), loopIds, done)
      ensures done + (if exits then [] else EmitBodies(flag, deferStack[|base|].defers, deferStack)) ==
              EmitSeq(flag, body, base, Scope(owner, [], []))
      decreases RankSeq(body), SizeSeq(body), 4
    {
      hide EmitSeq, EmitStmt, EmitBodies, Mark, Deferrable, DeferrableSeq, Shaped, ShapedSeq, Distinct, DistinctSeq,
           Ids, IdsSeq, Size, SizeSeq, AllPathsExit, Register, HeadCode, Ahead, Apart, NoRepeats, Rank, RankSeq,
           HasPending, GoodStack, GoodScope, GoodBodies;
      ghost var flags, scope := hasContinue, Scope(owner, [], []);
      ghost var goal := EmitSeq(flag, body, base, scope);
      done := [];
      MarkNothing(flags, loopIds, []);
      AheadStarts(body, loopIds, owner);
      assert body[0..] == body;
      exits := false;
      var i := 0;
      while i < |body| && !exits
        invariant 0 <= i <= |body|
        invariant Valid() && loopIds == old(loopIds) && deferStack == base + [scope] && GoodScope(scope)
        invariant out == old(out) + done && hasContinue == Mark(flags, loopIds, done)
        invariant ShapedSeq(body[i..]) && Ahead(body, i, loopIds, scope)
        invariant done + (if exits then [] else EmitSeq(flag, body[i..], base, scope)) == goal
        decreases |body| - i, !exits
      {
        AheadStep(flag, body, i, loopIds, base, scope);
        ghost var code := HeadCode(flag, body[i], base + [scope]);
        LastScope(base, scope);
        exits := EmitInBlock(body[i]);
        scope := Register(scope, body[i]);
        MarkConcat(flags, loopIds, done, code);
        Associate(done, code, if exits then [] else EmitSeq(flag, body[i + 1..], base, scope));
        Associate(old(out), done, code);
        done := done + code;
        i := i + 1;
      }
      LastScope(base, scope);
      AheadBound(body, i, loopIds, scope);
      ScopeBodies(scope);
      if !exits {
        assert body[i..] == [];
        SeqCode(flag, [], base, scope);
      }
    }

    method EmitIf(s: Stmt)
      requires s.If? && Valid() && Shaped(s) && Distinct(s) && Apart(loopIds, Ids(s))
      modifies this
      ensures Appended(EmitStmt(flag, s, old(deferStack)))
      decreases Rank(s), Size(s), 4
    {
      hide EmitStmt, EmitSeq, Mark, Deferrable, Shaped, ShapedSeq, Distinct, DistinctSeq, Ids, IdsSeq, Size,
           GoodStack, ActCode;
      IfParts(s, {});
      IfCode(flag, s, deferStack);
      ghost var o, flags := out, hasContinue;
      ghost var acts := ActCode(s.capture);
      ghost var thn := EmitSeq(flag, s.thn, deferStack, Scope(NO_LABEL, [], []));
      ActsJumpNowhere(s.capture);
      var at := |out|;
      Write([BranchUnless(s.test, 0)]);
      Write(ActCode(s.capture));
      EmitBlock(s.thn, NO_LABEL);
      if s.els.Some? {
        var jumpAt := |out|;
        Write([Jump(0)]);
        out := out[at := BranchUnless(s.test, |out| - at)];
        ghost var soFar := out;
        ghost var b := EmitStmt(flag, s.els.value, deferStack);
        EmitStatement(s.els.value);
        out := out[jumpAt := Jump(|out| - jumpAt)];
        IfElseText(o, s.test, acts, thn, b);
        MarkBranches(flags, loopIds, s.test, acts, thn, b);
      } else {
        out := out[at := BranchUnless(s.test, |out| - at)];
        IfText(o, s.test, acts, thn);
        MarkThen(flags, loopIds, s.test, acts, thn);
      }
    }

    method EmitWhile(s: Stmt)
      requires s.While? && Valid() && Shaped(s) && Distinct(s) && Apart(loopIds, Ids(s))
      modifies this
      ensures Appended(EmitStmt(flag, s, old(deferStack)))
      decreases Rank(s), Size(s), 4
    {
      hide EmitStmt, EmitSeq, Mark, Deferrable, Shaped, ShapedSeq, Distinct, DistinctSeq, Ids, IdsSeq, Size,
           GoodStack, ActCode, WhileCode, WhileInner;
      LoopParts(s, {});
      LoopCode(flag, s, deferStack);
      ghost var o, flags, open := out, hasContinue, loopIds;
      ghost var body := EmitSeq(flag, s.body, deferStack, Scope(s.id, [], []));
      loopIds := loopIds + [s.id];
      hasContinue := hasContinue + [false];
      Write([Lab(LoopStart(s.id))]);
      Write([GotoUnless(s.test, LoopEnd(s.id))]);
      var head := |out|;
      Write(ActCode(s.capture));
      EmitBlock(s.body, s.id);
      MarkPush(flags, open, s.id, body);
      var continued := hasContinue[|hasContinue| - 1];
      WhileLength(s, body);
      CloseWhile(s, head, continued);
      loopIds := loopIds[..|loopIds| - 1];
      hasContinue := hasContinue[..|hasContinue| - 1];
      WhileText(o, s, body, -(|WhileInner(s, body)| as int) - 1);
      MarkLoop(flags, open, s, body);
    }

    /** The end of a `while` whose body starts at `head`: continue label, continue expression, back jump, end label. */
    method CloseWhile(s: Stmt, head: nat, continued: bool)
      requires s.While? && head <= |out|
      modifies this`out
      ensures var cont := if continued then [Lab(LoopContinue(s.id))] else [];
        var back: int := head - 1 - (|old(out)| + |cont| + |ActCode(s.step)| + 1);
        out == old(out) + cont + ActCode(s.step) + [Goto(LoopStart(s.id))] + (if s.captured then [Jump(back)] else [])
               + [Lab(LoopEnd(s.id))]
    {
      hide ActCode;
      Write(if continued then [Lab(LoopContinue(s.id))] else []);
      Write(ActCode(s.step));
      Write([Goto(LoopStart(s.id))]);
      var back: int := head - 1 - |out|;
      Write(if s.captured then [Jump(back)] else []);
      Write([Lab(LoopEnd(s.id))]);
    }

    method OpenFor(s: Stmt) returns (head: nat)
      requires s.For?
      modifies this`out
      ensures out == old(out) + ActCode(s.setup) + [SetIndex(s.id, s.lo), SetLength(s.id, s.hi)] +
                     [Lab(LoopStart(s.id))] + [BranchIfDone(s.id, 0)] + [BindItem(s.id)]
      ensures head == |old(out)| + |s.setup| + 3 && |out| == head + 2
    {
      Write(ActCode(s.setup));
      Write([SetIndex(s.id, s.lo), SetLength(s.id, s.hi)]);
      Write([Lab(LoopStart(s.id))]);
      head := |out|;
      Write([BranchIfDone(s.id, 0)]);
      Write([BindItem(s.id)]);
    }

    /** The end of a `for` loop; the distance of the jump out of it is known by now. */
    method CloseFor(s: Stmt, head: nat, continued: bool)
      requires s.For? && head < |out|
      modifies this`out
      ensures var cont: Program := if continued then [Lab(LoopContinue(s.id))] else [];
        var k: int := |old(out)| - head + |cont| + 2;
        out == (old(out) + cont + [Advance(s.id), Goto(LoopStart(s.id))])[head := BranchIfDone(s.id, k + 1)] +
               [Jump(-k), Lab(LoopEnd(s.id))]
    {
      Write(if continued then [Lab(LoopContinue(s.id))] else []);
      Write([Advance(s.id), Goto(LoopStart(s.id))]);
      out := out[head := BranchIfDone(s.id, |out| - head + 1)];
      Write([Jump(head - |out|), Lab(LoopEnd(s.id))]);
    }

    method EmitFor(s: Stmt)
      requires s.For? && Valid() && Shaped(s) && Distinct(s) && Apart(loopIds, Ids(s))
      modifies this
      ensures Appended(EmitStmt(flag, s, old(deferStack)))
      decreases Rank(s), Size(s), 4
    {
      hide EmitStmt, EmitSeq, Mark, Deferrable, Shaped, ShapedSeq, Distinct, DistinctSeq, Ids, IdsSeq, Size,
           GoodStack, ActCode, ForCode, ForInner;
      LoopParts(s, {});
      LoopCode(flag, s, deferStack);
      ghost var o, flags, open := out, hasContinue, loopIds;
      ghost var body := EmitSeq(flag, s.body, deferStack, Scope(s.id, [], []));
      loopIds := loopIds + [s.id];
      hasContinue := hasContinue + [false];
      var head := OpenFor(s);
      EmitBlock(s.body, s.id);
      MarkPush(flags, open, s.id, body);
      var continued := hasContinue[|hasContinue| - 1];
      CloseFor(s, head, continued);
      loopIds := loopIds[..|loopIds| - 1];
      hasContinue := hasContinue[..|hasContinue| - 1];
      ForLength(s, body);
      ForText(o, s, body);
      MarkLoop(flags, open, s, body);
    }

    /** One prong, then the rest; its `break` is resolved once everything after it is written. */
    method EmitProngList(ps: seq<Prong>, head: nat) returns (arms: seq<Arm>)
      requires Valid() && ShapedProngs(ps) && DistinctProngs(ps) && Apart(loopIds, IdsProngs(ps)) && head <= |out|
      modifies this
      ensures Appended(EmitProngs(flag, ps, old(deferStack)))
      ensures arms == Arms(flag, ps, deferStack, |old(out)| - head)
      decreases (if DeferrableProngs(ps) then 0 else 1), SizeProngs(ps), 6
    {
      hide EmitSeq, EmitProngs, Arms, Mark, DeferrableSeq, ShapedSeq, DistinctSeq, IdsSeq, SizeSeq, GoodStack,
           ExpandAll, ActCode, DeferrableProngs, ShapedProngs, DistinctProngs, IdsProngs, SizeProngs;
      ghost var o, flags := out, hasContinue;
      if |ps| == 0 {
        arms := [];
        NoProngs(flag, ps, deferStack, |out| - head);
        MarkNothing(flags, loopIds, []);
      } else {
        ProngsStep(flag, ps, deferStack, |out| - head);
        var pr := ps[0];
        var arm := Arm(if pr.isElse then [] else ExpandAll(pr.items), pr.isElse, |out| - head);
        ghost var acts := ActCode(pr.capture);
        ghost var body := EmitSeq(flag, pr.body, deferStack, Scope(NO_LABEL, [], []));
        ghost var rest := EmitProngs(flag, ps[1..], deferStack);
        Write(ActCode(pr.capture));
        EmitBlock(pr.body, NO_LABEL);
        var breakAt := |out|;
        Write([Jump(0)]);
        var others := EmitProngList(ps[1..], head);
        out := out[breakAt := Jump(|out| - breakAt)];
        arms := [arm] + others;
        ProngText(o, acts, body, rest);
        ActsJumpNowhere(pr.capture);
        MarkProng(flags, loopIds, acts, body, rest);
      }
    }

    method EmitSwitch(s: Stmt)
      requires s.Switch? && Valid() && Shaped(s) && Distinct(s) && Apart(loopIds, Ids(s))
      modifies this
      ensures Appended(EmitStmt(flag, s, old(deferStack)))
      decreases Rank(s), Size(s), 4
    {
      hide EmitProngs, Arms, Mark, DeferrableProngs, ShapedProngs, DistinctProngs, IdsProngs, SizeProngs, GoodStack;
      ghost var o, flags := out, hasContinue;
      ghost var bodies := EmitProngs(flag, s.prongs, deferStack);
      var head := |out|;
      Write([SwitchOn(s.operand, [], 0)]);
      var arms := EmitProngList(s.prongs, head);
      assert out == o + ([SwitchOn(s.operand, [], 0)] + bodies);
      out := out[head := SwitchOn(s.operand, arms, |out| - head)];
      MarkNothing(flags, loopIds, [SwitchOn(s.operand, arms, |bodies| + 1)]);
      MarkConcat(flags, loopIds, [SwitchOn(s.operand, arms, |bodies| + 1)], bodies);
      assert out == o + ([SwitchOn(s.operand, arms, |bodies| + 1)] + bodies);
    }

    method EmitStatement(s: Stmt)
      requires Valid() && Shaped(s) && Distinct(s) && Apart(loopIds, Ids(s))
      modifies this
      ensures Appended(EmitStmt(flag, s, old(deferStack)))
      decreases Rank(s), Size(s), 5
    {
      hide EmitSeq, EmitExit, EmitProngs, Arms, Mark, DeferrableSeq, ShapedSeq, DistinctSeq, IdsSeq, DeferrableProngs,
           ShapedProngs, DistinctProngs, IdsProngs, GoodStack, WhileCode, ForCode;
      match s
      case Do(a) => WritePlain([Act(a)]);
      case Unreachable => WritePlain([Trap]);
      case Block(b) => EmitBlock(b, NO_LABEL);
      case If(_, _, _, _) => EmitIf(s);
      case Switch(_, _) => EmitSwitch(s);
      case While(_, _, _, _, _, _) => EmitWhile(s);
      case For(_, _, _, _, _) => EmitFor(s);
      case Break(id) => EmitBreak(id);
      case Continue(id) => EmitContinue(id);
      case Return(_, _) => EmitReturn(s);
      case Defer(_) => WritePlain([]);
      case ErrDefer(_) => WritePlain([]);
    }
  }

  // ----- What the pieces add up to once braces are closed -----

  lemma IfText(o: Program, test: nat, acts: Program, thn: Program)
    ensures (o + [BranchUnless(test, 0)] + acts + thn)[|o| := BranchUnless(test, 1 + |acts| + |thn|)] ==
      o + ([BranchUnless(test, |acts + thn| + 1)] + ((acts + thn) + []))
  {
  }

  lemma IfElseText(o: Program, test: nat, acts: Program, thn: Program, els: Program)
    ensures var n := |acts| + |thn|;
      ((o + [BranchUnless(test, 0)] + acts + thn + [Jump(0)])[|o| := BranchUnless(test, n + 2)] + els)
        [|o| + 1 + n := Jump(|els| + 1)] ==
      o + ([BranchUnless(test, n + 2)] + ((acts + thn) + ([Jump(|els| + 1)] + els)))
  {
    var n := |acts| + |thn|;
    var a := o + [BranchUnless(test, 0)] + acts + thn + [Jump(0)];
    assert a[|o| := BranchUnless(test, n + 2)] == o + [BranchUnless(test, n + 2)] + acts + thn + [Jump(0)];
  }

  lemma ProngText(o: Program, acts: Program, body: Program, rest: Program)
    ensures (o + acts + body + [Jump(0)] + rest)[|o| + |acts| + |body| := Jump(|rest| + 1)] ==
      o + ((acts + body) + ([Jump(|rest| + 1)] + rest))
  {
  }

  lemma WhileText(o: Program, s: Stmt, body: Program, back: int)
    requires s.While? && back == -(|WhileInner(s, body)| as int) - 1
    ensures o + [Lab(LoopStart(s.id))] + [GotoUnless(s.test, LoopEnd(s.id))] + ActCode(s.capture) + body +
      ContinueLabel(s.id, body) + ActCode(s.step) + [Goto(LoopStart(s.id))] +
      (if s.captured then [Jump(back)] else []) + [Lab(LoopEnd(s.id))] == o + WhileCode(s, body)
  {
    hide ActCode, ContinueLabel;
    var head := o + [Lab(LoopStart(s.id))] + [GotoUnless(s.test, LoopEnd(s.id))];
    var close := WhileClose(s, body);
    var inner := WhileInner(s, body);
    assert head + (inner + close) == o + WhileCode(s, body);
    var a, c, d, e := ActCode(s.capture), ContinueLabel(s.id, body), ActCode(s.step), [Goto(LoopStart(s.id))];
    assert head + a + body + c + d + e == head + inner;
  }

  lemma WhileLength(s: Stmt, body: Program)
    requires s.While?
    ensures |WhileInner(s, body)| ==
      |ActCode(s.capture)| + |body| + |ContinueLabel(s.id, body)| + |ActCode(s.step)| + 1
  {
  }

  lemma ForLength(s: Stmt, body: Program)
    requires s.For?
    ensures |ForInner(s, body)| == 3 + |body| + |ContinueLabel(s.id, body)|
  {
  }

  lemma ForText(o: Program, s: Stmt, body: Program)
    requires s.For?
    ensures var k: int := |ForInner(s, body)|;
      var set2 := [SetIndex(s.id, s.lo), SetLength(s.id, s.hi)];
      (o + ActCode(s.setup) + set2 + [Lab(LoopStart(s.id))] + [BranchIfDone(s.id, 0)] + [BindItem(s.id)] + body +
       ContinueLabel(s.id, body) + [Advance(s.id), Goto(LoopStart(s.id))])[|o| + |s.setup| + 3 :=
         BranchIfDone(s.id, k + 2)] +
      [Jump(-k - 1), Lab(LoopEnd(s.id))] == o + ForCode(s, body)
  {
    hide ContinueLabel;
    var k: int := |ForInner(s, body)|;
    var set2 := [SetIndex(s.id, s.lo), SetLength(s.id, s.hi)];
    var head := o + ActCode(s.setup) + set2 + [Lab(LoopStart(s.id))];
    var inner := ForInner(s, body);
    var c, d := ContinueLabel(s.id, body), [Advance(s.id), Goto(LoopStart(s.id))];
    assert head + [BranchIfDone(s.id, 0)] + [BindItem(s.id)] + body + c + d == head + [BranchIfDone(s.id, 0)] + inner;
    assert (head + [BranchIfDone(s.id, 0)] + inner)[|head| := BranchIfDone(s.id, k + 2)] ==
      head + [BranchIfDone(s.id, k + 2)] + inner;
    var close := [Jump(-k - 1), Lab(LoopEnd(s.id))];
    var loop := [Lab(LoopStart(s.id))] + ([BranchIfDone(s.id, k + 2)] + (inner + close));
    assert head + [BranchIfDone(s.id, k + 2)] + inner + close == o + (ActCode(s.setup) + (set2 + loop));
  }

  lemma MarkThen(flags: seq<bool>, ids: seq<LoopId>, test: nat, acts: Program, thn: Program)
    requires |flags| == |ids| && forall i :: i in acts ==> !i.Goto?
    ensures Mark(flags, ids, thn) == Mark(flags, ids, [BranchUnless(test, |acts + thn| + 1)] + ((acts + thn) + []))
  {
  }

  lemma MarkBranches(flags: seq<bool>, ids: seq<LoopId>, test: nat, acts: Program, a: Program, b: Program)
    requires |flags| == |ids| && forall i :: i in acts ==> !i.Goto?
    ensures Mark(Mark(flags, ids, a), ids, b) ==
      Mark(flags, ids, [BranchUnless(test, |acts| + |a| + 2)] + ((acts + a) + ([Jump(|b| + 1)] + b)))
  {
  }

  lemma ActsJumpNowhere(actions: seq<nat>)
    ensures |ActCode(actions)| == |actions| && forall i :: i in ActCode(actions) ==> !i.Goto?
  {
  }

  lemma MarkProng(flags: seq<bool>, ids: seq<LoopId>, acts: Program, body: Program, rest: Program)
    requires |flags| == |ids| && forall i :: i in acts ==> !i.Goto?
    ensures Mark(Mark(flags, ids, body), ids, rest) == Mark(flags, ids, (acts + body) + ([Jump(|rest| + 1)] + rest))
  {
  }

  lemma MarkPush(flags: seq<bool>, open: seq<LoopId>, id: LoopId, body: Program)
    requires |flags| == |open|
    ensures Mark(flags + [false], open + [id], body) == Mark(flags, open, body) + [Goto(LoopContinue(id)) in body]
  {
  }

  lemma MarkLoop(flags: seq<bool>, open: seq<LoopId>, s: Stmt, body: Program)
    requires |flags| == |open| && (s.While? || s.For?) && Apart(open, {s.id})
    ensures Mark(flags, open, LoopCodeOf(s, body)) == Mark(flags, open, body)
  {
    hide Before, After, LoopCodeOf;
    LoopSplit(s, body);
    BeforeIsTidy(s, body);
    AfterIsTidy(s, body);
  }

  /** The whole function: an emitter started afresh writes exactly the specified program. */
  method EmitFunctionBody(fn: Function) returns (code: Program)
    requires fn.WellFormed()
    ensures code == EmitFunction(fn)
  {
    hide EmitSeq, Mark;
    var e := new C89Emitter(fn.UsesFlag());
    e.EmitBlock(fn.body, NO_LABEL);
    code := e.out;
    if fn.closingReturn && !SomeExits(fn.body) {
      code := code + [ReturnImplicit];
    }
  }

  lemma EmitBodiesStep(flag: bool, ds: seq<Stmt>, stack: Stack)
    requires GoodBodies(ds) && GoodStack(stack)
    ensures ds == [] ==> EmitBodies(flag, ds, stack) == []
    ensures ds != [] ==>
      EmitBodies(flag, ds, stack) == EmitStmt(flag, ds[|ds| - 1], stack) + EmitBodies(flag, ds[..|ds| - 1], stack)
  {
    hide EmitStmt, Deferrable, Shaped;
  }
}
