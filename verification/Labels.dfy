/**
 Labels of an emitted function: each occurs once, every goto finds its label, and a loop has a
 continue label exactly when some emitted `continue` jumps to it.
 */
module Labels {
  import opened Source
  import opened Target
  import opened Emission

  /** No label and no goto. */
  ghost predicate Plain(code: Program) {
    forall i :: i in code ==> !i.Lab? && !i.Goto? && !i.GotoUnless?
  }

  ghost predicate Tidy(code: Program, labels: set<Label>) {
    UniqueLabels(code) && forall i :: i in code && i.Lab? ==> i.l in labels
  }

  /** Every goto's label is in the code, unless it belongs to an enclosing loop in `outer`. */
  ghost predicate Linked(code: Program, outer: set<LoopId>) {
    && (forall i :: i in code && i.Goto? ==> Lab(i.l) in code || (i.l.id in outer && !i.l.LoopStart?))
    && (forall i :: i in code && i.GotoUnless? ==> Lab(i.l) in code && i.l.LoopEnd?)
    && (forall i :: i in code && i.Lab? && i.l.LoopContinue? ==> Goto(i.l) in code)
  }

  function LabelsFor(ids: set<LoopId>): (labels: set<Label>)
    ensures forall l :: l in labels <==> l.id in ids
  {
    (set i | i in ids :: LoopStart(i)) + (set i | i in ids :: LoopContinue(i)) + (set i | i in ids :: LoopEnd(i))
  }

  lemma TidyConcat(a: Program, b: Program, la: set<Label>, lb: set<Label>, labels: set<Label>)
    requires Tidy(a, la) && Tidy(b, lb) && la !! lb && la <= labels && lb <= labels
    ensures Tidy(a + b, labels)
  {
    var c := a + b;
    forall i, j | 0 <= i < j < |c| && c[i].Lab? && c[j].Lab? ensures c[i] != c[j] {
      if i < |a| && j >= |a| {
        assert c[i] in a && c[j] in b;
      }
    }
  }

  lemma TidyMore(a: Program, la: set<Label>, labels: set<Label>)
    requires Tidy(a, la) && la <= labels
    ensures Tidy(a, labels)
  {
  }

  lemma LinkedConcat(a: Program, b: Program, outer: set<LoopId>)
    requires Linked(a, outer) && Linked(b, outer)
    ensures Linked(a + b, outer)
  {
  }

  lemma PlainIsTidy(code: Program, outer: set<LoopId>)
    requires Plain(code)
    ensures Tidy(code, {}) && Linked(code, outer)
  {
    forall i | 0 <= i < |code| ensures !code[i].Lab? {
      assert code[i] in code;
    }
  }

  /** Both facts at once, for a statement's code. */
  ghost predicate Sound(code: Program, ids: set<LoopId>, outer: set<LoopId>) {
    Tidy(code, LabelsFor(ids)) && Linked(code, outer)
  }

  lemma SoundConcat(a: Program, b: Program, ia: set<LoopId>, ib: set<LoopId>, ids: set<LoopId>, outer: set<LoopId>)
    requires Sound(a, ia, outer) && Sound(b, ib, outer) && ia !! ib && ia <= ids && ib <= ids
    ensures Sound(a + b, ids, outer)
  {
    hide Tidy, Linked;
    TidyConcat(a, b, LabelsFor(ia), LabelsFor(ib), LabelsFor(ids));
    LinkedConcat(a, b, outer);
  }

  lemma PlainIsSound(code: Program, ids: set<LoopId>, outer: set<LoopId>)
    requires Plain(code)
    ensures Sound(code, ids, outer)
  {
    hide Tidy, Linked;
    PlainIsTidy(code, outer);
    TidyMore(code, {}, LabelsFor(ids));
  }

  lemma SoundMore(code: Program, ia: set<LoopId>, ids: set<LoopId>, outer: set<LoopId>)
    requires Sound(code, ia, outer) && ia <= ids
    ensures Sound(code, ids, outer)
  {
    hide Tidy, Linked;
    TidyMore(code, LabelsFor(ia), LabelsFor(ids));
  }

  // ----- Deferred code is plain -----

  lemma {:induction false} DeferredIsPlain(flag: bool, s: Stmt, stack: Stack)
    requires Deferrable(s) && Shaped(s) && GoodStack(stack)
    ensures Plain(EmitStmt(flag, s, stack))
    decreases 0, Size(s), 1
  {
    match s
    case Block(b) => DeferredSeqIsPlain(flag, b, stack, Scope(NO_LABEL, [], []));
    case If(_, _, thn, els) =>
      DeferredSeqIsPlain(flag, thn, stack, Scope(NO_LABEL, [], []));
      if els.Some? {
        DeferredIsPlain(flag, els.value, stack);
      }
    case Switch(_, ps) => DeferredProngsArePlain(flag, ps, stack);
    case _ =>
  }

  lemma {:induction false} DeferredSeqIsPlain(flag: bool, rest: seq<Stmt>, stack: Stack, sc: Scope)
    requires DeferrableSeq(rest) && ShapedSeq(rest) && GoodStack(stack) && GoodScope(sc)
    ensures Plain(EmitSeq(flag, rest, stack, sc))
    decreases 0, SizeSeq(rest) + SizeSeq(sc.defers) + SizeSeq(sc.errDefers), 4
  {
    if rest == [] {
      BodiesArePlain(flag, sc.defers, stack + [sc]);
    } else if rest[0].Defer? {
      assert Shaped(rest[0]) && Size(rest[0]) == 1 + Size(rest[0].deferred);
      SizeSeqAppend(sc.defers, rest[0].deferred);
      DeferredSeqIsPlain(flag, rest[1..], stack, sc.(defers := sc.defers + [rest[0].deferred]));
    } else if rest[0].ErrDefer? {
      assert Shaped(rest[0]) && Size(rest[0]) == 1 + Size(rest[0].deferred);
      SizeSeqAppend(sc.errDefers, rest[0].deferred);
      DeferredSeqIsPlain(flag, rest[1..], stack, sc.(errDefers := sc.errDefers + [rest[0].deferred]));
    } else {
      DeferredIsPlain(flag, rest[0], stack + [sc]);
      DeferredSeqIsPlain(flag, rest[1..], stack, sc);
    }
  }

  lemma {:induction false} BodiesArePlain(flag: bool, ds: seq<Stmt>, stack: Stack)
    requires GoodBodies(ds) && GoodStack(stack)
    ensures Plain(EmitBodies(flag, ds, stack))
    decreases 0, SizeSeq(ds), 2
  {
    hide Deferrable, Shaped, EmitStmt, Size;
    if ds != [] {
      SizeSeqInit(ds);
      DeferredIsPlain(flag, ds[|ds| - 1], stack);
      BodiesArePlain(flag, ds[..|ds| - 1], stack);
    }
  }

  lemma {:induction false} DeferredProngsArePlain(flag: bool, ps: seq<Prong>, stack: Stack)
    requires DeferrableProngs(ps) && ShapedProngs(ps) && GoodStack(stack)
    ensures Plain(EmitProngs(flag, ps, stack))
    decreases 0, SizeProngs(ps), 6
  {
    if ps != [] {
      DeferredSeqIsPlain(flag, ps[0].body, stack, Scope(NO_LABEL, [], []));
      DeferredProngsArePlain(flag, ps[1..], stack);
    }
  }

  lemma {:induction false} ExitIsPlain(flag: bool, stack: Stack, k: nat, target: int)
    requires GoodStack(stack) && k <= |stack|
    ensures Plain(EmitExit(flag, stack, k, target))
    decreases k
  {
    hide EmitBodies, Deferrable, Shaped, Plain;
    NothingIsPlain();
    if k > 0 {
      var sc := stack[k - 1];
      BodiesArePlain(flag, sc.defers, stack);
      ErrCodeIsPlain(flag, sc, stack);
      ExitIsPlain(flag, stack, k - 1, target);
      var rest := if target != NO_LABEL && sc.owner == target then [] else EmitExit(flag, stack, k - 1, target);
      var a, b := EmitBodies(flag, sc.defers, stack), ErrCode(flag, sc, stack);
      PlainConcat(b, rest);
      PlainConcat(a, b + rest);
      PlainConcat(a, b);
      PlainConcat(a + b, rest);
    }
  }

  lemma NothingIsPlain()
    ensures Plain([])
  {
  }

  lemma PlainConcat(a: Program, b: Program)
    requires Plain(a) && Plain(b)
    ensures Plain(a + b)
  {
  }

  lemma ErrCodeIsPlain(flag: bool, sc: Scope, stack: Stack)
    requires GoodStack(stack) && GoodScope(sc)
    ensures Plain(ErrCode(flag, sc, stack))
  {
    hide EmitBodies, Deferrable, Shaped;
    BodiesArePlain(flag, sc.errDefers, stack);
  }

  // ----- Loops -----

  function Before(s: Stmt, body: Program): Program
    requires s.While? || s.For?
  {
    if s.While? then [Lab(LoopStart(s.id)), GotoUnless(s.test, LoopEnd(s.id))] + ActCode(s.capture)
    else
      ActCode(s.setup) + [SetIndex(s.id, s.lo), SetLength(s.id, s.hi), Lab(LoopStart(s.id)),
                          BranchIfDone(s.id, |ForInner(s, body)| + 2), BindItem(s.id)]
  }

  function After(s: Stmt, body: Program): Program
    requires s.While? || s.For?
  {
    if s.While? then ActCode(s.step) + [Goto(LoopStart(s.id))] + WhileClose(s, body)
    else [Advance(s.id), Goto(LoopStart(s.id)), Jump(-(|ForInner(s, body)| as int) - 1), Lab(LoopEnd(s.id))]
  }

  function LoopCodeOf(s: Stmt, body: Program): Program
    requires s.While? || s.For?
  {
    if s.While? then WhileCode(s, body) else ForCode(s, body)
  }

  lemma Regroup(a: Program, b: Program, c: Program, d: Program, e: Program)
    ensures a + (b + (c + d) + e) == a + b + c + (d + e)
  {
  }

  lemma LoopSplit(s: Stmt, body: Program)
    requires s.While? || s.For?
    ensures LoopCodeOf(s, body) == Before(s, body) + body + ContinueLabel(s.id, body) + After(s, body)
  {
    if s.While? {
      WhileSplit(s, body);
    } else {
      ForSplit(s, body);
    }
  }

  lemma WhileSplit(s: Stmt, body: Program)
    requires s.While?
    ensures WhileCode(s, body) == Before(s, body) + body + ContinueLabel(s.id, body) + After(s, body)
  {
    hide ActCode, ContinueLabel, WhileClose;
    var head := [Lab(LoopStart(s.id)), GotoUnless(s.test, LoopEnd(s.id))];
    var cap, cont := ActCode(s.capture), ContinueLabel(s.id, body);
    var back := ActCode(s.step) + [Goto(LoopStart(s.id))];
    var close := WhileClose(s, body);
    var inner := cap + (body + (cont + back));
    assert WhileCode(s, body) == head + (inner + close);
    assert inner + close == cap + (body + (cont + back) + close);
    Regroup(cap, body, cont, back, close);
    assert head + (cap + body + cont + (back + close)) == (head + cap) + body + cont + (back + close);
  }

  lemma ForSplit(s: Stmt, body: Program)
    requires s.For?
    ensures ForCode(s, body) == Before(s, body) + body + ContinueLabel(s.id, body) + After(s, body)
  {
    hide ActCode, ContinueLabel;
    var k: int := |ForInner(s, body)|;
    var acts, cont := ActCode(s.setup), ContinueLabel(s.id, body);
    var set2 := [SetIndex(s.id, s.lo), SetLength(s.id, s.hi)];
    var head := [Lab(LoopStart(s.id)), BranchIfDone(s.id, k + 2)];
    var bind := [BindItem(s.id)];
    var back := [Advance(s.id), Goto(LoopStart(s.id))];
    var close := [Jump(-k - 1), Lab(LoopEnd(s.id))];
    var inner := bind + (body + (cont + back));
    assert ForLoop(s, body) == head + (inner + close);
    assert inner + close == bind + (body + (cont + back) + close);
    Regroup(bind, body, cont, back, close);
    var rest := body + cont + (back + close);
    assert head + (bind + body + cont + (back + close)) == (head + bind) + rest;
    assert acts + (set2 + ((head + bind) + rest)) == (acts + (set2 + (head + bind))) + rest;
    assert Before(s, body) == acts + (set2 + (head + bind));
    assert After(s, body) == back + close;
    var before := Before(s, body);
    assert before + rest == before + body + cont + (back + close);
  }

  lemma BeforeIsTidy(s: Stmt, body: Program)
    requires s.While? || s.For?
    ensures Tidy(Before(s, body), {LoopStart(s.id)}) && Lab(LoopStart(s.id)) in Before(s, body)
    ensures forall i :: i in Before(s, body) ==> !i.Goto? && (i.GotoUnless? ==> i.l == LoopEnd(s.id))
  {
    hide ForInner;
    var code := Before(s, body);
    var at := if s.While? then 0 else |s.setup| + 2;
    assert code[at] == Lab(LoopStart(s.id));
    assert forall i :: 0 <= i < |code| && i != at ==> !code[i].Lab?;
  }

  lemma AfterIsTidy(s: Stmt, body: Program)
    requires s.While? || s.For?
    ensures Tidy(After(s, body), {LoopEnd(s.id)}) && Lab(LoopEnd(s.id)) in After(s, body)
    ensures forall i :: i in After(s, body) ==> !i.GotoUnless? && (i.Goto? ==> i.l == LoopStart(s.id))
  {
    hide ForInner, WhileInner;
    var code := After(s, body);
    assert code[|code| - 1] == Lab(LoopEnd(s.id));
    assert forall i :: 0 <= i < |code| - 1 ==> !code[i].Lab?;
  }

  lemma LoopIsSound(s: Stmt, body: Program, ids: set<LoopId>, outer: set<LoopId>)
    requires (s.While? || s.For?) && s.id !in ids && Sound(body, ids, outer + {s.id})
    ensures Sound(LoopCodeOf(s, body), ids + {s.id}, outer)
  {
    hide Before, After, LoopCodeOf, Tidy, Sound;
    LoopSplit(s, body);
    BeforeIsTidy(s, body);
    AfterIsTidy(s, body);
    SurroundsOnly(s, body);
    LoopIsTidy(body, s.id, Before(s, body), After(s, body), ids, outer);
  }

  lemma SurroundsOnly(s: Stmt, body: Program)
    requires (s.While? || s.For?) && Tidy(Before(s, body), {LoopStart(s.id)}) && Tidy(After(s, body), {LoopEnd(s.id)})
    ensures forall i :: i in Before(s, body) + After(s, body) && i.Lab? ==> !i.l.LoopContinue?
  {
    hide Before, After;
  }

  /** What surrounds a loop body: the start label before it, the end label after it, gotos to those only. */
  lemma LoopIsTidy(body: Program, id: LoopId, before: Program, after: Program, ids: set<LoopId>, outer: set<LoopId>)
    requires id !in ids && Sound(body, ids, outer + {id})
    requires Tidy(before, {LoopStart(id)}) && Tidy(after, {LoopEnd(id)})
    requires Lab(LoopStart(id)) in before && Lab(LoopEnd(id)) in after
    requires forall i :: i in before + after && i.Goto? ==> i.l == LoopStart(id)
    requires forall i :: i in before + after && i.GotoUnless? ==> i.l == LoopEnd(id)
    requires forall i :: i in before + after && i.Lab? ==> !i.l.LoopContinue?
    ensures Sound(before + body + ContinueLabel(id, body) + after, ids + {id}, outer)
  {
    hide Tidy, Linked, LabelsFor;
    var cont := ContinueLabel(id, body);
    var l0 := {LoopStart(id)};
    var l1 := l0 + LabelsFor(ids);
    var l2 := l1 + {LoopContinue(id)};
    ContinueIsTidy(id, body);
    TidyConcat(before, body, l0, LabelsFor(ids), l1);
    TidyConcat(before + body, cont, l1, {LoopContinue(id)}, l2);
    TidyConcat(before + body + cont, after, l2, {LoopEnd(id)}, LabelsFor(ids + {id}));
    LoopIsLinked(body, id, before, after, outer);
  }

  lemma ContinueIsTidy(id: LoopId, body: Program)
    ensures Tidy(ContinueLabel(id, body), {LoopContinue(id)})
  {
  }

  lemma LoopIsLinked(body: Program, id: LoopId, before: Program, after: Program, outer: set<LoopId>)
    requires Linked(body, outer + {id}) && Lab(LoopStart(id)) in before && Lab(LoopEnd(id)) in after
    requires forall i :: i in before + after && i.Goto? ==> i.l == LoopStart(id)
    requires forall i :: i in before + after && i.GotoUnless? ==> i.l == LoopEnd(id)
    requires forall i :: i in before + after && i.Lab? ==> !i.l.LoopContinue?
    ensures Linked(before + body + ContinueLabel(id, body) + after, outer)
  {
    var cont := ContinueLabel(id, body);
    var all := before + body + cont + after;
    assert forall i :: i in all <==> i in before + after || i in body || i in cont;
    forall i | i in all && i.Goto? ensures Lab(i.l) in all || (i.l.id in outer && !i.l.LoopStart?) {
      if i in body && Lab(i.l) !in body && i.l.id == id && i.l.LoopContinue? {
        assert i == Goto(LoopContinue(id));
        assert Lab(i.l) in cont;
      }
    }
  }

  // ----- Every statement -----

  lemma {:induction false} StmtIsSound(flag: bool, s: Stmt, stack: Stack, outer: set<LoopId>)
    requires Shaped(s) && Distinct(s) && Closed(s, outer) && GoodStack(stack)
    ensures Sound(EmitStmt(flag, s, stack), Ids(s), outer)
    decreases Size(s), 1
  {
    hide Sound, Tidy, Linked, EmitSeq, EmitExit, EmitProngs, Arms, WhileCode, ForCode, ShapedSeq, DistinctSeq,
         ClosedSeq, GoodStack;
    match s
    case Block(b) => SeqIsSound(flag, b, stack, Scope(NO_LABEL, [], []), outer);
    case If(c, capture, thn, els) =>
      IfParts(s, outer);
      var thenCode := EmitSeq(flag, thn, stack, Scope(NO_LABEL, [], []));
      SeqIsSound(flag, thn, stack, Scope(NO_LABEL, [], []), outer);
      var a := ActCode(capture) + thenCode;
      PlainIsSound(ActCode(capture), {}, outer);
      SoundConcat(ActCode(capture), thenCode, {}, IdsSeq(thn), IdsSeq(thn), outer);
      if els.None? {
        PlainIsSound([BranchUnless(c, |a| + 1)], {}, outer);
        SoundConcat([BranchUnless(c, |a| + 1)], a, {}, IdsSeq(thn), Ids(s), outer);
      } else {
        StmtIsSound(flag, els.value, stack, outer);
        var b := EmitStmt(flag, els.value, stack);
        PlainIsSound([BranchUnless(c, |a| + 2)], {}, outer);
        PlainIsSound([Jump(|b| + 1)], {}, outer);
        SoundConcat([Jump(|b| + 1)], b, {}, Ids(els.value), Ids(els.value), outer);
        SoundConcat(a, [Jump(|b| + 1)] + b, IdsSeq(thn), Ids(els.value), Ids(s), outer);
        SoundConcat([BranchUnless(c, |a| + 2)], a + ([Jump(|b| + 1)] + b), {}, Ids(s), Ids(s), outer);
      }
    case Switch(e, ps) =>
      ProngsAreSound(flag, ps, stack, outer);
      var bodies := EmitProngs(flag, ps, stack);
      var head := [SwitchOn(e, Arms(flag, ps, stack, 1), |bodies| + 1)];
      PlainIsSound(head, {}, outer);
      SoundConcat(head, bodies, {}, IdsProngs(ps), Ids(s), outer);
    case While(id, _, _, _, _, body) =>
      LoopParts(s, outer);
      SeqIsSound(flag, body, stack, Scope(id, [], []), outer + {id});
      LoopIsSound(s, EmitSeq(flag, body, stack, Scope(id, [], [])), IdsSeq(body), outer);
    case For(id, _, _, _, body) =>
      LoopParts(s, outer);
      SeqIsSound(flag, body, stack, Scope(id, [], []), outer + {id});
      LoopIsSound(s, EmitSeq(flag, body, stack, Scope(id, [], [])), IdsSeq(body), outer);
    case Break(id) =>
      JumpIsSound(flag, stack, id, LoopEnd(id), outer);
    case Continue(id) =>
      JumpIsSound(flag, stack, id, LoopContinue(id), outer);
    case Return(_, _) =>
      ExitIsPlain(flag, stack, |stack|, NO_LABEL);
      PlainIsSound(EmitStmt(flag, s, stack), {}, outer);
    case _ => PlainIsSound(EmitStmt(flag, s, stack), {}, outer);
  }

  lemma JumpIsSound(flag: bool, stack: Stack, id: LoopId, l: Label, outer: set<LoopId>)
    requires GoodStack(stack) && l.id in outer && !l.LoopStart?
    ensures Sound(EmitExit(flag, stack, |stack|, id) + [Goto(l)], {}, outer)
  {
    hide EmitExit;
    var exit := EmitExit(flag, stack, |stack|, id);
    ExitIsPlain(flag, stack, |stack|, id);
    PlainIsTidy(exit, outer);
    assert Tidy([Goto(l)], {}) && Linked([Goto(l)], outer);
    TidyConcat(exit, [Goto(l)], {}, {}, {});
    LinkedConcat(exit, [Goto(l)], outer);
  }

  lemma {:induction false} SeqIsSound(flag: bool, rest: seq<Stmt>, stack: Stack, sc: Scope, outer: set<LoopId>)
    requires ShapedSeq(rest) && DistinctSeq(rest) && ClosedSeq(rest, outer) && GoodStack(stack) && GoodScope(sc)
    ensures Sound(EmitSeq(flag, rest, stack, sc), IdsSeq(rest), outer)
    decreases SizeSeq(rest), 0
  {
    hide Sound, Tidy, Linked, EmitStmt, EmitBodies, Shaped, Distinct, Closed, Deferrable, AllPathsExit;
    if rest == [] {
      BodiesArePlain(flag, sc.defers, stack + [sc]);
      PlainIsSound(EmitSeq(flag, rest, stack, sc), {}, outer);
      return;
    }
    SeqParts(rest, outer);
    if rest[0].Defer? {
      DeferParts(rest[0]);
      SeqIsSound(flag, rest[1..], stack, sc.(defers := sc.defers + [rest[0].deferred]), outer);
      SoundMore(EmitSeq(flag, rest, stack, sc), IdsSeq(rest[1..]), IdsSeq(rest), outer);
    } else if rest[0].ErrDefer? {
      DeferParts(rest[0]);
      SeqIsSound(flag, rest[1..], stack, sc.(errDefers := sc.errDefers + [rest[0].deferred]), outer);
      SoundMore(EmitSeq(flag, rest, stack, sc), IdsSeq(rest[1..]), IdsSeq(rest), outer);
    } else {
      var c := EmitStmt(flag, rest[0], stack + [sc]);
      StmtIsSound(flag, rest[0], stack + [sc], outer);
      if AllPathsExit(rest[0]) {
        SoundMore(c, Ids(rest[0]), IdsSeq(rest), outer);
      } else {
        SeqIsSound(flag, rest[1..], stack, sc, outer);
        SoundConcat(c, EmitSeq(flag, rest[1..], stack, sc), Ids(rest[0]), IdsSeq(rest[1..]), IdsSeq(rest), outer);
      }
    }
  }

  lemma {:induction false} ProngsAreSound(flag: bool, ps: seq<Prong>, stack: Stack, outer: set<LoopId>)
    requires ShapedProngs(ps) && DistinctProngs(ps) && ClosedProngs(ps, outer) && GoodStack(stack)
    ensures Sound(EmitProngs(flag, ps, stack), IdsProngs(ps), outer)
    decreases SizeProngs(ps), 0
  {
    hide Sound, Tidy, Linked, EmitSeq, ShapedSeq, DistinctSeq, ClosedSeq;
    if ps == [] {
      PlainIsSound(EmitProngs(flag, ps, stack), {}, outer);
    } else {
      var body := EmitSeq(flag, ps[0].body, stack, Scope(NO_LABEL, [], []));
      var acts := ActCode(ps[0].capture);
      var rest := EmitProngs(flag, ps[1..], stack);
      SeqIsSound(flag, ps[0].body, stack, Scope(NO_LABEL, [], []), outer);
      ProngsAreSound(flag, ps[1..], stack, outer);
      PlainIsSound(acts, {}, outer);
      PlainIsSound([Jump(|rest| + 1)], {}, outer);
      SoundConcat(acts, body, {}, IdsSeq(ps[0].body), IdsSeq(ps[0].body), outer);
      SoundConcat([Jump(|rest| + 1)], rest, {}, IdsProngs(ps[1..]), IdsProngs(ps[1..]), outer);
      SoundConcat(acts + body, [Jump(|rest| + 1)] + rest, IdsSeq(ps[0].body), IdsProngs(ps[1..]), IdsProngs(ps), outer);
    }
  }

  /**
   In an emitted function every goto names exactly one emitted label, and a continue label is
   emitted exactly when an emitted `continue` jumps to it.
   */
  lemma FunctionIsLinked(fn: Function)
    requires fn.WellFormed()
    ensures var p := EmitFunction(fn);
      && UniqueLabels(p)
      && (forall i :: i in p && (i.Goto? || i.GotoUnless?) ==> Lab(i.l) in p)
      && (forall id :: Lab(LoopContinue(id)) in p <==> Goto(LoopContinue(id)) in p)
  {
    hide EmitSeq, UniqueLabels;
    var flag, sc := fn.UsesFlag(), Scope(NO_LABEL, [], []);
    var body := EmitSeq(flag, fn.body, [], sc);
    SeqIsSound(flag, fn.body, [], sc, {});
    var close := if fn.closingReturn && !SomeExits(fn.body) then [ReturnImplicit] else [];
    PlainIsSound(close, {}, {});
    SoundConcat(body, close, IdsSeq(fn.body), {}, IdsSeq(fn.body), {});
    var p := EmitFunction(fn);
    assert Linked(p, {});
    forall id ensures Lab(LoopContinue(id)) in p <==> Goto(LoopContinue(id)) in p {
      if Goto(LoopContinue(id)) in p {
        assert Goto(LoopContinue(id)).l == LoopContinue(id);
      }
    }
  }
}
