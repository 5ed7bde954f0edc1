/**
 The compile-time defer stack is the run-time stack: whenever the emitted code starts a statement that was
 emitted under a stack, the bodies pending at that moment are those of the stack, innermost last.
 */
module DeferStack {
  import opened Options
  import opened Source
  import opened SourceSemantics
  import opened SourceFacts
  import opened Target
  import opened Emission
  import opened Simulation
  import opened Labels
  import opened BackEndCorrectness
  import opened DeferDiscipline

  // ----- The statements a run starts -----

  /** A statement of the function's own code, the stack it is emitted under, and the trace when it is started. */
  datatype Visit = Visit(s: Stmt, stack: Stack, t: Trace)

  const OPEN := Scope(NO_LABEL, [], [])

  ghost function VisitsS(w: World, s: Stmt, stack: Stack, t: Trace, fuel: nat): set<Visit>
    decreases fuel, Size(s), 1
  {
    {Visit(s, stack, t)} +
    match s
    case Block(b) => VisitsB(w, b, stack, OPEN, t, fuel)
    case If(c, capture, thn, els) =>
      var t1 := t + [Tested(c)];
      if w.test(c, t) then VisitsB(w, thn, stack, OPEN, t1 + Acts(capture), fuel)
      else if els.Some? then VisitsS(w, els.value, stack, t1, fuel)
      else {}
    case Switch(e, ps) =>
      var k := Pick(ps, w.value(e, t));
      if k < |ps| then
        SizeProngsMember(ps, k);
        VisitsB(w, ps[k].body, stack, OPEN, t + [Read(e)] + Acts(ps[k].capture), fuel)
      else {}
    case While(_, _, _, _, _, _) => VisitsW(w, s, stack, t, fuel)
    case For(_, setup, lo, hi, _) =>
      var t1 := t + Acts(setup);
      var t2 := t1 + [Read(lo)];
      VisitsF(w, s, stack, w.value(lo, t1), w.value(hi, t2), t2 + [Read(hi)], fuel)
    case _ => {}
  }

  ghost function VisitsB(w: World, rest: seq<Stmt>, stack: Stack, sc: Scope, t: Trace, fuel: nat): set<Visit>
    decreases fuel, SizeSeq(rest), 2
  {
    if rest == [] then {}
    else if rest[0].Defer? then VisitsB(w, rest[1..], stack, sc.(defers := sc.defers + [rest[0].deferred]), t, fuel)
    else if rest[0].ErrDefer? then
      VisitsB(w, rest[1..], stack, sc.(errDefers := sc.errDefers + [rest[0].deferred]), t, fuel)
    else
      var r := Exec(w, rest[0], t, fuel);
      VisitsS(w, rest[0], stack + [sc], t, fuel)
      + if r.out.Normal? then VisitsB(w, rest[1..], stack, sc, r.t, fuel) else {}
  }

  ghost function VisitsW(w: World, s: Stmt, stack: Stack, t: Trace, fuel: nat): set<Visit>
    requires s.While?
    decreases fuel, Size(s), 0
  {
    if fuel == 0 || !w.test(s.test, t) then {}
    else
      var t1 := t + [Tested(s.test)] + Acts(s.capture);
      var b := ExecSeq(w, s.body, [], [], t1, fuel - 1);
      VisitsB(w, s.body, stack, Scope(s.id, [], []), t1, fuel - 1)
      + if b.out.Normal? || b.out == Continued(s.id) then VisitsW(w, s, stack, b.t + Acts(s.step), fuel - 1) else {}
  }

  ghost function VisitsF(w: World, s: Stmt, stack: Stack, i: int, n: int, t: Trace, fuel: nat): set<Visit>
    requires s.For?
    decreases fuel, Size(s), 0
  {
    if fuel == 0 || i >= n then {}
    else
      var t1 := t + [Bound(s.id, i)];
      var b := ExecSeq(w, s.body, [], [], t1, fuel - 1);
      VisitsB(w, s.body, stack, Scope(s.id, [], []), t1, fuel - 1)
      + if b.out.Normal? || b.out == Continued(s.id) then VisitsF(w, s, stack, i + 1, n, b.t, fuel - 1) else {}
  }

  // ----- The emitted code starts them too -----

  /** After `n` steps control is at the code of the visited statement, with the visit's trace. */
  ghost predicate Starts(w: World, p: Program, flag: bool, v: Visit, c0: Config, n: nat) {
    && Shaped(v.s) && GoodStack(v.stack)
    && var c := Steps(w, p, c0, n);
    c.Run? && c.t == v.t && At(p, c.pc, EmitStmt(flag, v.s, v.stack))
  }

  lemma StartsLater(w: World, p: Program, flag: bool, v: Visit, c0: Config, m: nat, c1: Config, n: nat)
    requires Steps(w, p, c0, m) == c1 && Starts(w, p, flag, v, c1, n)
    ensures Starts(w, p, flag, v, c0, m + n)
  {
    hide Steps, At, EmitStmt, Shaped, GoodStack;
    StepsAdd(w, p, c0, m, n);
  }

  lemma StartsHere(w: World, p: Program, flag: bool, s: Stmt, stack: Stack, c0: Config)
    requires Ready(w, p, flag, stack, c0) && Shaped(s) && At(p, c0.pc, EmitStmt(flag, s, stack))
    ensures Starts(w, p, flag, Visit(s, stack, c0.t), c0, 0)
  {
    hide Steps, At, EmitStmt, Shaped, GoodStack;
    StepsNone(w, p, c0);
  }

  lemma {:induction false} ReachS(
    w: World, p: Program, flag: bool, s: Stmt, stack: Stack, c0: Config, fuel: nat, v: Visit)
    returns (n: nat)
    requires Ready(w, p, flag, stack, c0) && Shaped(s) && Distinct(s) && !c0.err
    requires w.errorUnion && !flag ==> !HasErrDefer(s)
    requires At(p, c0.pc, EmitStmt(flag, s, stack))
    requires v in VisitsS(w, s, stack, c0.t, fuel)
    ensures Starts(w, p, flag, v, c0, n)
    decreases fuel, Size(s), 3
  {
    hide At, Step, Steps, EmitSeq, ExecSeq, EmitExit, GoodStack, WhileCode, ForCode, ShapedSeq, DistinctSeq,
         HasErrDeferSeq, Starts, ExecWhile, ExecFor, EmitProngs, Arms, VisitsB, VisitsW, VisitsF, UniqueLabels;
    if v == Visit(s, stack, c0.t) {
      StartsHere(w, p, flag, s, stack, c0);
      n := 0;
      return;
    }
    match s
    case Block(b) => n := ReachB(w, p, flag, b, stack, OPEN, c0, fuel, v);
    case If(_, _, _, _) => n := ReachIf(w, p, flag, s, stack, c0, fuel, v);
    case Switch(_, _) => n := ReachSwitch(w, p, flag, s, stack, c0, fuel, v);
    case While(_, _, _, _, _, _) =>
      LoopCode(flag, s, stack);
      n := ReachW(w, p, flag, s, stack, c0, fuel, v);
    case For(_, _, _, _, _) =>
      LoopCode(flag, s, stack);
      n := ReachFor(w, p, flag, s, stack, c0, fuel, v);
  }

  lemma {:induction false} ReachB(
    w: World, p: Program, flag: bool, rest: seq<Stmt>, stack: Stack, sc: Scope, c0: Config, fuel: nat, v: Visit)
    returns (n: nat)
    requires Ready(w, p, flag, stack, c0) && ShapedSeq(rest) && DistinctSeq(rest) && GoodScope(sc) && !c0.err
    requires w.errorUnion && !flag ==> !HasErrDeferSeq(rest) && sc.errDefers == [] && Quiet(sc.defers)
    requires At(p, c0.pc, EmitSeq(flag, rest, stack, sc))
    requires v in VisitsB(w, rest, stack, sc, c0.t, fuel)
    ensures Starts(w, p, flag, v, c0, n)
    decreases fuel, SizeSeq(rest), 4
  {
    hide At, Step, Steps, Arrives, EmitStmt, Exec, EmitSeq, ExecSeq, Shaped, ShapedSeq, Distinct, DistinctSeq,
         Deferrable, DeferrableSeq, HasErrDefer, HasErrDeferSeq, Ids, IdsSeq, Size, SizeSeq, AllPathsExit, EmitBodies,
         VisitsS, Starts, UniqueLabels;
    SeqParts(rest, {});
    SeqCode(flag, rest, stack, sc);
    var s := rest[0];
    if s.Defer? || s.ErrDefer? {
      DeferParts(s);
      var next := if s.Defer? then sc.(defers := sc.defers + [s.deferred])
        else sc.(errDefers := sc.errDefers + [s.deferred]);
      n := ReachB(w, p, flag, rest[1..], stack, next, c0, fuel, v);
      return;
    }
    var inner := stack + [sc];
    var code := EmitStmt(flag, s, inner);
    var tail := if AllPathsExit(s) then [] else EmitSeq(flag, rest[1..], stack, sc);
    AtSplit(p, c0.pc, code, tail);
    InnerReady(w, p, flag, stack, sc, c0);
    if v in VisitsS(w, s, inner, c0.t, fuel) {
      n := ReachS(w, p, flag, s, inner, c0, fuel, v);
    } else {
      if AllPathsExit(s) {
        ExitsNeverFallThrough(w, s, c0.t, fuel);
      }
      var m, c1 := SimStmt(w, p, flag, s, inner, c0, fuel);
      ArrivesNormally(w, p, inner, NO_LABEL, Exec(w, s, c0.t, fuel), c0.pc + |code|, Ids(s), c0, c1);
      var k := ReachB(w, p, flag, rest[1..], stack, sc, c1, fuel, v);
      StartsLater(w, p, flag, v, c0, m, c1, k);
      n := m + k;
    }
  }

  lemma InnerReady(w: World, p: Program, flag: bool, stack: Stack, sc: Scope, c: Config)
    requires Ready(w, p, flag, stack, c) && GoodScope(sc)
    requires w.errorUnion && !flag ==> sc.errDefers == [] && Quiet(sc.defers)
    ensures Ready(w, p, flag, stack + [sc], c)
  {
    hide UniqueLabels, Quiet;
  }

  lemma IfVisits(w: World, s: Stmt, stack: Stack, t: Trace, fuel: nat)
    requires s.If?
    ensures var t1 := t + [Tested(s.test)];
      VisitsS(w, s, stack, t, fuel) ==
      {Visit(s, stack, t)} +
      if w.test(s.test, t) then VisitsB(w, s.thn, stack, OPEN, t1 + Acts(s.capture), fuel)
      else if s.els.Some? then VisitsS(w, s.els.value, stack, t1, fuel)
      else {}
  {
    hide VisitsB, Acts;
  }

  lemma {:induction false} ReachThen(
    w: World, p: Program, flag: bool, s: Stmt, stack: Stack, c0: Config, fuel: nat, v: Visit)
    returns (n: nat)
    requires s.If? && Ready(w, p, flag, stack, c0) && Shaped(s) && Distinct(s) && !c0.err && ShapedSeq(s.thn)
    requires w.errorUnion && !flag ==> !HasErrDefer(s)
    requires At(p, c0.pc, ThenCode(flag, s, stack))
    requires v in VisitsB(w, s.thn, stack, OPEN, c0.t + Acts(s.capture), fuel)
    ensures Starts(w, p, flag, v, c0, n)
    decreases fuel, Size(s), 1
  {
    hide At, Step, Steps, UniqueLabels, EmitStmt, EmitSeq, GoodStack, Shaped, ShapedSeq, Distinct, HasErrDefer, Size,
         Starts, VisitsB, VisitsS, ActCode, Acts;
    IfParts(s, {});
    ActLength(s.capture);
    var thn := EmitSeq(flag, s.thn, stack, OPEN);
    AtSplit(p, c0.pc, ActCode(s.capture), thn);
    RunActs(w, p, s.capture, c0);
    var d1 := c0.(pc := c0.pc + |s.capture|, t := c0.t + Acts(s.capture));
    var k := ReachB(w, p, flag, s.thn, stack, OPEN, d1, fuel, v);
    StartsLater(w, p, flag, v, c0, |s.capture|, d1, k);
    n := |s.capture| + k;
  }

  lemma ActLength(actions: seq<nat>)
    ensures |ActCode(actions)| == |actions|
  {
  }

  lemma {:induction false} ReachIf(
    w: World, p: Program, flag: bool, s: Stmt, stack: Stack, c0: Config, fuel: nat, v: Visit)
    returns (n: nat)
    requires s.If? && Ready(w, p, flag, stack, c0) && Shaped(s) && Distinct(s) && !c0.err
    requires w.errorUnion && !flag ==> !HasErrDefer(s)
    requires At(p, c0.pc, EmitStmt(flag, s, stack))
    requires v in VisitsS(w, s, stack, c0.t, fuel) && v != Visit(s, stack, c0.t)
    ensures Starts(w, p, flag, v, c0, n)
    decreases fuel, Size(s), 2
  {
    hide At, Step, Steps, UniqueLabels, EmitStmt, EmitSeq, GoodStack, Shaped, ShapedSeq, Distinct, HasErrDefer, Size,
         Starts, VisitsB, VisitsS, ThenCode, ElseCode, ActCode, Acts;
    IfParts(s, {});
    IfCode(flag, s, stack);
    BranchParts(flag, s, stack);
    IfVisits(w, s, stack, c0.t, fuel);
    var a := ThenCode(flag, s, stack);
    var tail := ElseCode(flag, s, stack);
    var skip := if s.els.None? then |a| + 1 else |a| + 2;
    AtFirst(p, c0.pc, BranchUnless(s.test, skip), a + tail);
    AtSplit(p, c0.pc + 1, a, tail);
    DoBranchUnless(w, p, c0, s.test, skip);
    var d0 := c0.(pc := if w.test(s.test, c0.t) then c0.pc + 1 else c0.pc + skip, t := c0.t + [Tested(s.test)]);
    if w.test(s.test, c0.t) {
      var k := ReachThen(w, p, flag, s, stack, d0, fuel, v);
      StartsLater(w, p, flag, v, c0, 1, d0, k);
      n := 1 + k;
    } else {
      var b := EmitStmt(flag, s.els.value, stack);
      AtFirst(p, d0.pc - 1, Jump(|b| + 1), b);
      var k := ReachS(w, p, flag, s.els.value, stack, d0, fuel, v);
      StartsLater(w, p, flag, v, c0, 1, d0, k);
      n := 1 + k;
    }
  }

  lemma {:induction false} ReachSwitch(
    w: World, p: Program, flag: bool, s: Stmt, stack: Stack, c0: Config, fuel: nat, v: Visit)
    returns (n: nat)
    requires s.Switch? && Ready(w, p, flag, stack, c0) && Shaped(s) && Distinct(s) && !c0.err
    requires w.errorUnion && !flag ==> !HasErrDefer(s)
    requires At(p, c0.pc, EmitStmt(flag, s, stack))
    requires v in VisitsS(w, s, stack, c0.t, fuel) && v != Visit(s, stack, c0.t)
    ensures Starts(w, p, flag, v, c0, n)
    decreases fuel, Size(s), 2
  {
    hide At, Step, Steps, UniqueLabels, EmitStmt, EmitSeq, GoodStack, EmitProngs, Arms, ProngOffset, Pick,
         SwitchOffset, Shaped, ShapedSeq, ShapedProngs, Distinct, HasErrDefer, Size, Starts, VisitsB;
    SwitchShape(s);
    SwitchCode(flag, s, stack);
    var bodies := EmitProngs(flag, s.prongs, stack);
    var arms := Arms(flag, s.prongs, stack, 1);
    AtFirst(p, c0.pc, SwitchOn(s.operand, arms, |bodies| + 1), bodies);
    var val := w.value(s.operand, c0.t);
    SwitchGoes(flag, s.prongs, stack, |bodies| + 1, val);
    DoSwitchOn(w, p, c0, s.operand, arms, |bodies| + 1);
    var d0 := c0.(pc := c0.pc + SwitchOffset(arms, |bodies| + 1, val), t := c0.t + [Read(s.operand)]);
    var k := Pick(s.prongs, val);
    SwitchParts(s, k, {});
    ProngLayout(p, c0.pc + 1, flag, s.prongs, stack, k);
    var pr := s.prongs[k];
    AtSplit(p, d0.pc, ActCode(pr.capture), EmitSeq(flag, pr.body, stack, OPEN));
    RunActs(w, p, pr.capture, d0);
    var d1 := d0.(pc := d0.pc + |pr.capture|, t := d0.t + Acts(pr.capture));
    Then(w, p, c0, 1, d0, |pr.capture|, d1);
    var m := ReachB(w, p, flag, pr.body, stack, OPEN, d1, fuel, v);
    StartsLater(w, p, flag, v, c0, 1 + |pr.capture|, d1, m);
    n := 1 + |pr.capture| + m;
  }

  lemma {:induction false} ReachW(
    w: World, p: Program, flag: bool, s: Stmt, stack: Stack, c0: Config, fuel: nat, v: Visit)
    returns (n: nat)
    requires s.While? && Ready(w, p, flag, stack, c0) && Shaped(s) && Distinct(s) && !c0.err
    requires w.errorUnion && !flag ==> !HasErrDefer(s)
    requires ShapedSeq(s.body) && At(p, c0.pc, WhileCode(s, EmitSeq(flag, s.body, stack, Scope(s.id, [], []))))
    requires v in VisitsW(w, s, stack, c0.t, fuel)
    ensures Starts(w, p, flag, v, c0, n)
    decreases fuel, Size(s), 2
  {
    hide At, Step, Steps, Arrives, Exec, ExecSeq, EmitStmt, EmitSeq, WhileCode, WhileInner, WhileTail, UniqueLabels,
         GoodStack, Shaped, Distinct, Deferrable, HasErrDefer, Ids, Size, FindLabel, ShapedSeq, Starts, VisitsB;
    LoopParts(s, {});
    var sc := Scope(s.id, [], []);
    var body := EmitSeq(flag, s.body, stack, sc);
    WhileFrame(p, c0.pc, s, body);
    WhileMiddle(p, c0.pc + 2, s, body);
    DoLab(w, p, c0, LoopStart(s.id));
    var a0 := c0.(pc := c0.pc + 1);
    DoGotoUnless(w, p, a0, s.test, LoopEnd(s.id));
    var d0 := a0.(pc := a0.pc + 1, t := c0.t + [Tested(s.test)]);
    Then(w, p, c0, 1, a0, 1, d0);
    RunActs(w, p, s.capture, d0);
    var d1 := d0.(pc := d0.pc + |s.capture|, t := d0.t + Acts(s.capture));
    Then(w, p, c0, 2, d0, |s.capture|, d1);
    var at := 2 + |s.capture|;
    if v in VisitsB(w, s.body, stack, sc, d1.t, fuel - 1) {
      var k := ReachB(w, p, flag, s.body, stack, sc, d1, fuel - 1, v);
      StartsLater(w, p, flag, v, c0, at, d1, k);
      n := at + k;
    } else {
      var m, d2 := SimSeq(w, p, flag, s.body, stack, sc, d1, fuel - 1);
      Then(w, p, c0, at, d1, m, d2);
      var b := ExecSeq(w, s.body, [], [], d1.t, fuel - 1);
      if b.out.Normal? {
        ArrivesNormally(w, p, stack, sc.owner, b, d1.pc + |body|, IdsSeq(s.body), d1, d2);
      } else {
        ArrivesAtOwner(w, p, stack, b, d1.pc + |body|, IdsSeq(s.body), d1, d2);
      }
      var j, d3 := WhileBack(w, p, s, body, c0.pc, d2);
      Then(w, p, c0, at + m, d2, j, d3);
      var k := ReachW(w, p, flag, s, stack, d3, fuel - 1, v);
      StartsLater(w, p, flag, v, c0, at + m + j, d3, k);
      n := at + m + j + k;
    }
  }

  lemma {:induction false} ReachFor(
    w: World, p: Program, flag: bool, s: Stmt, stack: Stack, c0: Config, fuel: nat, v: Visit)
    returns (n: nat)
    requires s.For? && Ready(w, p, flag, stack, c0) && Shaped(s) && Distinct(s) && !c0.err
    requires w.errorUnion && !flag ==> !HasErrDefer(s)
    requires ShapedSeq(s.body) && At(p, c0.pc, ForCode(s, EmitSeq(flag, s.body, stack, Scope(s.id, [], []))))
    requires v in VisitsS(w, s, stack, c0.t, fuel) && v != Visit(s, stack, c0.t)
    ensures Starts(w, p, flag, v, c0, n)
    decreases fuel, Size(s), 2
  {
    hide At, Step, Steps, Exec, ExecSeq, EmitStmt, EmitSeq, ForLoop, UniqueLabels, GoodStack, Shaped, Distinct,
         HasErrDefer, Size, ShapedSeq, Starts, VisitsF;
    LoopParts(s, {});
    var body := EmitSeq(flag, s.body, stack, Scope(s.id, [], []));
    var set2 := [SetIndex(s.id, s.lo), SetLength(s.id, s.hi)];
    AtSplit(p, c0.pc, ActCode(s.setup), set2 + ForLoop(s, body));
    AtSplit(p, c0.pc + |s.setup|, set2, ForLoop(s, body));
    RunActs(w, p, s.setup, c0);
    var d0 := c0.(pc := c0.pc + |s.setup|, t := c0.t + Acts(s.setup));
    DoForSetup(w, p, d0, s.id, s.lo, s.hi);
    var t1 := d0.t + [Read(s.lo)];
    var i, len := w.value(s.lo, d0.t), w.value(s.hi, t1);
    var d1 := d0.(pc := d0.pc + 2, t := t1 + [Read(s.hi)], counters := d0.counters[s.id := (i, len)]);
    Then(w, p, c0, |s.setup|, d0, 2, d1);
    var k := ReachF(w, p, flag, s, stack, d1, i, len, fuel, v);
    StartsLater(w, p, flag, v, c0, |s.setup| + 2, d1, k);
    n := |s.setup| + 2 + k;
  }

  lemma {:induction false} ReachF(
    w: World, p: Program, flag: bool, s: Stmt, stack: Stack, c0: Config, i: int, len: int, fuel: nat, v: Visit)
    returns (n: nat)
    requires s.For? && Ready(w, p, flag, stack, c0) && Shaped(s) && Distinct(s) && !c0.err && ShapedSeq(s.body)
    requires w.errorUnion && !flag ==> !HasErrDefer(s)
    requires At(p, c0.pc, ForLoop(s, EmitSeq(flag, s.body, stack, Scope(s.id, [], []))))
    requires s.id in c0.counters && c0.counters[s.id] == (i, len)
    requires v in VisitsF(w, s, stack, i, len, c0.t, fuel)
    ensures Starts(w, p, flag, v, c0, n)
    decreases fuel, Size(s), 1
  {
    hide At, Step, Steps, Arrives, Exec, ExecSeq, EmitStmt, EmitSeq, ForLoop, ForInner, ForTail, UniqueLabels,
         GoodStack, Shaped, Distinct, Deferrable, HasErrDefer, Ids, Size, FindLabel, ShapedSeq, Starts, VisitsB;
    LoopParts(s, {});
    var sc := Scope(s.id, [], []);
    var body := EmitSeq(flag, s.body, stack, sc);
    ForFrame(p, c0.pc, s, body);
    ForMiddle(p, c0.pc + 2, s, body);
    DoLab(w, p, c0, LoopStart(s.id));
    var a0 := c0.(pc := c0.pc + 1);
    DoForHead(w, p, a0, s.id, |ForInner(s, body)| + 2);
    var d0 := a0.(pc := a0.pc + 1);
    Then(w, p, c0, 1, a0, 1, d0);
    DoBindItem(w, p, d0, s.id);
    var d1 := d0.(pc := d0.pc + 1, t := d0.t + [Bound(s.id, i)]);
    Then(w, p, c0, 2, d0, 1, d1);
    if v in VisitsB(w, s.body, stack, sc, d1.t, fuel - 1) {
      var k := ReachB(w, p, flag, s.body, stack, sc, d1, fuel - 1, v);
      StartsLater(w, p, flag, v, c0, 3, d1, k);
      n := 3 + k;
    } else {
      var m, d2 := SimSeq(w, p, flag, s.body, stack, sc, d1, fuel - 1);
      Then(w, p, c0, 3, d1, m, d2);
      var b := ExecSeq(w, s.body, [], [], d1.t, fuel - 1);
      if b.out.Normal? {
        ArrivesNormally(w, p, stack, sc.owner, b, d1.pc + |body|, IdsSeq(s.body), d1, d2);
      } else {
        ArrivesAtOwner(w, p, stack, b, d1.pc + |body|, IdsSeq(s.body), d1, d2);
      }
      assert s.id in d2.counters && d2.counters[s.id] == (i, len);
      var j, d3 := ForBack(w, p, s, body, c0.pc, d2);
      Then(w, p, c0, 3 + m, d2, j, d3);
      var k := ReachF(w, p, flag, s, stack, d3, i + 1, len, fuel - 1, v);
      StartsLater(w, p, flag, v, c0, 3 + m + j, d3, k);
      n := 3 + m + j + k;
    }
  }

  // ----- What is pending there -----

  /** The entry of a marked deferred body, read off its first action. */
  function EntryIn(d: Stmt): Entry {
    if d.Block? && d.body != [] && d.body[0].Do? && d.body[0].action % 7 == 2 then Plain(d.body[0].action / 7)
    else if d.Block? && d.body != [] && d.body[0].Do? then Err(d.body[0].action / 7)
    else Plain(0)
  }

  function EntriesIn(ds: seq<Stmt>): seq<Entry> {
    seq(|ds|, i requires 0 <= i < |ds| => EntryIn(ds[i]))
  }

  /** The bodies registered in all scopes of a stack, innermost last. */
  function StackEntries(stack: Stack): seq<Entry> {
    if stack == [] then [] else StackEntries(stack[..|stack| - 1]) + EntriesIn(stack[|stack| - 1].defers)
  }

  lemma StackSnoc(stack: Stack, sc: Scope)
    ensures StackEntries(stack + [sc]) == StackEntries(stack) + EntriesIn(sc.defers)
  {
    assert (stack + [sc])[..|stack|] == stack;
  }

  lemma BodiesRead(name: Naming, items: seq<Registration>)
    ensures EntriesIn(Bodies(name, items)) == Entries(name, items)
  {
    hide MarkOne;
  }

  /** A visit is fine if exactly the bodies of its stack are pending. */
  ghost predicate Fine(v: Visit) {
    Pending(v.t) == Some(StackEntries(v.stack))
  }

  lemma {:induction false} FineS(w: World, name: Naming, s: Stmt, stack: Stack, t: Trace, fuel: nat, v: Visit)
    requires Shaped(s) && !s.Return? && Pending(t) == Some(StackEntries(stack))
    requires v in VisitsS(w, Mark(name, s), stack, t, fuel)
    ensures Fine(v)
    decreases fuel, Size(s), 3
  {
    hide Pending, StackEntries, VisitsB, VisitsW, VisitsF, MarkSeq, MarkProngs, MarkBody, MarkErrBody, Unmarked,
         ShapedSeq, Scale, Acts, FirstListed, FirstElse;
    if v == Visit(Mark(name, s), stack, t) {
      return;
    }
    match s
    case Block(b) => FineBlock(w, name, b, stack, OPEN, t, fuel, v);
    case If(c, capture, thn, els) =>
      IfParts(s, {});
      var t1 := t + [Tested(c)];
      OtherEvent(t, Tested(c));
      Kept(t, t1);
      if w.test(c, t) {
        ActsUnmarked(t1, capture);
        Kept(t1, t1 + Acts(Scale(capture)));
        FineBlock(w, name, thn, stack, OPEN, t1 + Acts(Scale(capture)), fuel, v);
      } else {
        FineS(w, name, els.value, stack, t1, fuel, v);
      }
    case Switch(e, ps) =>
      var val := w.value(e, t);
      PickMarked(name, ps, val);
      var k := Pick(ps, val);
      SwitchParts(s, k, {});
      var t1 := t + [Read(e)];
      OtherEvent(t, Read(e));
      Kept(t, t1);
      ActsUnmarked(t1, ps[k].capture);
      Kept(t1, t1 + Acts(Scale(ps[k].capture)));
      FineBlock(w, name, ps[k].body, stack, OPEN, t1 + Acts(Scale(ps[k].capture)), fuel, v);
    case While(_, _, _, _, _, _) => FineW(w, name, s, stack, t, fuel, v);
    case For(_, setup, lo, hi, _) =>
      var t1 := t + Acts(Scale(setup));
      var t2 := t1 + [Read(lo)];
      ActsUnmarked(t, setup);
      Kept(t, t1);
      OtherEvent(t1, Read(lo));
      Kept(t1, t2);
      OtherEvent(t2, Read(hi));
      Kept(t2, t2 + [Read(hi)]);
      FineF(w, name, s, stack, w.value(lo, t1), w.value(hi, t2), t2 + [Read(hi)], fuel, v);
  }

  lemma {:induction false} FineBlock(
    w: World, name: Naming, body: seq<Stmt>, stack: Stack, sc: Scope, t: Trace, fuel: nat, v: Visit)
    requires ShapedSeq(body) && sc.defers == [] && sc.errDefers == [] && Pending(t) == Some(StackEntries(stack))
    requires v in VisitsB(w, MarkSeq(name, body), stack, sc, t, fuel)
    ensures Fine(v)
    decreases fuel, SizeSeq(body), 2
  {
    hide Pending, StackEntries, VisitsB, MarkSeq, ShapedSeq, SizeSeq, Fine;
    NoItems(name);
    assert StackEntries(stack) + [] == StackEntries(stack);
    FineB(w, name, body, [], stack, sc, t, fuel, v);
  }

  lemma {:induction false} FineB(
    w: World, name: Naming, rest: seq<Stmt>, items: seq<Registration>, stack: Stack, sc: Scope, t: Trace, fuel: nat,
    v: Visit)
    requires ShapedSeq(rest) && Pending(t) == Some(StackEntries(stack) + Entries(name, items))
    requires sc.defers == Bodies(name, items) && sc.errDefers == ErrBodies(name, items)
    requires v in VisitsB(w, MarkSeq(name, rest), stack, sc, t, fuel)
    ensures Fine(v)
    decreases fuel, SizeSeq(rest), 1
  {
    hide Pending, StackEntries, VisitsB, VisitsS, Exec, Mark, MarkSeq, MarkBody, MarkErrBody, Companion, Shaped,
         ShapedSeq, Size, SizeSeq, Entries, Bodies, ErrBodies, EntriesIn, Weight, Balanced, Fine;
    MarkSeqStep(name, rest);
    VisitsNothing(w, stack, sc, t, fuel);
    SeqParts(rest, {});
    BodiesRead(name, items);
    StackSnoc(stack, sc);
    var s, tail, inner := rest[0], MarkSeq(name, rest[1..]), stack + [sc];
    if s.Defer? || s.ErrDefer? {
      FineRegistration(w, name, rest, items, stack, sc, t, fuel, v);
    } else if s.Return? {
      FineReturn(w, s, tail, stack, sc, t, fuel, v);
    } else {
      VisitsStep(w, [Mark(name, s)] + tail, stack, sc, t, fuel);
      assert ([Mark(name, s)] + tail)[1..] == tail;
      if v in VisitsS(w, Mark(name, s), inner, t, fuel) {
        FineS(w, name, s, inner, t, fuel, v);
      } else {
        BalancedStmt(w, name, s, t, StackEntries(inner), fuel);
        var r := Exec(w, Mark(name, s), t, fuel);
        BalancedEnd(w, t, StackEntries(inner), r);
        FineB(w, name, rest[1..], items, stack, sc, r.t, fuel, v);
      }
    }
  }

  lemma {:induction false} FineRegistration(
    w: World, name: Naming, rest: seq<Stmt>, items: seq<Registration>, stack: Stack, sc: Scope, t: Trace, fuel: nat,
    v: Visit)
    requires rest != [] && (rest[0].Defer? || rest[0].ErrDefer?)
    requires ShapedSeq(rest) && Pending(t) == Some(StackEntries(stack) + Entries(name, items))
    requires sc.defers == Bodies(name, items) && sc.errDefers == ErrBodies(name, items)
    requires v in VisitsB(w, MarkSeq(name, rest), stack, sc, t, fuel)
    ensures Fine(v)
    decreases fuel, SizeSeq(rest), 0
  {
    hide Pending, StackEntries, VisitsB, VisitsS, Exec, Mark, MarkSeq, MarkBody, MarkErrBody, Companion, Shaped,
         ShapedSeq, Size, SizeSeq, Entries, Bodies, ErrBodies, EntriesIn, Weight, Fine;
    MarkSeqStep(name, rest);
    SeqParts(rest, {});
    BodiesRead(name, items);
    StackSnoc(stack, sc);
    var s, tail, inner := rest[0], MarkSeq(name, rest[1..]), stack + [sc];
    var it := Registration(s.Defer?, s.deferred);
    var a := 7 * name(s.deferred) + if s.Defer? then 1 else 3;
    DeferParts(s);
    VisitsRegister(w, name, s, tail, items, stack, sc, t, fuel);
    Registers(name, it, t, StackEntries(stack) + Entries(name, items));
    ItemsSnoc(name, items, it);
    FineHere(Visit(Do(a), inner, t));
    if v != Visit(Do(a), inner, t) {
      var next := sc.(defers := Bodies(name, items + [it]), errDefers := ErrBodies(name, items + [it]));
      assert StackEntries(stack) + Entries(name, items + [it]) ==
        StackEntries(stack) + Entries(name, items) + [EntryOf(name, it)];
      FineB(w, name, rest[1..], items + [it], stack, next, t + [Did(a)], fuel, v);
    }
  }

  lemma FineHere(v: Visit)
    requires Pending(v.t) == Some(StackEntries(v.stack))
    ensures Fine(v)
  {
  }

  lemma VisitsNothing(w: World, stack: Stack, sc: Scope, t: Trace, fuel: nat)
    ensures VisitsB(w, [], stack, sc, t, fuel) == {}
  {
  }

  lemma VisitsStep(w: World, rest: seq<Stmt>, stack: Stack, sc: Scope, t: Trace, fuel: nat)
    requires rest != []
    ensures rest[0].Defer? ==>
      VisitsB(w, rest, stack, sc, t, fuel) ==
      VisitsB(w, rest[1..], stack, sc.(defers := sc.defers + [rest[0].deferred]), t, fuel)
    ensures rest[0].ErrDefer? ==>
      VisitsB(w, rest, stack, sc, t, fuel) ==
      VisitsB(w, rest[1..], stack, sc.(errDefers := sc.errDefers + [rest[0].deferred]), t, fuel)
    ensures !rest[0].Defer? && !rest[0].ErrDefer? ==>
      var r := Exec(w, rest[0], t, fuel);
      VisitsB(w, rest, stack, sc, t, fuel) ==
      VisitsS(w, rest[0], stack + [sc], t, fuel)
      + if r.out.Normal? then VisitsB(w, rest[1..], stack, sc, r.t, fuel) else {}
  {
    hide Exec, VisitsS;
  }

  lemma VisitsAct(w: World, a: nat, tail: seq<Stmt>, stack: Stack, sc: Scope, t: Trace, fuel: nat)
    ensures VisitsB(w, [Do(a)] + tail, stack, sc, t, fuel) ==
      {Visit(Do(a), stack + [sc], t)} + VisitsB(w, tail, stack, sc, t + [Did(a)], fuel)
  {
    hide VisitsB;
    assert ([Do(a)] + tail)[1..] == tail;
    VisitsStep(w, [Do(a)] + tail, stack, sc, t, fuel);
  }

  lemma VisitsRegister(
    w: World, name: Naming, s: Stmt, tail: seq<Stmt>, items: seq<Registration>, stack: Stack, sc: Scope, t: Trace,
    fuel: nat)
    requires s.Defer? || s.ErrDefer?
    requires sc.defers == Bodies(name, items) && sc.errDefers == ErrBodies(name, items)
    ensures var d := s.deferred;
      var head := if s.Defer? then [Do(7 * name(d) + 1), Defer(MarkBody(name, d))]
                  else [Do(7 * name(d) + 3), Defer(Companion(name, d)), ErrDefer(MarkErrBody(name, d))];
      var a := 7 * name(d) + if s.Defer? then 1 else 3;
      var all := items + [Registration(s.Defer?, d)];
      var next := sc.(defers := Bodies(name, all), errDefers := ErrBodies(name, all));
      VisitsB(w, head + tail, stack, sc, t, fuel) ==
      {Visit(Do(a), stack + [sc], t)} + VisitsB(w, tail, stack, next, t + [Did(a)], fuel)
  {
    hide VisitsB, MarkBody, MarkErrBody, Companion, Bodies, ErrBodies, Entries, Weight;
    var d := s.deferred;
    ItemsSnoc(name, items, Registration(s.Defer?, d));
    if s.Defer? {
      var m, reg := Do(7 * name(d) + 1), Defer(MarkBody(name, d));
      assert [m, reg] + tail == [m] + ([reg] + tail) && ([reg] + tail)[1..] == tail;
      VisitsAct(w, m.action, [reg] + tail, stack, sc, t, fuel);
      VisitsStep(w, [reg] + tail, stack, sc, t + [Did(m.action)], fuel);
      assert sc.errDefers + [] == sc.errDefers;
    } else {
      var m, c, reg := Do(7 * name(d) + 3), Defer(Companion(name, d)), ErrDefer(MarkErrBody(name, d));
      var t1 := t + [Did(m.action)];
      assert [m, c, reg] + tail == [m] + ([c] + ([reg] + tail));
      assert ([c] + ([reg] + tail))[1..] == [reg] + tail && ([reg] + tail)[1..] == tail;
      VisitsAct(w, m.action, [c] + ([reg] + tail), stack, sc, t, fuel);
      VisitsStep(w, [c] + ([reg] + tail), stack, sc, t1, fuel);
      VisitsStep(w, [reg] + tail, stack, sc.(defers := sc.defers + [c.deferred]), t1, fuel);
    }
  }

  lemma FineReturn(w: World, s: Stmt, tail: seq<Stmt>, stack: Stack, sc: Scope, t: Trace, fuel: nat, v: Visit)
    requires s.Return? && Pending(t) == Some(StackEntries(stack + [sc]))
    requires v in VisitsB(w, [Do(RETURNING), s] + tail, stack, sc, t, fuel)
    ensures Fine(v)
  {
    hide Pending, StackEntries, VisitsB;
    assert [Do(RETURNING), s] + tail == [Do(RETURNING)] + ([s] + tail);
    VisitsAct(w, RETURNING, [s] + tail, stack, sc, t, fuel);
    VisitsStep(w, [s] + tail, stack, sc, t + [Did(RETURNING)], fuel);
    Snoc(t, Did(RETURNING));
  }

  lemma {:induction false} FineW(w: World, name: Naming, s: Stmt, stack: Stack, t: Trace, fuel: nat, v: Visit)
    requires s.While? && Shaped(s) && Pending(t) == Some(StackEntries(stack))
    requires v in VisitsW(w, Mark(name, s), stack, t, fuel)
    ensures Fine(v)
    decreases fuel, Size(s), 2
  {
    hide Pending, StackEntries, VisitsB, ExecSeq, MarkSeq, Unmarked, Shaped, ShapedSeq, Size, SizeSeq, Scale, Acts,
         Fine, Balanced;
    LoopParts(s, {});
    var t1 := t + [Tested(s.test)];
    var t2 := t1 + Acts(Scale(s.capture));
    OtherEvent(t, Tested(s.test));
    Kept(t, t1);
    ActsUnmarked(t1, s.capture);
    Kept(t1, t2);
    var sc := Scope(s.id, [], []);
    if v in VisitsB(w, MarkSeq(name, s.body), stack, sc, t2, fuel - 1) {
      FineBlock(w, name, s.body, stack, sc, t2, fuel - 1, v);
    } else {
      BalancedBlock(w, name, s.body, t2, StackEntries(stack), fuel - 1);
      var r := ExecSeq(w, MarkSeq(name, s.body), [], [], t2, fuel - 1);
      Iterated(w, t2, StackEntries(stack), r);
      var t3 := r.t + Acts(Scale(s.step));
      ActsUnmarked(r.t, s.step);
      Kept(r.t, t3);
      FineW(w, name, s, stack, t3, fuel - 1, v);
    }
  }

  lemma {:induction false} FineF(
    w: World, name: Naming, s: Stmt, stack: Stack, i: int, n: int, t: Trace, fuel: nat, v: Visit)
    requires s.For? && Shaped(s) && Pending(t) == Some(StackEntries(stack))
    requires v in VisitsF(w, Mark(name, s), stack, i, n, t, fuel)
    ensures Fine(v)
    decreases fuel, Size(s), 2
  {
    hide Pending, StackEntries, VisitsB, ExecSeq, MarkSeq, Unmarked, Shaped, ShapedSeq, Size, SizeSeq, Scale, Fine,
         Balanced;
    LoopParts(s, {});
    var t1 := t + [Bound(s.id, i)];
    OtherEvent(t, Bound(s.id, i));
    Kept(t, t1);
    var sc := Scope(s.id, [], []);
    if v in VisitsB(w, MarkSeq(name, s.body), stack, sc, t1, fuel - 1) {
      FineBlock(w, name, s.body, stack, sc, t1, fuel - 1, v);
    } else {
      BalancedBlock(w, name, s.body, t1, StackEntries(stack), fuel - 1);
      var r := ExecSeq(w, MarkSeq(name, s.body), [], [], t1, fuel - 1);
      Iterated(w, t1, StackEntries(stack), r);
      FineF(w, name, s, stack, i + 1, n, r.t, fuel - 1, v);
    }
  }

  // ----- The result -----

  /**
   Every statement a run of the function starts, the emitted program starts too, at the code emitted for it
   under some stack, and the bodies pending at that moment are exactly those of that stack, innermost last.
   */
  lemma StackIsPending(w: World, name: Naming, fn: Function, fuel: nat, v: Visit) returns (n: nat)
    requires fn.WellFormed() && w.errorUnion == fn.errorUnion
    requires v in VisitsB(w, MarkFunction(name, fn).body, [], OPEN, [], fuel)
    ensures var marked := MarkFunction(name, fn);
      marked.WellFormed()
      && Starts(w, EmitFunction(marked), marked.UsesFlag(), v, START, n)
      && Pending(Steps(w, EmitFunction(marked), START, n).t) == Some(StackEntries(v.stack))
  {
    hide VisitsB, EmitSeq, EmitFunction, MarkSeq, ShapedSeq, DistinctSeq, ClosedSeq, HasErrDeferSeq, At, Steps,
         UniqueLabels, EmitStmt;
    var marked := MarkFunction(name, fn);
    MarkedWellFormed(name, fn);
    var p := EmitFunction(marked);
    FunctionIsLinked(marked);
    FunctionStartsWithBody(marked);
    n := ReachB(w, p, marked.UsesFlag(), marked.body, [], OPEN, START, fuel, v);
    assert StackEntries([]) == [] && Pending([]) == Some([]);
    FineBlock(w, name, fn.body, [], OPEN, [], fuel, v);
  }
}
