/**
 The emitted program does what the structured body does: same trace, same outcome, on every run.
 */
module Simulation {
  import opened Source
  import opened SourceSemantics
  import opened SourceFacts
  import opened Target
  import opened Emission

  // ----- Run-time unwinding of the compile-time stack -----

  /** Leaves scopes `k-1`, `k-2`, ... of the stack in turn, stopping after the one owned by `target`. */
  function Unwind(w: World, stack: Stack, k: nat, target: int, failing: bool, t: Trace): Res
    requires k <= |stack|
  {
    if k == 0 then Res(Normal, t)
    else
      var sc := stack[k - 1];
      var u := LeaveScope(w, sc.defers, sc.errDefers, failing, t);
      if !u.out.Normal? || (target != NO_LABEL && sc.owner == target) then u
      else Unwind(w, stack, k - 1, target, failing, u.t)
  }

  lemma {:induction false} UnwindPrefix(w: World, stack: Stack, sc: Scope, k: nat, target: int, failing: bool, t: Trace)
    requires k <= |stack|
    ensures Unwind(w, stack + [sc], k, target, failing, t) == Unwind(w, stack, k, target, failing, t)
    decreases k
  {
    if k > 0 {
      var u := LeaveScope(w, stack[k - 1].defers, stack[k - 1].errDefers, failing, t);
      UnwindPrefix(w, stack, sc, k - 1, target, failing, u.t);
    }
  }

  lemma {:induction false} UnwindNothing(w: World, stack: Stack, k: nat, target: int, failing: bool, t: Trace)
    requires k <= |stack| && !HasPending(stack)
    ensures Unwind(w, stack, k, target, failing, t) == Res(Normal, t)
    decreases k
  {
    if k > 0 {
      assert stack[k - 1].defers == [] && stack[k - 1].errDefers == [];
      assert LeaveScope(w, [], [], failing, t) == Res(Normal, t);
      UnwindNothing(w, stack, k - 1, target, failing, t);
    }
  }

  // ----- Where a run of emitted code ends up -----

  ghost predicate Agree(m0: map<LoopId, (int, int)>, m1: map<LoopId, (int, int)>, ids: set<LoopId>) {
    forall i {:trigger i in m1} :: i !in ids ==> (i in m0 <==> i in m1) && (i in m0 ==> m0[i] == m1[i])
  }

  lemma AgreeTrans(
    m0: map<LoopId, (int, int)>, m1: map<LoopId, (int, int)>, m2: map<LoopId, (int, int)>,
    ids0: set<LoopId>, ids1: set<LoopId>, ids: set<LoopId>)
    requires Agree(m0, m1, ids0) && Agree(m1, m2, ids1) && ids0 <= ids && ids1 <= ids
    ensures Agree(m0, m2, ids)
  {
    forall i {:trigger i in m2} | i !in ids
      ensures (i in m0 <==> i in m2) && (i in m0 ==> m0[i] == m2[i])
    {
      assert i in m1 <==> i in m2;
    }
  }

  /** Control is at `pc` with trace `t`; flag, return slot and the counters of loops outside `ids` are untouched. */
  ghost predicate Reached(c0: Config, c1: Config, pc: int, t: Trace, ids: set<LoopId>)
    requires c0.Run?
  {
    && c1.Run? && c1.pc == pc && c1.t == t
    && c1.err == c0.err && c1.rv == c0.rv && Agree(c0.counters, c1.counters, ids)
  }

  /** As `Reached` after deferred code with result `u`, or trapped if that code panicked. */
  ghost predicate Jumped(c0: Config, c1: Config, pc: int, u: Res, ids: set<LoopId>)
    requires c0.Run?
  {
    if u.out.Normal? then Reached(c0, c1, pc, u.t, ids) else c1 == Trapped(u.t)
  }

  /**
   The machine's counterpart of a structured result: a jump has already unwound the stack through the
   target loop's body scope, a return has unwound all of it.  `owner` is the loop whose body was just left.
   */
  ghost predicate Arrives(
    w: World, p: Program, stack: Stack, owner: int, r: Res, end: int, ids: set<LoopId>, c0: Config, c1: Config)
    requires c0.Run?
  {
    match r.out
    case Normal => Reached(c0, c1, end, r.t, ids)
    case Panicked => c1 == Trapped(r.t)
    case Timeout => c1.Run? && c1.t == r.t
    case Broke(id) =>
      Jumped(c0, c1, FindLabel(p, LoopEnd(id)),
             Unwind(w, stack, if owner == id then 0 else |stack|, id, false, r.t), ids)
    case Continued(id) =>
      Jumped(c0, c1, FindLabel(p, LoopContinue(id)),
             Unwind(w, stack, if owner == id then 0 else |stack|, id, false, r.t), ids)
    case Returned(v) =>
      var u := Unwind(w, stack, |stack|, NO_LABEL, w.ErrorReturn(v), r.t);
      if u.out.Normal? then c1 == Halted(ReturnedValue(v), u.t) else c1 == Trapped(u.t)
  }

  predicate Quiet(ds: seq<Stmt>) {
    forall i :: 0 <= i < |ds| ==> !HasErrDefer(ds[i])
  }

  ghost predicate NoErrDefers(stack: Stack) {
    forall i :: 0 <= i < |stack| ==> stack[i].errDefers == [] && Quiet(stack[i].defers)
  }

  /** Standing assumptions on the program, the flag and the stack. */
  ghost predicate Ready(w: World, p: Program, flag: bool, stack: Stack, c: Config) {
    && UniqueLabels(p) && GoodStack(stack) && c.Run?
    && (flag ==> w.errorUnion)
    && (w.errorUnion && !flag ==> NoErrDefers(stack))
  }

  // ----- Stepping -----

  lemma Then(w: World, p: Program, c0: Config, m: nat, c1: Config, n: nat, c2: Config)
    requires Steps(w, p, c0, m) == c1 && Steps(w, p, c1, n) == c2
    ensures Steps(w, p, c0, m + n) == c2
  {
    StepsAdd(w, p, c0, m, n);
  }

  lemma StepsNone(w: World, p: Program, c: Config)
    ensures Steps(w, p, c, 0) == c
  {
  }

  lemma {:induction false} RunActs(w: World, p: Program, actions: seq<nat>, c: Config)
    requires c.Run? && At(p, c.pc, ActCode(actions))
    ensures Steps(w, p, c, |actions|) == c.(pc := c.pc + |actions|, t := c.t + Acts(actions))
    decreases |actions|
  {
    hide At, Step, Steps;
    StepsNone(w, p, c);
    if actions == [] {
      assert c.t + Acts(actions) == c.t;
    } else {
      assert ActCode(actions) == [Act(actions[0])] + ActCode(actions[1..]);
      AtFirst(p, c.pc, Act(actions[0]), ActCode(actions[1..]));
      DoAct(w, p, c, actions[0]);
      var c1 := c.(pc := c.pc + 1, t := c.t + [Did(actions[0])]);
      RunActs(w, p, actions[1..], c1);
      Then(w, p, c, 1, c1, |actions| - 1, Steps(w, p, c1, |actions| - 1));
      assert c1.t + Acts(actions[1..]) == c.t + Acts(actions);
    }
  }

  // ----- Leaving a scope -----

  lemma LeaveArrives(
    w: World, p: Program, stack: Stack, sc: Scope, r: Res, mid: int, end: int,
    ids0: set<LoopId>, ids: set<LoopId>, c0: Config, c1: Config)
    requires c0.Run? && ids0 <= ids && !r.out.Normal? && GoodScope(sc)
    requires Arrives(w, p, stack + [sc], NO_LABEL, r, mid, ids0, c0, c1)
    ensures Arrives(w, p, stack, sc.owner, Leave(w, r.out, sc.defers, sc.errDefers, r.t), end, ids, c0, c1)
  {
    hide LeaveScope, RunDeferred;
    if !r.out.Panicked? && !r.out.Timeout? {
      var failing := r.out.Returned? && w.ErrorReturn(r.out.v);
      ScopeExitCompletes(w, sc.defers, sc.errDefers, failing, r.t);
      var target: int := if r.out.Broke? || r.out.Continued? then r.out.id else NO_LABEL;
      var u := LeaveScope(w, sc.defers, sc.errDefers, failing, r.t);
      assert (stack + [sc])[|stack|] == sc;
      UnwindPrefix(w, stack, sc, |stack|, target, failing, u.t);
      var stop := target != NO_LABEL && sc.owner == target;
      assert Unwind(w, stack + [sc], |stack| + 1, target, failing, r.t) ==
             if !u.out.Normal? || stop then u else Unwind(w, stack, |stack|, target, failing, u.t);
    }
  }

  lemma ArrivesNormally(
    w: World, p: Program, stack: Stack, owner: int, r: Res, end: int, ids: set<LoopId>, c0: Config, c1: Config)
    requires c0.Run? && r.out.Normal?
    ensures Arrives(w, p, stack, owner, r, end, ids, c0, c1) <==> Reached(c0, c1, end, r.t, ids)
  {
  }

  lemma ArrivesPanicked(
    w: World, p: Program, stack: Stack, owner: int, r: Res, end: int, ids: set<LoopId>, c0: Config)
    requires c0.Run? && r.out.Panicked?
    ensures Arrives(w, p, stack, owner, r, end, ids, c0, Trapped(r.t))
  {
  }

  lemma ArrivesTimedOut(
    w: World, p: Program, stack: Stack, owner: int, r: Res, end: int, ids: set<LoopId>, c0: Config, c1: Config)
    requires c0.Run? && r.out.Timeout?
    ensures Arrives(w, p, stack, owner, r, end, ids, c0, c1) <==> c1.Run? && c1.t == r.t
  {
  }

  lemma ArrivesByJump(
    w: World, p: Program, stack: Stack, r: Res, end: int, ids: set<LoopId>, c0: Config, c1: Config)
    requires c0.Run? && (r.out.Broke? || r.out.Continued?)
    requires var l := if r.out.Broke? then LoopEnd(r.out.id) else LoopContinue(r.out.id);
      Jumped(c0, c1, FindLabel(p, l), Unwind(w, stack, |stack|, r.out.id, false, r.t), ids)
    ensures Arrives(w, p, stack, NO_LABEL, r, end, ids, c0, c1)
  {
  }

  /** Leaving a loop's own body by a jump to that loop needs no further unwinding. */
  lemma ArrivesAtOwner(
    w: World, p: Program, stack: Stack, r: Res, end: int, ids: set<LoopId>, c0: Config, c1: Config)
    requires c0.Run? && (r.out.Broke? || r.out.Continued?)
    requires Arrives(w, p, stack, r.out.id, r, end, ids, c0, c1)
    ensures var l := if r.out.Broke? then LoopEnd(r.out.id) else LoopContinue(r.out.id);
      Reached(c0, c1, FindLabel(p, l), r.t, ids)
  {
  }

  lemma ArrivesPastOwner(
    w: World, p: Program, stack: Stack, owner: LoopId, r: Res, end: int, ids: set<LoopId>, c0: Config, c1: Config)
    requires c0.Run? && !r.out.Normal? && r.out != Broke(owner) && r.out != Continued(owner)
    requires Arrives(w, p, stack, owner, r, end, ids, c0, c1)
    ensures Arrives(w, p, stack, NO_LABEL, r, end, ids, c0, c1)
  {
  }

  /** A run that starts `Reached` from `c0` and arrives somewhere has arrived there from `c0`. */
  lemma ArrivesFrom(
    w: World, p: Program, stack: Stack, owner: int, r: Res, mid: int, end: int, ids0: set<LoopId>, ids: set<LoopId>,
    c0: Config, d: Config, c1: Config)
    requires c0.Run? && d.Run? && Reached(c0, d, d.pc, d.t, ids) && ids0 <= ids
    requires Arrives(w, p, stack, owner, r, mid, ids0, d, c1)
    requires r.out.Normal? ==> mid == end
    ensures Arrives(w, p, stack, owner, r, end, ids, c0, c1)
  {
    hide Agree;
    if c1.Run? && Agree(d.counters, c1.counters, ids0) {
      AgreeTrans(c0.counters, d.counters, c1.counters, ids, ids0, ids);
    }
  }

  // ----- The simulation -----

  lemma {:induction false} SimStmt(w: World, p: Program, flag: bool, s: Stmt, stack: Stack, c0: Config, fuel: nat)
    returns (n: nat, c1: Config)
    requires Ready(w, p, flag, stack, c0) && Shaped(s) && Distinct(s)
    requires !c0.err || Deferrable(s)
    requires w.errorUnion && !flag ==> !HasErrDefer(s)
    requires At(p, c0.pc, EmitStmt(flag, s, stack))
    ensures Steps(w, p, c0, n) == c1
    ensures Arrives(w, p, stack, NO_LABEL, Exec(w, s, c0.t, fuel), c0.pc + |EmitStmt(flag, s, stack)|, Ids(s), c0, c1)
    ensures Exec(w, s, c0.t, fuel).out.Timeout? ==> n >= fuel
    ensures var out := Exec(w, s, c0.t, fuel).out;
      out.Continued? ==> Goto(LoopContinue(out.id)) in EmitStmt(flag, s, stack)
    decreases Rank(s), fuel, Size(s), 4
  {
    hide At, Step, Steps, Arrives, UniqueLabels, Unwind, EmitSeq, ExecSeq, EmitExit, GoodStack, WhileCode, ForCode,
         ShapedSeq, DistinctSeq, DeferrableSeq, HasErrDeferSeq, IdsSeq, ExecWhile, ExecFor, EmitProngs, Arms;
    var r := Exec(w, s, c0.t, fuel);
    var end := c0.pc + |EmitStmt(flag, s, stack)|;
    match s
    case Do(a) =>
      AtOnly(p, c0.pc, Act(a));
      DoAct(w, p, c0, a);
      n, c1 := 1, c0.(pc := c0.pc + 1, t := c0.t + [Did(a)]);
      ArrivesNormally(w, p, stack, NO_LABEL, r, end, Ids(s), c0, c1);
    case Unreachable =>
      AtOnly(p, c0.pc, Trap);
      DoTrap(w, p, c0);
      n, c1 := 1, Trapped(c0.t);
      ArrivesPanicked(w, p, stack, NO_LABEL, r, end, Ids(s), c0);
    case Block(b) =>
      n, c1 := SimSeq(w, p, flag, b, stack, Scope(NO_LABEL, [], []), c0, fuel);
    case If(_, _, _, _) =>
      n, c1 := SimIf(w, p, flag, s, stack, c0, fuel);
    case Switch(_, _) =>
      n, c1 := SimSwitch(w, p, flag, s, stack, c0, fuel);
    case While(_, _, _, _, _, _) =>
      LoopCode(flag, s, stack);
      n, c1 := SimWhile(w, p, flag, s, stack, c0, fuel);
    case For(_, _, _, _, _) =>
      LoopCode(flag, s, stack);
      ForRun(w, s, c0.t, fuel);
      n, c1 := SimFor(w, p, flag, s, stack, c0, fuel);
    case Break(id) =>
      n, c1 := SimJump(w, p, flag, stack, id, LoopEnd(id), c0);
      ArrivesByJump(w, p, stack, r, end, Ids(s), c0, c1);
    case Continue(id) =>
      n, c1 := SimJump(w, p, flag, stack, id, LoopContinue(id), c0);
      ArrivesByJump(w, p, stack, r, end, Ids(s), c0, c1);
    case Return(_, _) =>
      n, c1 := SimReturn(w, p, flag, s, stack, c0, fuel);
    case Defer(_) =>
      StepsNone(w, p, c0);
      n, c1 := 0, c0;
      ArrivesNormally(w, p, stack, NO_LABEL, r, end, Ids(s), c0, c1);
    case ErrDefer(_) =>
      StepsNone(w, p, c0);
      n, c1 := 0, c0;
      ArrivesNormally(w, p, stack, NO_LABEL, r, end, Ids(s), c0, c1);
  }

  ghost function ThenCode(flag: bool, s: Stmt, stack: Stack): Program
    requires s.If? && ShapedSeq(s.thn) && GoodStack(stack)
  {
    ActCode(s.capture) + EmitSeq(flag, s.thn, stack, Scope(NO_LABEL, [], []))
  }

  ghost function ElseCode(flag: bool, s: Stmt, stack: Stack): Program
    requires s.If? && (s.els.Some? ==> Shaped(s.els.value)) && GoodStack(stack)
  {
    if s.els.None? then []
    else
      var b := EmitStmt(flag, s.els.value, stack);
      [Jump(|b| + 1)] + b
  }

  lemma BranchParts(flag: bool, s: Stmt, stack: Stack)
    requires s.If? && ShapedSeq(s.thn) && (s.els.Some? ==> Shaped(s.els.value)) && GoodStack(stack)
    ensures var thn := EmitSeq(flag, s.thn, stack, Scope(NO_LABEL, [], []));
      && ThenCode(flag, s, stack) == ActCode(s.capture) + thn && |ActCode(s.capture)| == |s.capture|
      && (forall i :: i in thn ==> i in ThenCode(flag, s, stack))
    ensures s.els.None? ==> ElseCode(flag, s, stack) == []
    ensures s.els.Some? ==>
      var b := EmitStmt(flag, s.els.value, stack);
      ElseCode(flag, s, stack) == [Jump(|b| + 1)] + b
  {
    hide EmitSeq, EmitStmt;
  }

  lemma AgreeSelf(m: map<LoopId, (int, int)>, ids: set<LoopId>)
    ensures Agree(m, m, ids)
  {
  }

  lemma IfCode(flag: bool, s: Stmt, stack: Stack)
    requires s.If? && Shaped(s) && ShapedSeq(s.thn) && (s.els.Some? ==> Shaped(s.els.value)) && GoodStack(stack)
    ensures var a := ThenCode(flag, s, stack);
      EmitStmt(flag, s, stack) ==
      [BranchUnless(s.test, if s.els.None? then |a| + 1 else |a| + 2)] + (a + ElseCode(flag, s, stack))
  {
    var a := ThenCode(flag, s, stack);
    assert a + [] == a;
  }

  lemma IfRun(w: World, s: Stmt, t: Trace, fuel: nat)
    requires s.If?
    ensures var t1 := t + [Tested(s.test)];
      Exec(w, s, t, fuel) ==
      if w.test(s.test, t) then ExecSeq(w, s.thn, [], [], t1 + Acts(s.capture), fuel)
      else if s.els.Some? then Exec(w, s.els.value, t1, fuel)
      else Res(Normal, t1)
  {
  }

  lemma {:induction false} SimIf(w: World, p: Program, flag: bool, s: Stmt, stack: Stack, c0: Config, fuel: nat)
    returns (n: nat, c1: Config)
    requires s.If? && Ready(w, p, flag, stack, c0) && Shaped(s) && Distinct(s)
    requires !c0.err || Deferrable(s)
    requires w.errorUnion && !flag ==> !HasErrDefer(s)
    requires At(p, c0.pc, EmitStmt(flag, s, stack))
    ensures Steps(w, p, c0, n) == c1
    ensures Arrives(w, p, stack, NO_LABEL, Exec(w, s, c0.t, fuel), c0.pc + |EmitStmt(flag, s, stack)|, Ids(s), c0, c1)
    ensures Exec(w, s, c0.t, fuel).out.Timeout? ==> n >= fuel
    ensures var out := Exec(w, s, c0.t, fuel).out;
      out.Continued? ==> Goto(LoopContinue(out.id)) in EmitStmt(flag, s, stack)
    decreases Rank(s), fuel, Size(s), 3
  {
    hide At, Step, Steps, Arrives, UniqueLabels, EmitStmt, Exec, EmitSeq, ExecSeq, GoodStack, Shaped, ShapedSeq,
         Distinct, Deferrable, HasErrDefer, Ids, Size, ThenCode;
    IfParts(s, {});
    IfCode(flag, s, stack);
    IfRun(w, s, c0.t, fuel);
    var a := ThenCode(flag, s, stack);
    var tail := ElseCode(flag, s, stack);
    var skip := if s.els.None? then |a| + 1 else |a| + 2;
    AtFirst(p, c0.pc, BranchUnless(s.test, skip), a + tail);
    AtSplit(p, c0.pc + 1, a, tail);
    DoBranchUnless(w, p, c0, s.test, skip);
    var d0 := c0.(pc := if w.test(s.test, c0.t) then c0.pc + 1 else c0.pc + skip, t := c0.t + [Tested(s.test)]);
    var r := Exec(w, s, c0.t, fuel);
    var end := c0.pc + |EmitStmt(flag, s, stack)|;
    var m, d1;
    if w.test(s.test, c0.t) {
      m, d1 := SimThen(w, p, flag, s, stack, d0, fuel);
    } else if s.els.Some? {
      m, d1 := SimElse(w, p, flag, s, stack, d0, fuel);
    } else {
      StepsNone(w, p, d0);
      m, d1 := 0, d0;
      ArrivesNormally(w, p, stack, NO_LABEL, r, end, Ids(s), d0, d0);
    }
    Then(w, p, c0, 1, d0, m, d1);
    n, c1 := 1 + m, d1;
    ArrivesFrom(w, p, stack, NO_LABEL, r, end, end, Ids(s), Ids(s), c0, d0, d1);
  }

  lemma {:induction false} SimThen(w: World, p: Program, flag: bool, s: Stmt, stack: Stack, c0: Config, fuel: nat)
    returns (n: nat, c1: Config)
    requires s.If? && Ready(w, p, flag, stack, c0) && Shaped(s) && Distinct(s)
    requires !c0.err || Deferrable(s)
    requires w.errorUnion && !flag ==> !HasErrDefer(s)
    requires ShapedSeq(s.thn) && (s.els.Some? ==> Shaped(s.els.value))
    requires At(p, c0.pc, ThenCode(flag, s, stack))
    requires At(p, c0.pc + |ThenCode(flag, s, stack)|, ElseCode(flag, s, stack))
    ensures Steps(w, p, c0, n) == c1
    ensures var r := ExecSeq(w, s.thn, [], [], c0.t + Acts(s.capture), fuel);
      && Arrives(w, p, stack, NO_LABEL, r,
                 c0.pc + |ThenCode(flag, s, stack)| + |ElseCode(flag, s, stack)|, Ids(s), c0, c1)
      && (r.out.Timeout? ==> n >= fuel)
      && (r.out.Continued? ==> Goto(LoopContinue(r.out.id)) in ThenCode(flag, s, stack))
    decreases Rank(s), fuel, Size(s), 2
  {
    hide At, Step, Steps, Arrives, UniqueLabels, EmitStmt, Exec, EmitSeq, ExecSeq, GoodStack, Shaped, ShapedSeq,
         Distinct, Deferrable, HasErrDefer, Ids, Size, ThenCode, ElseCode, ActCode, Acts, Agree, NoErrDefers;
    IfParts(s, {});
    var sc := Scope(NO_LABEL, [], []);
    var thn := EmitSeq(flag, s.thn, stack, sc);
    BranchParts(flag, s, stack);
    AgreeSelf(c0.counters, Ids(s));
    AtSplit(p, c0.pc, ActCode(s.capture), thn);
    RunActs(w, p, s.capture, c0);
    var d1 := c0.(pc := c0.pc + |s.capture|, t := c0.t + Acts(s.capture));
    var m, d2 := SimSeq(w, p, flag, s.thn, stack, sc, d1, fuel);
    Then(w, p, c0, |s.capture|, d1, m, d2);
    n, c1 := |s.capture| + m, d2;
    var r := ExecSeq(w, s.thn, [], [], d1.t, fuel);
    var end := c0.pc + |ThenCode(flag, s, stack)| + |ElseCode(flag, s, stack)|;
    if r.out.Normal? && s.els.Some? {
      ArrivesNormally(w, p, stack, NO_LABEL, r, d1.pc + |thn|, IdsSeq(s.thn), d1, d2);
      var b := EmitStmt(flag, s.els.value, stack);
      AtFirst(p, d2.pc, Jump(|b| + 1), b);
      DoJump(w, p, d2, |b| + 1);
      c1 := d2.(pc := d2.pc + |b| + 1);
      Then(w, p, c0, n, d2, 1, c1);
      n := n + 1;
      ArrivesNormally(w, p, stack, NO_LABEL, r, end, IdsSeq(s.thn), d1, c1);
      ArrivesFrom(w, p, stack, NO_LABEL, r, end, end, IdsSeq(s.thn), Ids(s), c0, d1, c1);
    } else {
      ArrivesFrom(w, p, stack, NO_LABEL, r, d1.pc + |thn|, end, IdsSeq(s.thn), Ids(s), c0, d1, d2);
    }
  }

  lemma {:induction false} SimElse(w: World, p: Program, flag: bool, s: Stmt, stack: Stack, c0: Config, fuel: nat)
    returns (n: nat, c1: Config)
    requires s.If? && s.els.Some? && Ready(w, p, flag, stack, c0) && Shaped(s) && Distinct(s)
    requires !c0.err || Deferrable(s)
    requires w.errorUnion && !flag ==> !HasErrDefer(s)
    requires Shaped(s.els.value)
    requires At(p, c0.pc - 1, ElseCode(flag, s, stack))
    ensures Steps(w, p, c0, n) == c1
    ensures var r := Exec(w, s.els.value, c0.t, fuel);
      && Arrives(w, p, stack, NO_LABEL, r, c0.pc - 1 + |ElseCode(flag, s, stack)|, Ids(s), c0, c1)
      && (r.out.Timeout? ==> n >= fuel)
      && (r.out.Continued? ==> Goto(LoopContinue(r.out.id)) in ElseCode(flag, s, stack))
    decreases Rank(s), fuel, Size(s), 2
  {
    hide At, Step, Steps, Arrives, UniqueLabels, EmitStmt, Exec, EmitSeq, ExecSeq, GoodStack, Shaped, ShapedSeq,
         Distinct, Deferrable, HasErrDefer, Ids, Size;
    IfParts(s, {});
    var b := EmitStmt(flag, s.els.value, stack);
    AtFirst(p, c0.pc - 1, Jump(|b| + 1), b);
    n, c1 := SimStmt(w, p, flag, s.els.value, stack, c0, fuel);
    var end := c0.pc + |b|;
    ArrivesFrom(w, p, stack, NO_LABEL, Exec(w, s.els.value, c0.t, fuel), end, end, Ids(s.els.value), Ids(s), c0, c0,
      c1);
  }

  lemma {:induction false} SimJump(w: World, p: Program, flag: bool, stack: Stack, id: LoopId, l: Label, c0: Config)
    returns (n: nat, c1: Config)
    requires Ready(w, p, flag, stack, c0) && !c0.err
    requires At(p, c0.pc, EmitExit(flag, stack, |stack|, id) + [Goto(l)])
    ensures Steps(w, p, c0, n) == c1
    ensures Jumped(c0, c1, FindLabel(p, l), Unwind(w, stack, |stack|, id, false, c0.t), {})
    decreases 1, 0, 0, 2
  {
    hide At, Step, Steps, Unwind, EmitExit;
    var code := EmitExit(flag, stack, |stack|, id);
    AtSplit(p, c0.pc, code, [Goto(l)]);
    AtOnly(p, c0.pc + |code|, Goto(l));
    n, c1 := SimExit(w, p, flag, stack, |stack|, id, false, c0);
    if c1.Run? {
      var d := c1.(pc := FindLabel(p, l));
      DoGoto(w, p, c1, l);
      Then(w, p, c0, n, c1, 1, d);
      n, c1 := n + 1, d;
    }
  }

  lemma {:induction false} SimReturn(w: World, p: Program, flag: bool, s: Stmt, stack: Stack, c0: Config, fuel: nat)
    returns (n: nat, c1: Config)
    requires s.Return? && Ready(w, p, flag, stack, c0) && !c0.err
    requires At(p, c0.pc, EmitStmt(flag, s, stack))
    ensures Steps(w, p, c0, n) == c1
    ensures Arrives(w, p, stack, NO_LABEL, Exec(w, s, c0.t, fuel), c0.pc + |EmitStmt(flag, s, stack)|, {}, c0, c1)
    decreases 1, fuel, 0, 2
  {
    hide At, Step, Steps, Unwind, EmitExit, EmitStmt, Exec, Arrives, Ready;
    if HasPending(stack) || s.boxed {
      n, c1 := SimReturnUnwinding(w, p, flag, s, stack, c0, fuel);
    } else {
      n, c1 := SimReturnDirect(w, p, flag, s, stack, c0, fuel);
    }
  }

  lemma {:induction false} SimReturnUnwinding(
    w: World, p: Program, flag: bool, s: Stmt, stack: Stack, c0: Config, fuel: nat)
    returns (n: nat, c1: Config)
    requires s.Return? && (HasPending(stack) || s.boxed) && Ready(w, p, flag, stack, c0) && !c0.err
    requires At(p, c0.pc, EmitStmt(flag, s, stack))
    ensures Steps(w, p, c0, n) == c1
    ensures Arrives(w, p, stack, NO_LABEL, Exec(w, s, c0.t, fuel), c0.pc + |EmitStmt(flag, s, stack)|, {}, c0, c1)
    decreases 1, fuel, 0, 1
  {
    hide At, Step, Steps, Unwind, EmitExit;
    var v := w.Result(s.operand, s.boxed, c0.t);
    var exit := EmitExit(flag, stack, |stack|, NO_LABEL);
    var set1 := if flag then [FlagIfError] else [];
    AtFirst(p, c0.pc, Evaluate(s.operand, s.boxed), set1 + (exit + [ReturnEvaluated]));
    AtSplit(p, c0.pc + 1, set1, exit + [ReturnEvaluated]);
    AtSplit(p, c0.pc + 1 + |set1|, exit, [ReturnEvaluated]);
    AtOnly(p, c0.pc + 1 + |set1| + |exit|, ReturnEvaluated);
    DoEvaluate(w, p, c0, s.operand, s.boxed);
    n, c1 := 1, c0.(pc := c0.pc + 1, t := c0.t + [Read(s.operand)], rv := v);
    if flag {
      AtOnly(p, c1.pc, FlagIfError);
      DoFlagIfError(w, p, c1);
      var d1 := c1.(pc := c1.pc + 1, err := w.isError(v));
      Then(w, p, c0, 1, c1, 1, d1);
      n, c1 := 2, d1;
    }
    var m, d2 := SimExit(w, p, flag, stack, |stack|, NO_LABEL, w.ErrorReturn(v), c1);
    Then(w, p, c0, n, c1, m, d2);
    n, c1 := n + m, d2;
    if c1.Run? {
      DoReturnEvaluated(w, p, c1);
      Then(w, p, c0, n, c1, 1, Halted(ReturnedValue(c1.rv), c1.t));
      n, c1 := n + 1, Halted(ReturnedValue(c1.rv), c1.t);
    }
  }

  lemma {:induction false} SimReturnDirect(
    w: World, p: Program, flag: bool, s: Stmt, stack: Stack, c0: Config, fuel: nat)
    returns (n: nat, c1: Config)
    requires s.Return? && !HasPending(stack) && !s.boxed && Ready(w, p, flag, stack, c0) && !c0.err
    requires At(p, c0.pc, EmitStmt(flag, s, stack))
    ensures Steps(w, p, c0, n) == c1
    ensures Arrives(w, p, stack, NO_LABEL, Exec(w, s, c0.t, fuel), c0.pc + |EmitStmt(flag, s, stack)|, {}, c0, c1)
    decreases 1, fuel, 0, 1
  {
    hide At, Step, Steps, Unwind, EmitExit;
    var v := w.value(s.operand, c0.t);
    UnwindNothing(w, stack, |stack|, NO_LABEL, w.ErrorReturn(v), c0.t + [Read(s.operand)]);
    AtOnly(p, c0.pc, ReturnNow(s.operand));
    DoReturnNow(w, p, c0, s.operand);
    n, c1 := 1, Halted(ReturnedValue(v), c0.t + [Read(s.operand)]);
  }

  /** The exit code of the innermost scopes runs exactly the pending deferred bodies. */
  lemma {:induction false} SimExit(
    w: World, p: Program, flag: bool, stack: Stack, k: nat, target: int, failing: bool, c0: Config)
    returns (n: nat, c1: Config)
    requires Ready(w, p, flag, stack, c0) && k <= |stack|
    requires if flag then c0.err == failing else failing ==> NoErrDefers(stack)
    requires At(p, c0.pc, EmitExit(flag, stack, k, target))
    ensures Steps(w, p, c0, n) == c1
    ensures Jumped(c0, c1, c0.pc + |EmitExit(flag, stack, k, target)|, Unwind(w, stack, k, target, failing, c0.t), {})
    decreases 1, 0, 0, 1, k
  {
    hide At, Step, Steps, UniqueLabels, EmitStmt, EmitBodies, EmitExit, ErrCode, Unwind, LeaveScope, RunDeferred,
         Deferrable, Shaped, HasErrDefer, Size, SizeSeq;
    StepsNone(w, p, c0);
    UnwindStep(w, stack, k, target, failing, c0.t);
    if k == 0 {
      ExitNone(flag, stack, target);
      n, c1 := 0, c0;
      return;
    }
    ExitCode(flag, stack, k, target);
    var sc := stack[k - 1];
    var one := ScopeCode(flag, sc, stack);
    var stop := target != NO_LABEL && sc.owner == target;
    var rest := if stop then [] else EmitExit(flag, stack, k - 1, target);
    AtSplit(p, c0.pc, one, rest);
    n, c1 := SimScopeExit(w, p, flag, sc, stack, failing, c0);
    if c1.Run? && !stop {
      var m, d := SimExit(w, p, flag, stack, k - 1, target, failing, c1);
      Then(w, p, c0, n, c1, m, d);
      if d.Run? {
        AgreeTrans(c0.counters, c1.counters, d.counters, {}, {}, {});
      }
      n, c1 := n + m, d;
    }
  }

  ghost function ScopeCode(flag: bool, sc: Scope, stack: Stack): Program
    requires GoodScope(sc) && GoodStack(stack)
  {
    EmitBodies(flag, sc.defers, stack) + ErrCode(flag, sc, stack)
  }

  lemma ExitNone(flag: bool, stack: Stack, target: int)
    requires GoodStack(stack)
    ensures EmitExit(flag, stack, 0, target) == []
  {
  }

  lemma ExitCode(flag: bool, stack: Stack, k: nat, target: int)
    requires GoodStack(stack) && 0 < k <= |stack|
    ensures var sc := stack[k - 1];
      EmitExit(flag, stack, k, target) ==
      ScopeCode(flag, sc, stack) +
      (if target != NO_LABEL && sc.owner == target then [] else EmitExit(flag, stack, k - 1, target))
  {
    hide EmitBodies, ErrCode, GoodBodies;
    var sc := stack[k - 1];
    var rest := if target != NO_LABEL && sc.owner == target then [] else EmitExit(flag, stack, k - 1, target);
    var a, b := EmitBodies(flag, sc.defers, stack), ErrCode(flag, sc, stack);
    assert a + (b + rest) == (a + b) + rest;
  }

  lemma UnwindStep(w: World, stack: Stack, k: nat, target: int, failing: bool, t: Trace)
    requires k <= |stack| && GoodStack(stack)
    ensures Unwind(w, stack, k, target, failing, t).out in {Normal, Panicked}
    ensures k == 0 ==> Unwind(w, stack, k, target, failing, t) == Res(Normal, t)
    ensures k > 0 ==>
      var sc := stack[k - 1];
      var u := LeaveScope(w, sc.defers, sc.errDefers, failing, t);
      && u.out in {Normal, Panicked}
      && Unwind(w, stack, k, target, failing, t) ==
         if !u.out.Normal? || (target != NO_LABEL && sc.owner == target) then u
         else Unwind(w, stack, k - 1, target, failing, u.t)
  {
    hide LeaveScope, Deferrable, Shaped;
    if k > 0 {
      var sc := stack[k - 1];
      ScopeExitCompletes(w, sc.defers, sc.errDefers, failing, t);
      var u := LeaveScope(w, sc.defers, sc.errDefers, failing, t);
      UnwindStep(w, stack, k - 1, target, failing, u.t);
    }
  }

  lemma LeaveScopeCases(w: World, sc: Scope, failing: bool, t: Trace)
    requires GoodScope(sc)
    ensures var u := RunDeferred(w, sc.defers, t);
      && u.out in {Normal, Panicked}
      && LeaveScope(w, sc.defers, sc.errDefers, failing, t) ==
         if u.out.Normal? && failing && sc.errDefers != [] then RunDeferred(w, sc.errDefers, u.t) else u
    ensures RunDeferred(w, sc.errDefers, RunDeferred(w, sc.defers, t).t).out in {Normal, Panicked}
  {
    DeferredComplete(w, sc.defers, t);
    DeferredComplete(w, sc.errDefers, RunDeferred(w, sc.defers, t).t);
  }

  /** One scope's exit code: plain defers in reverse, then the errdefers in reverse if the flag is up. */
  lemma {:induction false} SimScopeExit(
    w: World, p: Program, flag: bool, sc: Scope, stack: Stack, failing: bool, c0: Config)
    returns (n: nat, c1: Config)
    requires Ready(w, p, flag, stack, c0) && GoodScope(sc)
    requires if flag then c0.err == failing else failing ==> sc.errDefers == []
    requires w.errorUnion && !flag ==> Quiet(sc.defers)
    requires At(p, c0.pc, ScopeCode(flag, sc, stack))
    ensures Steps(w, p, c0, n) == c1
    ensures Jumped(c0, c1, c0.pc + |ScopeCode(flag, sc, stack)|,
      LeaveScope(w, sc.defers, sc.errDefers, failing, c0.t), {})
    decreases 1, 0, 0, 0
  {
    hide At, Step, Steps, UniqueLabels, EmitStmt, EmitBodies, LeaveScope, RunDeferred, Agree, Deferrable, Shaped,
         HasErrDefer, GoodStack, NoErrDefers;
    LeaveScopeCases(w, sc, failing, c0.t);
    var ds := EmitBodies(flag, sc.defers, stack);
    var es := ErrCode(flag, sc, stack);
    AtSplit(p, c0.pc, ds, es);
    n, c1 := SimBodies(w, p, flag, sc.defers, stack, c0);
    if !c1.Run? {
      return;
    }
    if sc.errDefers != [] && flag {
      var d0 := c1;
      var e := EmitBodies(flag, sc.errDefers, stack);
      AtFirst(p, d0.pc, BranchUnlessFlag(|e| + 1), e);
      c1 := d0.(pc := if d0.err then d0.pc + 1 else d0.pc + |e| + 1);
      DoBranchUnlessFlag(w, p, d0, |e| + 1);
      Then(w, p, c0, n, d0, 1, c1);
      n := n + 1;
      if failing {
        var m, d1 := SimBodies(w, p, flag, sc.errDefers, stack, c1);
        Then(w, p, c0, n, c1, m, d1);
        if d1.Run? {
          AgreeTrans(c0.counters, c1.counters, d1.counters, {}, {}, {});
        }
        n, c1 := n + m, d1;
      }
    }
  }

  lemma {:induction false} SimBodies(w: World, p: Program, flag: bool, ds: seq<Stmt>, stack: Stack, c0: Config)
    returns (n: nat, c1: Config)
    requires Ready(w, p, flag, stack, c0) && GoodBodies(ds)
    requires w.errorUnion && !flag ==> Quiet(ds)
    requires At(p, c0.pc, EmitBodies(flag, ds, stack))
    ensures Steps(w, p, c0, n) == c1
    ensures Jumped(c0, c1, c0.pc + |EmitBodies(flag, ds, stack)|, RunDeferred(w, ds, c0.t), {})
    decreases 0, 0, SizeSeq(ds), 2
  {
    hide At, Step, Steps, Arrives, UniqueLabels, EmitStmt, EmitBodies, Exec, RunDeferred, Agree, Deferrable, Shaped,
         HasErrDefer, Size, SizeSeq, Ids, Distinct, GoodStack, NoErrDefers;
    StepsNone(w, p, c0);
    BodiesStep(w, flag, ds, stack, c0.t);
    if ds == [] {
      n, c1 := 0, c0;
      AgreeSelf(c0.counters, {});
    } else {
      var d := ds[|ds| - 1];
      var init := ds[..|ds| - 1];
      SizeSeqInit(ds);
      AtSplit(p, c0.pc, EmitStmt(flag, d, stack), EmitBodies(flag, init, stack));
      DeferrableHasNoIds(d);
      n, c1 := SimStmt(w, p, flag, d, stack, c0, 0);
      var r := Exec(w, d, c0.t, 0);
      if r.out.Normal? {
        ArrivesNormally(w, p, stack, NO_LABEL, r, c0.pc + |EmitStmt(flag, d, stack)|, {}, c0, c1);
        var m, d1 := SimBodies(w, p, flag, init, stack, c1);
        Then(w, p, c0, n, c1, m, d1);
        if d1.Run? {
          AgreeTrans(c0.counters, c1.counters, d1.counters, {}, {}, {});
        }
        n, c1 := n + m, d1;
      } else {
        TrappedIfPanicked(w, p, stack, r, c0.pc + |EmitStmt(flag, d, stack)|, {}, c0, c1);
      }
    }
  }

  lemma TrappedIfPanicked(
    w: World, p: Program, stack: Stack, r: Res, end: int, ids: set<LoopId>, c0: Config, c1: Config)
    requires c0.Run? && r.out.Panicked? && Arrives(w, p, stack, NO_LABEL, r, end, ids, c0, c1)
    ensures c1 == Trapped(r.t)
  {
  }

  lemma BodiesStep(w: World, flag: bool, ds: seq<Stmt>, stack: Stack, t: Trace)
    requires GoodBodies(ds) && GoodStack(stack)
    ensures ds == [] ==> EmitBodies(flag, ds, stack) == [] && RunDeferred(w, ds, t) == Res(Normal, t)
    ensures ds != [] ==>
      var d := ds[|ds| - 1];
      var init := ds[..|ds| - 1];
      var r := Exec(w, d, t, 0);
      && EmitBodies(flag, ds, stack) == EmitStmt(flag, d, stack) + EmitBodies(flag, init, stack)
      && r.out in {Normal, Panicked}
      && RunDeferred(w, ds, t) == if r.out.Normal? then RunDeferred(w, init, r.t) else r
  {
    hide Exec, EmitStmt, Deferrable, Shaped;
    if ds != [] {
      DeferrableCompletes(w, ds[|ds| - 1], t, 0);
    }
  }

  lemma {:induction false} SimSeq(
    w: World, p: Program, flag: bool, rest: seq<Stmt>, stack: Stack, sc: Scope, c0: Config, fuel: nat)
    returns (n: nat, c1: Config)
    requires Ready(w, p, flag, stack, c0) && ShapedSeq(rest) && DistinctSeq(rest) && GoodScope(sc)
    requires !c0.err || DeferrableSeq(rest)
    requires w.errorUnion && !flag ==> !HasErrDeferSeq(rest) && sc.errDefers == [] && Quiet(sc.defers)
    requires At(p, c0.pc, EmitSeq(flag, rest, stack, sc))
    ensures Steps(w, p, c0, n) == c1
    ensures Arrives(w, p, stack, sc.owner, ExecSeq(w, rest, sc.defers, sc.errDefers, c0.t, fuel),
                    c0.pc + |EmitSeq(flag, rest, stack, sc)|, IdsSeq(rest), c0, c1)
    ensures ExecSeq(w, rest, sc.defers, sc.errDefers, c0.t, fuel).out.Timeout? ==> n >= fuel
    ensures var out := ExecSeq(w, rest, sc.defers, sc.errDefers, c0.t, fuel).out;
      out.Continued? ==> Goto(LoopContinue(out.id)) in EmitSeq(flag, rest, stack, sc)
    decreases RankSeq(rest), fuel, SizeSeq(rest) + SizeSeq(sc.defers) + SizeSeq(sc.errDefers), 3
  {
    hide At, Step, Steps, Arrives, UniqueLabels, EmitStmt, Exec, EmitSeq, ExecSeq, Unwind, LeaveScope, RunDeferred,
         Leave, Shaped, ShapedSeq, Distinct, DistinctSeq, Deferrable, DeferrableSeq, HasErrDefer, HasErrDeferSeq, Ids,
         IdsSeq, Size, SizeSeq, AllPathsExit, EmitBodies;
    var inner := stack + [sc];
    SeqRun(w, rest, sc.defers, sc.errDefers, c0.t, fuel);
    SeqCode(flag, rest, stack, sc);
    var end := c0.pc + |EmitSeq(flag, rest, stack, sc)|;
    var r := ExecSeq(w, rest, sc.defers, sc.errDefers, c0.t, fuel);
    if rest == [] {
      n, c1 := SimBodies(w, p, flag, sc.defers, inner, c0);
      if r.out.Normal? {
        ArrivesNormally(w, p, stack, sc.owner, r, end, IdsSeq(rest), c0, c1);
      } else {
        ArrivesPanicked(w, p, stack, sc.owner, r, end, IdsSeq(rest), c0);
      }
      return;
    }
    var s := rest[0];
    SeqParts(rest, {});
    if s.Defer? {
      DeferParts(s);
      SizeSeqAppend(sc.defers, s.deferred);
      n, c1 := SimSeq(w, p, flag, rest[1..], stack, sc.(defers := sc.defers + [s.deferred]), c0, fuel);
      ArrivesFrom(w, p, stack, sc.owner, r, end, end, IdsSeq(rest[1..]), IdsSeq(rest), c0, c0, c1);
    } else if s.ErrDefer? {
      DeferParts(s);
      SizeSeqAppend(sc.errDefers, s.deferred);
      n, c1 := SimSeq(w, p, flag, rest[1..], stack, sc.(errDefers := sc.errDefers + [s.deferred]), c0, fuel);
      ArrivesFrom(w, p, stack, sc.owner, r, end, end, IdsSeq(rest[1..]), IdsSeq(rest), c0, c0, c1);
    } else {
      n, c1 := SimHead(w, p, flag, rest, stack, sc, c0, fuel);
    }
  }

  lemma SeqRun(w: World, rest: seq<Stmt>, ds: seq<Stmt>, es: seq<Stmt>, t: Trace, fuel: nat)
    requires GoodBodies(ds)
    ensures rest == [] ==> ExecSeq(w, rest, ds, es, t, fuel) == RunDeferred(w, ds, t)
    ensures rest == [] ==> RunDeferred(w, ds, t).out in {Normal, Panicked}
    ensures rest != [] ==>
      ExecSeq(w, rest, ds, es, t, fuel) ==
      if rest[0].Defer? then ExecSeq(w, rest[1..], ds + [rest[0].deferred], es, t, fuel)
      else if rest[0].ErrDefer? then ExecSeq(w, rest[1..], ds, es + [rest[0].deferred], t, fuel)
      else
        var r := Exec(w, rest[0], t, fuel);
        if r.out.Normal? then ExecSeq(w, rest[1..], ds, es, r.t, fuel) else Leave(w, r.out, ds, es, r.t)
  {
    hide Exec, Deferrable, Shaped;
    if rest == [] {
      DeferredComplete(w, ds, t);
      assert LeaveScope(w, ds, es, false, t) == RunDeferred(w, ds, t);
    }
  }

  lemma SeqCode(flag: bool, rest: seq<Stmt>, stack: Stack, sc: Scope)
    requires ShapedSeq(rest) && GoodStack(stack) && GoodScope(sc)
    ensures GoodStack(stack + [sc])
    ensures rest == [] ==> EmitSeq(flag, rest, stack, sc) == EmitBodies(flag, sc.defers, stack + [sc])
    ensures rest != [] && rest[0].Defer? ==>
      && GoodBodies(sc.defers + [rest[0].deferred]) && ShapedSeq(rest[1..])
      && EmitSeq(flag, rest, stack, sc) ==
         EmitSeq(flag, rest[1..], stack, sc.(defers := sc.defers + [rest[0].deferred]))
    ensures rest != [] && rest[0].ErrDefer? ==>
      && GoodBodies(sc.errDefers + [rest[0].deferred]) && ShapedSeq(rest[1..])
      && EmitSeq(flag, rest, stack, sc) ==
         EmitSeq(flag, rest[1..], stack, sc.(errDefers := sc.errDefers + [rest[0].deferred]))
    ensures rest != [] && !rest[0].Defer? && !rest[0].ErrDefer? ==>
      && Shaped(rest[0]) && ShapedSeq(rest[1..])
      && EmitSeq(flag, rest, stack, sc) ==
         EmitStmt(flag, rest[0], stack + [sc])
           + (if AllPathsExit(rest[0]) then [] else EmitSeq(flag, rest[1..], stack, sc))
  {
    hide EmitStmt, EmitBodies;
    if rest != [] && !rest[0].Defer? && !rest[0].ErrDefer? {
      var c := EmitStmt(flag, rest[0], stack + [sc]);
      assert c + [] == c;
    } else if rest != [] {
      assert Shaped(rest[0]);
    }
  }

  lemma {:induction false} SimHead(
    w: World, p: Program, flag: bool, rest: seq<Stmt>, stack: Stack, sc: Scope, c0: Config, fuel: nat)
    returns (n: nat, c1: Config)
    requires Ready(w, p, flag, stack, c0) && ShapedSeq(rest) && DistinctSeq(rest) && GoodScope(sc)
    requires !c0.err || DeferrableSeq(rest)
    requires w.errorUnion && !flag ==> !HasErrDeferSeq(rest) && sc.errDefers == [] && Quiet(sc.defers)
    requires rest != [] && !rest[0].Defer? && !rest[0].ErrDefer?
    requires At(p, c0.pc, EmitSeq(flag, rest, stack, sc))
    ensures Steps(w, p, c0, n) == c1
    ensures Arrives(w, p, stack, sc.owner, ExecSeq(w, rest, sc.defers, sc.errDefers, c0.t, fuel),
                    c0.pc + |EmitSeq(flag, rest, stack, sc)|, IdsSeq(rest), c0, c1)
    ensures ExecSeq(w, rest, sc.defers, sc.errDefers, c0.t, fuel).out.Timeout? ==> n >= fuel
    ensures var out := ExecSeq(w, rest, sc.defers, sc.errDefers, c0.t, fuel).out;
      out.Continued? ==> Goto(LoopContinue(out.id)) in EmitSeq(flag, rest, stack, sc)
    decreases RankSeq(rest), fuel, SizeSeq(rest) + SizeSeq(sc.defers) + SizeSeq(sc.errDefers), 2
  {
    hide At, Step, Steps, Arrives, UniqueLabels, EmitStmt, Exec, EmitSeq, ExecSeq, Unwind, LeaveScope, RunDeferred,
         Leave, Shaped, ShapedSeq, Distinct, DistinctSeq, Deferrable, DeferrableSeq, HasErrDefer, HasErrDeferSeq, Ids,
         IdsSeq, Size, SizeSeq, AllPathsExit, EmitBodies;
    var inner := stack + [sc];
    var s := rest[0];
    SeqParts(rest, {});
    SeqRun(w, rest, sc.defers, sc.errDefers, c0.t, fuel);
    SeqCode(flag, rest, stack, sc);
    var end := c0.pc + |EmitSeq(flag, rest, stack, sc)|;
    var r := Exec(w, s, c0.t, fuel);
    var code := EmitStmt(flag, s, inner);
    var tail := if AllPathsExit(s) then [] else EmitSeq(flag, rest[1..], stack, sc);
    AtSplit(p, c0.pc, code, tail);
    n, c1 := SimStmt(w, p, flag, s, inner, c0, fuel);
    if AllPathsExit(s) {
      ExitsNeverFallThrough(w, s, c0.t, fuel);
    }
    if r.out.Normal? {
      ArrivesNormally(w, p, inner, NO_LABEL, r, c0.pc + |code|, Ids(s), c0, c1);
      var m, d := SimSeq(w, p, flag, rest[1..], stack, sc, c1, fuel);
      Then(w, p, c0, n, c1, m, d);
      AgreeTrans(c0.counters, c1.counters, c1.counters, Ids(s), {}, IdsSeq(rest));
      ArrivesFrom(w, p, stack, sc.owner, ExecSeq(w, rest[1..], sc.defers, sc.errDefers, r.t, fuel),
                  end, end, IdsSeq(rest[1..]), IdsSeq(rest), c0, c1, d);
      n, c1 := n + m, d;
    } else {
      LeaveArrives(w, p, stack, sc, r, c0.pc + |code|, end, Ids(s), IdsSeq(rest), c0, c1);
      LeavingKeepsOutcome(w, r.out, sc.defers, sc.errDefers, r.t);
    }
  }

  // ----- Switch -----

  lemma {:induction false} ExpandCovers(items: seq<Item>, v: int)
    ensures v in ExpandAll(items) <==> Covers(items, v)
  {
    if items != [] {
      ExpandCovers(items[1..], v);
      var e := Expand(items[0]);
      if CoversItem(items[0], v) && items[0].Span? {
        assert e[v - items[0].lo] == v;
      }
      if Covers(items, v) && !CoversItem(items[0], v) {
        var i :| 0 <= i < |items| && CoversItem(items[i], v);
        assert items[1..][i - 1] == items[i];
      }
      if Covers(items[1..], v) {
        var i :| 0 <= i < |items[1..]| && CoversItem(items[1..][i], v);
        assert items[i + 1] == items[1..][i];
      }
    }
  }

  function ProngOffset(flag: bool, ps: seq<Prong>, stack: Stack, k: nat): nat
    requires ShapedProngs(ps) && GoodStack(stack) && k <= |ps|
  {
    if k == 0 then 0 else |ProngCode(flag, ps[0], stack)| + 1 + ProngOffset(flag, ps[1..], stack, k - 1)
  }

  lemma {:induction false} ArmsSelect(flag: bool, ps: seq<Prong>, stack: Stack, offset: int, v: int)
    requires ShapedProngs(ps) && GoodStack(stack)
    ensures var arms := Arms(flag, ps, stack, offset);
      && |arms| == |ps|
      && FirstCase(arms, v) == FirstListed(ps, v) && FirstDefault(arms) == FirstElse(ps)
      && forall k :: 0 <= k < |ps| ==> arms[k].offset == offset + ProngOffset(flag, ps, stack, k)
    decreases ps
  {
    if ps != [] {
      var next := offset + |ProngCode(flag, ps[0], stack)| + 1;
      ArmsSelect(flag, ps[1..], stack, next, v);
      ExpandCovers(ps[0].items, v);
      var arms := Arms(flag, ps, stack, offset);
      assert arms[1..] == Arms(flag, ps[1..], stack, next);
      forall k | 0 <= k < |ps| ensures arms[k].offset == offset + ProngOffset(flag, ps, stack, k) {
        if k > 0 {
          assert arms[k] == arms[1..][k - 1];
        }
      }
    }
  }

  lemma SwitchGoes(flag: bool, ps: seq<Prong>, stack: Stack, end: int, v: int)
    requires ShapedProngs(ps) && GoodStack(stack)
    ensures SwitchOffset(Arms(flag, ps, stack, 1), end, v) ==
      if Pick(ps, v) < |ps| then 1 + ProngOffset(flag, ps, stack, Pick(ps, v)) else end
  {
    hide ProngOffset, Arms, ShapedProngs, FirstListed, FirstElse, FirstCase, FirstDefault;
    ArmsSelect(flag, ps, stack, 1, v);
  }

  lemma ProngsSplit(flag: bool, ps: seq<Prong>, stack: Stack, k: nat)
    requires ShapedProngs(ps) && GoodStack(stack) && k < |ps|
    ensures ShapedSeq(ps[0].body) && ShapedProngs(ps[1..])
    ensures var rest := EmitProngs(flag, ps[1..], stack);
      var code := ProngCode(flag, ps[0], stack);
      && EmitProngs(flag, ps, stack) == code + ([Jump(|rest| + 1)] + rest)
      && ProngOffset(flag, ps, stack, k) == if k == 0 then 0 else |code| + 1 + ProngOffset(flag, ps[1..], stack, k - 1)
  {
    hide ProngCode, ShapedSeq, GoodStack;
  }

  lemma {:induction false} ProngLayout(p: Program, pc: int, flag: bool, ps: seq<Prong>, stack: Stack, k: nat)
    requires ShapedProngs(ps) && GoodStack(stack) && k < |ps| && ShapedSeq(ps[k].body)
    requires At(p, pc, EmitProngs(flag, ps, stack))
    ensures var start := pc + ProngOffset(flag, ps, stack, k);
      var code := ProngCode(flag, ps[k], stack);
      && At(p, start, code)
      && start + |code| < |p|
      && p[start + |code|] == Jump(pc + |EmitProngs(flag, ps, stack)| - start - |code|)
      && forall i :: i in code ==> i in EmitProngs(flag, ps, stack)
    decreases ps
  {
    hide At, ProngCode, ShapedSeq, GoodStack, EmitProngs, ProngOffset;
    ProngsSplit(flag, ps, stack, k);
    var rest := EmitProngs(flag, ps[1..], stack);
    var code := ProngCode(flag, ps[0], stack);
    AtSplit(p, pc, code, [Jump(|rest| + 1)] + rest);
    AtFirst(p, pc + |code|, Jump(|rest| + 1), rest);
    if k > 0 {
      ProngLayout(p, pc + |code| + 1, flag, ps[1..], stack, k - 1);
    }
  }

  lemma SwitchShape(s: Stmt)
    requires s.Switch? && Shaped(s)
    ensures ShapedProngs(s.prongs)
  {
  }

  lemma SwitchCode(flag: bool, s: Stmt, stack: Stack)
    requires s.Switch? && Shaped(s) && ShapedProngs(s.prongs) && GoodStack(stack)
    ensures var bodies := EmitProngs(flag, s.prongs, stack);
      EmitStmt(flag, s, stack) == [SwitchOn(s.operand, Arms(flag, s.prongs, stack, 1), |bodies| + 1)] + bodies
  {
  }

  lemma SwitchRun(w: World, s: Stmt, t: Trace, fuel: nat)
    requires s.Switch?
    ensures var k := Pick(s.prongs, w.value(s.operand, t));
      Exec(w, s, t, fuel) ==
      if k < |s.prongs| then
        ExecSeq(w, s.prongs[k].body, [], [], t + [Read(s.operand)] + Acts(s.prongs[k].capture), fuel)
      else Res(Normal, t + [Read(s.operand)])
  {
  }

  lemma {:induction false} SimSwitch(w: World, p: Program, flag: bool, s: Stmt, stack: Stack, c0: Config, fuel: nat)
    returns (n: nat, c1: Config)
    requires s.Switch? && Ready(w, p, flag, stack, c0) && Shaped(s) && Distinct(s)
    requires !c0.err || Deferrable(s)
    requires w.errorUnion && !flag ==> !HasErrDefer(s)
    requires At(p, c0.pc, EmitStmt(flag, s, stack))
    ensures Steps(w, p, c0, n) == c1
    ensures Arrives(w, p, stack, NO_LABEL, Exec(w, s, c0.t, fuel), c0.pc + |EmitStmt(flag, s, stack)|, Ids(s), c0, c1)
    ensures Exec(w, s, c0.t, fuel).out.Timeout? ==> n >= fuel
    ensures var out := Exec(w, s, c0.t, fuel).out;
      out.Continued? ==> Goto(LoopContinue(out.id)) in EmitStmt(flag, s, stack)
    decreases Rank(s), fuel, Size(s), 3
  {
    hide At, Step, Steps, Arrives, UniqueLabels, EmitStmt, Exec, EmitSeq, ExecSeq, GoodStack, EmitProngs, Arms,
         ProngOffset, ProngCode, Pick, SwitchOffset, Shaped, ShapedSeq, ShapedProngs, Distinct, Deferrable,
         HasErrDefer, Ids, Size;
    SwitchShape(s);
    SwitchCode(flag, s, stack);
    SwitchRun(w, s, c0.t, fuel);
    var bodies := EmitProngs(flag, s.prongs, stack);
    var arms := Arms(flag, s.prongs, stack, 1);
    AtFirst(p, c0.pc, SwitchOn(s.operand, arms, |bodies| + 1), bodies);
    var v := w.value(s.operand, c0.t);
    SwitchGoes(flag, s.prongs, stack, |bodies| + 1, v);
    DoSwitchOn(w, p, c0, s.operand, arms, |bodies| + 1);
    var d0 := c0.(pc := c0.pc + SwitchOffset(arms, |bodies| + 1, v), t := c0.t + [Read(s.operand)]);
    var k := Pick(s.prongs, v);
    var r := Exec(w, s, c0.t, fuel);
    var end := c0.pc + |EmitStmt(flag, s, stack)|;
    var m, d1;
    if k < |s.prongs| {
      m, d1 := SimProng(w, p, flag, s, k, stack, c0.pc + 1, d0, fuel);
    } else {
      StepsNone(w, p, d0);
      m, d1 := 0, d0;
      ArrivesNormally(w, p, stack, NO_LABEL, r, end, Ids(s), d0, d0);
    }
    Then(w, p, c0, 1, d0, m, d1);
    n, c1 := 1 + m, d1;
    ArrivesFrom(w, p, stack, NO_LABEL, r, end, end, Ids(s), Ids(s), c0, d0, d1);
  }

  lemma {:induction false} SimProng(
    w: World, p: Program, flag: bool, s: Stmt, k: nat, stack: Stack, base: int, c0: Config, fuel: nat)
    returns (n: nat, c1: Config)
    requires s.Switch? && Ready(w, p, flag, stack, c0) && Shaped(s) && Distinct(s) && ShapedProngs(s.prongs)
    requires !c0.err || Deferrable(s)
    requires w.errorUnion && !flag ==> !HasErrDefer(s)
    requires k < |s.prongs| && At(p, base, EmitProngs(flag, s.prongs, stack))
    requires c0.pc == base + ProngOffset(flag, s.prongs, stack, k)
    ensures Steps(w, p, c0, n) == c1
    ensures var r := ExecSeq(w, s.prongs[k].body, [], [], c0.t + Acts(s.prongs[k].capture), fuel);
      && Arrives(w, p, stack, NO_LABEL, r, base + |EmitProngs(flag, s.prongs, stack)|, Ids(s), c0, c1)
      && (r.out.Timeout? ==> n >= fuel)
      && (r.out.Continued? ==> Goto(LoopContinue(r.out.id)) in EmitProngs(flag, s.prongs, stack))
    decreases Rank(s), fuel, Size(s), 2
  {
    hide At, Step, Steps, Arrives, UniqueLabels, EmitSeq, ExecSeq, GoodStack, EmitProngs, ProngOffset, Shaped,
         ShapedSeq, ShapedProngs, Distinct, Deferrable, HasErrDefer, Ids, Size;
    SwitchParts(s, k, {});
    ProngLayout(p, base, flag, s.prongs, stack, k);
    var pr := s.prongs[k];
    var sc := Scope(NO_LABEL, [], []);
    var body := EmitSeq(flag, pr.body, stack, sc);
    AtSplit(p, c0.pc, ActCode(pr.capture), body);
    RunActs(w, p, pr.capture, c0);
    var d1 := c0.(pc := c0.pc + |pr.capture|, t := c0.t + Acts(pr.capture));
    var m, d2 := SimSeq(w, p, flag, pr.body, stack, sc, d1, fuel);
    Then(w, p, c0, |pr.capture|, d1, m, d2);
    n, c1 := |pr.capture| + m, d2;
    var r := ExecSeq(w, pr.body, [], [], d1.t, fuel);
    var end := base + |EmitProngs(flag, s.prongs, stack)|;
    var mid := d1.pc + |body|;
    if r.out.Normal? {
      ArrivesNormally(w, p, stack, NO_LABEL, r, mid, IdsSeq(pr.body), d1, d2);
      DoJump(w, p, d2, end - mid);
      c1 := d2.(pc := end);
      Then(w, p, c0, n, d2, 1, c1);
      n := n + 1;
      ArrivesNormally(w, p, stack, NO_LABEL, r, end, IdsSeq(pr.body), d1, c1);
      ArrivesFrom(w, p, stack, NO_LABEL, r, end, end, IdsSeq(pr.body), Ids(s), c0, d1, c1);
    } else {
      ArrivesFrom(w, p, stack, NO_LABEL, r, mid, end, IdsSeq(pr.body), Ids(s), c0, d1, d2);
    }
  }

  // ----- While -----

  lemma LoopCode(flag: bool, s: Stmt, stack: Stack)
    requires (s.While? || s.For?) && Shaped(s) && GoodStack(stack)
    ensures ShapedSeq(s.body)
    ensures var body := EmitSeq(flag, s.body, stack, Scope(s.id, [], []));
      EmitStmt(flag, s, stack) == if s.While? then WhileCode(s, body) else ForCode(s, body)
  {
  }

  lemma ForRun(w: World, s: Stmt, t: Trace, fuel: nat)
    requires s.For?
    ensures var t1 := t + Acts(s.setup);
      var t2 := t1 + [Read(s.lo)];
      Exec(w, s, t, fuel) == ExecFor(w, s, w.value(s.lo, t1), w.value(s.hi, t2), t2 + [Read(s.hi)], fuel)
  {
  }

  lemma WhileFrame(p: Program, pc: int, s: Stmt, body: Program)
    requires s.While? && UniqueLabels(p) && At(p, pc, WhileCode(s, body))
    ensures 0 <= pc && pc + |WhileCode(s, body)| <= |p| && |WhileCode(s, body)| >= 3
    ensures p[pc] == Lab(LoopStart(s.id)) && p[pc + 1] == GotoUnless(s.test, LoopEnd(s.id))
    ensures At(p, pc + 2, WhileInner(s, body))
    ensures p[pc + |WhileCode(s, body)| - 1] == Lab(LoopEnd(s.id))
    ensures FindLabel(p, LoopStart(s.id)) == pc
    ensures FindLabel(p, LoopEnd(s.id)) == pc + |WhileCode(s, body)| - 1
  {
    hide At, UniqueLabels, FindLabel, WhileInner;
    var inner := WhileInner(s, body);
    var close := WhileClose(s, body);
    AtBounds(p, pc, WhileCode(s, body));
    AtFirst(p, pc, Lab(LoopStart(s.id)), [GotoUnless(s.test, LoopEnd(s.id))] + (inner + close));
    AtFirst(p, pc + 1, GotoUnless(s.test, LoopEnd(s.id)), inner + close);
    AtSplit(p, pc + 2, inner, close);
    var edge := if s.captured then [Jump(-(|inner| as int) - 1)] else [];
    AtSplit(p, pc + 2 + |inner|, edge, [Lab(LoopEnd(s.id))]);
    AtOnly(p, pc + 2 + |inner| + |edge|, Lab(LoopEnd(s.id)));
    LabelFound(p, pc);
    LabelFound(p, pc + |WhileCode(s, body)| - 1);
  }

  lemma WhileMiddle(p: Program, pc: int, s: Stmt, body: Program)
    requires s.While? && UniqueLabels(p) && At(p, pc, WhileInner(s, body))
    ensures At(p, pc, ActCode(s.capture)) && At(p, pc + |s.capture|, body)
    ensures var after := pc + |s.capture| + |body|;
      && At(p, after, WhileTail(s, body))
      && (Goto(LoopContinue(s.id)) in body ==> FindLabel(p, LoopContinue(s.id)) == after)
  {
    hide At, UniqueLabels, FindLabel;
    var tail := WhileTail(s, body);
    AtSplit(p, pc, ActCode(s.capture), body + tail);
    AtSplit(p, pc + |s.capture|, body, tail);
    var after := pc + |s.capture| + |body|;
    if Goto(LoopContinue(s.id)) in body {
      AtFirst(p, after, Lab(LoopContinue(s.id)), ActCode(s.step) + [Goto(LoopStart(s.id))]);
      LabelFound(p, after);
    }
  }

  lemma {:induction false} SimWhile(w: World, p: Program, flag: bool, s: Stmt, stack: Stack, c0: Config, fuel: nat)
    returns (n: nat, c1: Config)
    requires s.While? && Ready(w, p, flag, stack, c0) && Shaped(s) && Distinct(s) && !c0.err
    requires w.errorUnion && !flag ==> !HasErrDefer(s)
    requires ShapedSeq(s.body) && At(p, c0.pc, WhileCode(s, EmitSeq(flag, s.body, stack, Scope(s.id, [], []))))
    ensures Steps(w, p, c0, n) == c1
    ensures var body := EmitSeq(flag, s.body, stack, Scope(s.id, [], []));
      var r := ExecWhile(w, s, c0.t, fuel);
      && Arrives(w, p, stack, NO_LABEL, r, c0.pc + |WhileCode(s, body)|, Ids(s), c0, c1)
      && (r.out.Timeout? ==> n >= fuel)
      && (r.out.Continued? ==> Goto(LoopContinue(r.out.id)) in WhileCode(s, body))
    decreases 1, fuel, Size(s), 3
  {
    hide At, Step, Steps, Arrives, Exec, ExecSeq, EmitStmt, EmitSeq, WhileCode, WhileInner, UniqueLabels, GoodStack,
         Shaped, Distinct, Deferrable, HasErrDefer, Ids, Size, FindLabel, ShapedSeq;
    StepsNone(w, p, c0);
    var sc := Scope(s.id, [], []);
    var body := EmitSeq(flag, s.body, stack, sc);
    var r := ExecWhile(w, s, c0.t, fuel);
    var end := c0.pc + |WhileCode(s, body)|;
    if fuel == 0 {
      n, c1 := 0, c0;
      ArrivesTimedOut(w, p, stack, NO_LABEL, r, end, Ids(s), c0, c1);
      return;
    }
    WhileFrame(p, c0.pc, s, body);
    DoLab(w, p, c0, LoopStart(s.id));
    var a0 := c0.(pc := c0.pc + 1);
    DoGotoUnless(w, p, a0, s.test, LoopEnd(s.id));
    var d0 := a0.(pc := if w.test(s.test, c0.t) then a0.pc + 1 else end - 1, t := c0.t + [Tested(s.test)]);
    Then(w, p, c0, 1, a0, 1, d0);
    if !w.test(s.test, c0.t) {
      DoLab(w, p, d0, LoopEnd(s.id));
      c1 := d0.(pc := end);
      Then(w, p, c0, 2, d0, 1, c1);
      n := 3;
      ArrivesNormally(w, p, stack, NO_LABEL, r, end, Ids(s), c0, c1);
      return;
    }
    var m, d1 := SimWhileBody(w, p, flag, s, stack, c0.pc, d0, fuel);
    Then(w, p, c0, 2, d0, m, d1);
    n, c1 := 2 + m, d1;
    ArrivesFrom(w, p, stack, NO_LABEL, r, end, end, Ids(s), Ids(s), c0, d0, d1);
  }

  /** From just after a successful test: the body, then whatever its outcome asks for. */
  lemma {:induction false} SimWhileBody(
    w: World, p: Program, flag: bool, s: Stmt, stack: Stack, base: int, c0: Config, fuel: nat)
    returns (n: nat, c1: Config)
    requires s.While? && Ready(w, p, flag, stack, c0) && Shaped(s) && Distinct(s) && !c0.err && fuel > 0
    requires w.errorUnion && !flag ==> !HasErrDefer(s)
    requires ShapedSeq(s.body) && c0.pc == base + 2
    requires At(p, base, WhileCode(s, EmitSeq(flag, s.body, stack, Scope(s.id, [], []))))
    ensures Steps(w, p, c0, n) == c1
    ensures var body := EmitSeq(flag, s.body, stack, Scope(s.id, [], []));
      var b := ExecSeq(w, s.body, [], [], c0.t + Acts(s.capture), fuel - 1);
      var r := if b.out == Broke(s.id) then Res(Normal, b.t)
               else if b.out.Normal? || b.out == Continued(s.id) then ExecWhile(w, s, b.t + Acts(s.step), fuel - 1)
               else b;
      && Arrives(w, p, stack, NO_LABEL, r, base + |WhileCode(s, body)|, Ids(s), c0, c1)
      && (r.out.Timeout? ==> n >= fuel - 1)
      && (r.out.Continued? ==> Goto(LoopContinue(r.out.id)) in WhileCode(s, body))
    decreases 1, fuel, Size(s), 2
  {
    hide At, Step, Steps, Arrives, Exec, ExecSeq, ExecWhile, EmitStmt, EmitSeq, WhileCode, WhileInner, WhileTail,
         UniqueLabels, GoodStack, Shaped, Distinct, Deferrable, HasErrDefer, Ids, Size, FindLabel, ShapedSeq;
    LoopParts(s, {});
    var sc := Scope(s.id, [], []);
    var body := EmitSeq(flag, s.body, stack, sc);
    var end := base + |WhileCode(s, body)|;
    WhileFrame(p, base, s, body);
    WhileMiddle(p, base + 2, s, body);
    WhileCodeHolds(s, body);
    RunActs(w, p, s.capture, c0);
    var d1 := c0.(pc := c0.pc + |s.capture|, t := c0.t + Acts(s.capture));
    var m, d2 := SimSeq(w, p, flag, s.body, stack, sc, d1, fuel - 1);
    n, c1 := |s.capture| + m, d2;
    Then(w, p, c0, |s.capture|, d1, m, d2);
    var b := ExecSeq(w, s.body, [], [], d1.t, fuel - 1);
    var after := d1.pc + |body|;
    if b.out == Broke(s.id) {
      ArrivesAtOwner(w, p, stack, b, after, IdsSeq(s.body), d1, d2);
      DoLab(w, p, d2, LoopEnd(s.id));
      c1 := d2.(pc := end);
      Then(w, p, c0, n, d2, 1, c1);
      n := n + 1;
      AgreeTrans(c0.counters, d2.counters, d2.counters, IdsSeq(s.body), {}, Ids(s));
      ArrivesNormally(w, p, stack, NO_LABEL, Res(Normal, b.t), end, Ids(s), c0, c1);
    } else if b.out.Normal? || b.out == Continued(s.id) {
      if b.out.Normal? {
        ArrivesNormally(w, p, stack, sc.owner, b, after, IdsSeq(s.body), d1, d2);
      } else {
        ArrivesAtOwner(w, p, stack, b, after, IdsSeq(s.body), d1, d2);
      }
      var k, d3 := WhileBack(w, p, s, body, base, d2);
      Then(w, p, c0, n, d2, k, d3);
      var j, d4 := SimWhile(w, p, flag, s, stack, d3, fuel - 1);
      Then(w, p, c0, n + k, d3, j, d4);
      n, c1 := n + k + j, d4;
      AgreeTrans(c0.counters, d3.counters, d3.counters, IdsSeq(s.body), {}, Ids(s));
      ArrivesFrom(w, p, stack, NO_LABEL, ExecWhile(w, s, b.t + Acts(s.step), fuel - 1), end, end, Ids(s), Ids(s), c0,
        d3, d4);
    } else {
      ArrivesPastOwner(w, p, stack, s.id, b, after, IdsSeq(s.body), d1, d2);
      ArrivesFrom(w, p, stack, NO_LABEL, b, after, end, IdsSeq(s.body), Ids(s), c0, d1, d2);
    }
  }

  lemma WhileCodeHolds(s: Stmt, body: Program)
    requires s.While?
    ensures forall i :: i in body ==> i in WhileCode(s, body)
  {
  }

  /** From the end of the body or the continue label, through the continue expression, back to the start label. */
  lemma WhileBack(w: World, p: Program, s: Stmt, body: Program, base: int, c0: Config) returns (n: nat, c1: Config)
    requires s.While? && UniqueLabels(p) && At(p, base, WhileCode(s, body))
    requires c0.Run? && c0.pc == base + 2 + |s.capture| + |body|
    ensures Steps(w, p, c0, n) == c1
    ensures c1 == c0.(pc := base, t := c0.t + Acts(s.step))
  {
    hide At, Step, Steps, WhileCode, WhileInner, UniqueLabels, FindLabel;
    WhileFrame(p, base, s, body);
    WhileMiddle(p, base + 2, s, body);
    StepsNone(w, p, c0);
    var cont := ContinueLabel(s.id, body);
    AtSplit(p, c0.pc, cont, ActCode(s.step) + [Goto(LoopStart(s.id))]);
    AtSplit(p, c0.pc + |cont|, ActCode(s.step), [Goto(LoopStart(s.id))]);
    AtOnly(p, c0.pc + |cont| + |s.step|, Goto(LoopStart(s.id)));
    n, c1 := 0, c0;
    if cont != [] {
      AtOnly(p, c0.pc, Lab(LoopContinue(s.id)));
      DoLab(w, p, c0, LoopContinue(s.id));
      n, c1 := 1, c0.(pc := c0.pc + 1);
    }
    RunActs(w, p, s.step, c1);
    var d := c1.(pc := c1.pc + |s.step|, t := c1.t + Acts(s.step));
    Then(w, p, c0, n, c1, |s.step|, d);
    DoGoto(w, p, d, LoopStart(s.id));
    c1 := d.(pc := base);
    Then(w, p, c0, n + |s.step|, d, 1, c1);
    n := n + |s.step| + 1;
  }

  // ----- For -----

  lemma ForFrame(p: Program, pc: int, s: Stmt, body: Program)
    requires s.For? && UniqueLabels(p) && At(p, pc, ForLoop(s, body))
    ensures 0 <= pc && pc + |ForLoop(s, body)| <= |p| && |ForLoop(s, body)| == |ForInner(s, body)| + 4
    ensures p[pc] == Lab(LoopStart(s.id)) && p[pc + 1] == BranchIfDone(s.id, |ForInner(s, body)| + 2)
    ensures At(p, pc + 2, ForInner(s, body))
    ensures p[pc + |ForLoop(s, body)| - 1] == Lab(LoopEnd(s.id))
    ensures FindLabel(p, LoopStart(s.id)) == pc
    ensures FindLabel(p, LoopEnd(s.id)) == pc + |ForLoop(s, body)| - 1
  {
    hide At, UniqueLabels, FindLabel, ForInner;
    var inner := ForInner(s, body);
    var k: int := |inner|;
    var close := [Jump(-k - 1), Lab(LoopEnd(s.id))];
    AtBounds(p, pc, ForLoop(s, body));
    AtFirst(p, pc, Lab(LoopStart(s.id)), [BranchIfDone(s.id, k + 2)] + (inner + close));
    AtFirst(p, pc + 1, BranchIfDone(s.id, k + 2), inner + close);
    AtSplit(p, pc + 2, inner, close);
    assert close == [Jump(-k - 1)] + [Lab(LoopEnd(s.id))];
    AtSplit(p, pc + 2 + |inner|, [Jump(-k - 1)], [Lab(LoopEnd(s.id))]);
    AtOnly(p, pc + 3 + |inner|, Lab(LoopEnd(s.id)));
    LabelFound(p, pc);
    LabelFound(p, pc + |ForLoop(s, body)| - 1);
  }

  lemma ForMiddle(p: Program, pc: int, s: Stmt, body: Program)
    requires s.For? && UniqueLabels(p) && At(p, pc, ForInner(s, body))
    ensures 0 <= pc < |p| && p[pc] == BindItem(s.id) && At(p, pc + 1, body)
    ensures var after := pc + 1 + |body|;
      && At(p, after, ForTail(s, body))
      && (Goto(LoopContinue(s.id)) in body ==> FindLabel(p, LoopContinue(s.id)) == after)
  {
    hide At, UniqueLabels, FindLabel;
    var tail := ForTail(s, body);
    AtFirst(p, pc, BindItem(s.id), body + tail);
    AtSplit(p, pc + 1, body, tail);
    var after := pc + 1 + |body|;
    if Goto(LoopContinue(s.id)) in body {
      AtFirst(p, after, Lab(LoopContinue(s.id)), [Advance(s.id), Goto(LoopStart(s.id))]);
      LabelFound(p, after);
    }
  }

  lemma {:induction false} SimFor(w: World, p: Program, flag: bool, s: Stmt, stack: Stack, c0: Config, fuel: nat)
    returns (n: nat, c1: Config)
    requires s.For? && Ready(w, p, flag, stack, c0) && Shaped(s) && Distinct(s) && !c0.err
    requires w.errorUnion && !flag ==> !HasErrDefer(s)
    requires ShapedSeq(s.body) && At(p, c0.pc, ForCode(s, EmitSeq(flag, s.body, stack, Scope(s.id, [], []))))
    ensures Steps(w, p, c0, n) == c1
    ensures var body := EmitSeq(flag, s.body, stack, Scope(s.id, [], []));
      var t1 := c0.t + Acts(s.setup);
      var t2 := t1 + [Read(s.lo)];
      var r := ExecFor(w, s, w.value(s.lo, t1), w.value(s.hi, t2), t2 + [Read(s.hi)], fuel);
      && Arrives(w, p, stack, NO_LABEL, r, c0.pc + |ForCode(s, body)|, Ids(s), c0, c1)
      && (r.out.Timeout? ==> n >= fuel)
      && (r.out.Continued? ==> Goto(LoopContinue(r.out.id)) in ForCode(s, body))
    decreases 1, fuel, Size(s), 3
  {
    hide At, Step, Steps, Arrives, Exec, ExecSeq, ExecFor, EmitStmt, EmitSeq, ForLoop, UniqueLabels, GoodStack,
         Shaped, Distinct, Deferrable, HasErrDefer, Ids, Size, ShapedSeq;
    LoopParts(s, {});
    var body := EmitSeq(flag, s.body, stack, Scope(s.id, [], []));
    var set2 := [SetIndex(s.id, s.lo), SetLength(s.id, s.hi)];
    AtSplit(p, c0.pc, ActCode(s.setup), set2 + ForLoop(s, body));
    AtSplit(p, c0.pc + |s.setup|, set2, ForLoop(s, body));
    RunActs(w, p, s.setup, c0);
    var d0 := c0.(pc := c0.pc + |s.setup|, t := c0.t + Acts(s.setup));
    DoForSetup(w, p, d0, s.id, s.lo, s.hi);
    var t1 := d0.t + [Read(s.lo)];
    var i, len := w.value(s.lo, d0.t), w.value(s.hi, t1);
    var d1 := d0.(pc := d0.pc + 2, t := t1 + [Read(s.hi)], counters := d0.counters[s.id := (i, len)]);
    Then(w, p, c0, |s.setup|, d0, 2, d1);
    var m, d2 := SimForLoop(w, p, flag, s, stack, d1, i, len, fuel);
    Then(w, p, c0, |s.setup| + 2, d1, m, d2);
    n, c1 := |s.setup| + 2 + m, d2;
    var end := c0.pc + |ForCode(s, body)|;
    ArrivesFrom(w, p, stack, NO_LABEL, ExecFor(w, s, i, len, d1.t, fuel), end, end, Ids(s), Ids(s), c0, d1, d2);
  }

  lemma {:induction false} SimForLoop(
    w: World, p: Program, flag: bool, s: Stmt, stack: Stack, c0: Config, i: int, len: int, fuel: nat)
    returns (n: nat, c1: Config)
    requires s.For? && Ready(w, p, flag, stack, c0) && Shaped(s) && Distinct(s) && !c0.err && ShapedSeq(s.body)
    requires w.errorUnion && !flag ==> !HasErrDefer(s)
    requires At(p, c0.pc, ForLoop(s, EmitSeq(flag, s.body, stack, Scope(s.id, [], []))))
    requires s.id in c0.counters && c0.counters[s.id] == (i, len)
    ensures Steps(w, p, c0, n) == c1
    ensures var body := EmitSeq(flag, s.body, stack, Scope(s.id, [], []));
      var r := ExecFor(w, s, i, len, c0.t, fuel);
      && Arrives(w, p, stack, NO_LABEL, r, c0.pc + |ForLoop(s, body)|, Ids(s), c0, c1)
      && (r.out.Timeout? ==> n >= fuel)
      && (r.out.Continued? ==> Goto(LoopContinue(r.out.id)) in ForLoop(s, body))
    decreases 1, fuel, Size(s), 2
  {
    hide At, Step, Steps, Arrives, Exec, ExecSeq, EmitStmt, EmitSeq, ForLoop, ForInner, UniqueLabels, GoodStack,
         Shaped, Distinct, Deferrable, HasErrDefer, Ids, Size, FindLabel, ShapedSeq;
    StepsNone(w, p, c0);
    LoopParts(s, {});
    var body := EmitSeq(flag, s.body, stack, Scope(s.id, [], []));
    var r := ExecFor(w, s, i, len, c0.t, fuel);
    var end := c0.pc + |ForLoop(s, body)|;
    if fuel == 0 {
      n, c1 := 0, c0;
      ArrivesTimedOut(w, p, stack, NO_LABEL, r, end, Ids(s), c0, c1);
      return;
    }
    ForFrame(p, c0.pc, s, body);
    DoLab(w, p, c0, LoopStart(s.id));
    var a0 := c0.(pc := c0.pc + 1);
    DoForHead(w, p, a0, s.id, |ForInner(s, body)| + 2);
    var d0 := a0.(pc := if i < len then a0.pc + 1 else end - 1);
    Then(w, p, c0, 1, a0, 1, d0);
    if i >= len {
      DoLab(w, p, d0, LoopEnd(s.id));
      c1 := d0.(pc := end);
      Then(w, p, c0, 2, d0, 1, c1);
      n := 3;
      ArrivesNormally(w, p, stack, NO_LABEL, r, end, Ids(s), c0, c1);
      return;
    }
    var m, d1 := SimForBody(w, p, flag, s, stack, c0.pc, d0, i, len, fuel);
    Then(w, p, c0, 2, d0, m, d1);
    n, c1 := 2 + m, d1;
    ArrivesFrom(w, p, stack, NO_LABEL, r, end, end, Ids(s), Ids(s), c0, d0, d1);
  }

  lemma {:induction false} SimForBody(
    w: World, p: Program, flag: bool, s: Stmt, stack: Stack, base: int, c0: Config, i: int, len: int, fuel: nat)
    returns (n: nat, c1: Config)
    requires s.For? && Ready(w, p, flag, stack, c0) && Shaped(s) && Distinct(s) && !c0.err && fuel > 0
      && ShapedSeq(s.body)
    requires w.errorUnion && !flag ==> !HasErrDefer(s)
    requires At(p, base, ForLoop(s, EmitSeq(flag, s.body, stack, Scope(s.id, [], [])))) && c0.pc == base + 2
    requires s.id in c0.counters && c0.counters[s.id] == (i, len)
    ensures Steps(w, p, c0, n) == c1
    ensures var body := EmitSeq(flag, s.body, stack, Scope(s.id, [], []));
      var b := ExecSeq(w, s.body, [], [], c0.t + [Bound(s.id, i)], fuel - 1);
      var r := if b.out == Broke(s.id) then Res(Normal, b.t)
               else if b.out.Normal? || b.out == Continued(s.id) then ExecFor(w, s, i + 1, len, b.t, fuel - 1)
               else b;
      && Arrives(w, p, stack, NO_LABEL, r, base + |ForLoop(s, body)|, Ids(s), c0, c1)
      && (r.out.Timeout? ==> n >= fuel - 1)
      && (r.out.Continued? ==> Goto(LoopContinue(r.out.id)) in ForLoop(s, body))
    decreases 1, fuel, Size(s), 1
  {
    hide At, Step, Steps, Arrives, Exec, ExecSeq, ExecFor, EmitStmt, EmitSeq, ForLoop, ForInner, ForTail,
         UniqueLabels, GoodStack, Shaped, Distinct, Deferrable, HasErrDefer, Ids, Size, FindLabel, ShapedSeq;
    LoopParts(s, {});
    var sc := Scope(s.id, [], []);
    var body := EmitSeq(flag, s.body, stack, sc);
    var end := base + |ForLoop(s, body)|;
    ForFrame(p, base, s, body);
    ForMiddle(p, base + 2, s, body);
    ForLoopHolds(s, body);
    DoBindItem(w, p, c0, s.id);
    var d1 := c0.(pc := c0.pc + 1, t := c0.t + [Bound(s.id, i)]);
    var m, d2 := SimSeq(w, p, flag, s.body, stack, sc, d1, fuel - 1);
    n, c1 := 1 + m, d2;
    Then(w, p, c0, 1, d1, m, d2);
    var b := ExecSeq(w, s.body, [], [], d1.t, fuel - 1);
    var after := d1.pc + |body|;
    if b.out == Broke(s.id) {
      ArrivesAtOwner(w, p, stack, b, after, IdsSeq(s.body), d1, d2);
      DoLab(w, p, d2, LoopEnd(s.id));
      c1 := d2.(pc := end);
      Then(w, p, c0, n, d2, 1, c1);
      n := n + 1;
      AgreeTrans(c0.counters, d2.counters, d2.counters, IdsSeq(s.body), {}, Ids(s));
      ArrivesNormally(w, p, stack, NO_LABEL, Res(Normal, b.t), end, Ids(s), c0, c1);
    } else if b.out.Normal? || b.out == Continued(s.id) {
      if b.out.Normal? {
        ArrivesNormally(w, p, stack, sc.owner, b, after, IdsSeq(s.body), d1, d2);
      } else {
        ArrivesAtOwner(w, p, stack, b, after, IdsSeq(s.body), d1, d2);
      }
      assert s.id in d2.counters && d2.counters[s.id] == (i, len);
      var k, d3 := ForBack(w, p, s, body, base, d2);
      Then(w, p, c0, n, d2, k, d3);
      var j, d4 := SimForLoop(w, p, flag, s, stack, d3, i + 1, len, fuel - 1);
      Then(w, p, c0, n + k, d3, j, d4);
      n, c1 := n + k + j, d4;
      AgreeTrans(c0.counters, d2.counters, d3.counters, IdsSeq(s.body), {s.id}, Ids(s));
      ArrivesFrom(w, p, stack, NO_LABEL, ExecFor(w, s, i + 1, len, b.t, fuel - 1), end, end, Ids(s), Ids(s), c0, d3,
        d4);
    } else {
      ArrivesPastOwner(w, p, stack, s.id, b, after, IdsSeq(s.body), d1, d2);
      ArrivesFrom(w, p, stack, NO_LABEL, b, after, end, IdsSeq(s.body), Ids(s), c0, d1, d2);
    }
  }

  lemma ForLoopHolds(s: Stmt, body: Program)
    requires s.For?
    ensures forall i :: i in body ==> i in ForLoop(s, body)
  {
  }

  lemma ForBack(w: World, p: Program, s: Stmt, body: Program, base: int, c0: Config) returns (n: nat, c1: Config)
    requires s.For? && UniqueLabels(p) && At(p, base, ForLoop(s, body))
    requires c0.Run? && c0.pc == base + 3 + |body| && s.id in c0.counters
    ensures Steps(w, p, c0, n) == c1
    ensures c1 == c0.(pc := base, counters := c0.counters[s.id := (c0.counters[s.id].0 + 1, c0.counters[s.id].1)])
  {
    hide At, Step, Steps, ForLoop, ForInner, UniqueLabels, FindLabel;
    ForFrame(p, base, s, body);
    ForMiddle(p, base + 2, s, body);
    StepsNone(w, p, c0);
    var cont := ContinueLabel(s.id, body);
    AtSplit(p, c0.pc, cont, [Advance(s.id), Goto(LoopStart(s.id))]);
    assert [Advance(s.id), Goto(LoopStart(s.id))] == [Advance(s.id)] + [Goto(LoopStart(s.id))];
    AtFirst(p, c0.pc + |cont|, Advance(s.id), [Goto(LoopStart(s.id))]);
    AtOnly(p, c0.pc + |cont| + 1, Goto(LoopStart(s.id)));
    n, c1 := 0, c0;
    if cont != [] {
      AtOnly(p, c0.pc, Lab(LoopContinue(s.id)));
      DoLab(w, p, c0, LoopContinue(s.id));
      n, c1 := 1, c0.(pc := c0.pc + 1);
    }
    DoAdvance(w, p, c1, s.id);
    var d := c1.(pc := c1.pc + 1, counters := c0.counters[s.id := (c0.counters[s.id].0 + 1, c0.counters[s.id].1)]);
    Then(w, p, c0, n, c1, 1, d);
    DoGoto(w, p, d, LoopStart(s.id));
    c1 := d.(pc := base);
    Then(w, p, c0, n + 1, d, 1, c1);
    n := n + 2;
  }
}
