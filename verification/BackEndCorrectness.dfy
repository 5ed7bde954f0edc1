/** The main result about the back end: an emitted function behaves as its structured source. */
module BackEndCorrectness {
  import opened Source
  import opened SourceSemantics
  import opened SourceFacts
  import opened Target
  import opened Emission
  import opened Simulation
  import opened Labels
  import opened Completion

  const START := Run(0, [], false, 0, map[])

  function RunSource(w: World, fn: Function, fuel: nat): Res {
    ExecSeq(w, fn.body, [], [], [], fuel)
  }

  /** How a C function ends whose body completes: by its closing return if it must have one. */
  function Completed(fn: Function): Finish {
    if fn.closingReturn then ReturnedDefault else FellThrough
  }

  /** The final machine configuration a finished structured run stands for. */
  function Final(fn: Function, r: Res): Config
    requires r.out.Normal? || r.out.Returned? || r.out.Panicked?
  {
    match r.out
    case Normal => Halted(Completed(fn), r.t)
    case Returned(v) => Halted(ReturnedValue(v), r.t)
    case Panicked => Trapped(r.t)
  }

  /** The function's own jumps never escape it. */
  lemma RunSourceOutcome(w: World, fn: Function, fuel: nat)
    requires fn.WellFormed()
    ensures var out := RunSource(w, fn, fuel).out;
      out.Normal? || out.Returned? || out.Panicked? || out.Timeout?
  {
    SeqJumpsAreClosed(w, fn.body, [], [], {}, [], fuel);
  }

  /**
   With any fuel, the emitted program reaches the structured run's final configuration, or, if the
   structured run is still going, has taken at least as many steps and produced the same trace.
   */
  lemma EmittedFollowsSource(w: World, fn: Function, fuel: nat) returns (n: nat)
    requires fn.WellFormed() && w.errorUnion == fn.errorUnion
    ensures var r := RunSource(w, fn, fuel);
      var c := Steps(w, EmitFunction(fn), START, n);
      if r.out.Timeout? then n >= fuel && c.Run? && c.t == r.t
      else (r.out.Normal? || r.out.Returned? || r.out.Panicked?) && c == Final(fn, r)
  {
    hide EmitSeq, ExecSeq, Step, Steps, At, UniqueLabels, Arrives, EmitFunction, ShapedSeq, DistinctSeq,
         HasErrDeferSeq;
    var p := EmitFunction(fn);
    var flag, sc := fn.UsesFlag(), Scope(NO_LABEL, [], []);
    var body := EmitSeq(flag, fn.body, [], sc);
    FunctionIsLinked(fn);
    FunctionStartsWithBody(fn);
    RunSourceOutcome(w, fn, fuel);
    var m, c := SimSeq(w, p, flag, fn.body, [], sc, START, fuel);
    n := m;
    var r := RunSource(w, fn, fuel);
    if r.out.Normal? {
      ArrivesNormally(w, p, [], NO_LABEL, r, |body|, IdsSeq(fn.body), START, c);
      FallOffEnd(w, fn, c, fuel);
      Then(w, p, START, m, c, 1, Halted(Completed(fn), c.t));
      n := m + 1;
    } else {
      OutermostArrival(w, p, fn, r, |body|, IdsSeq(fn.body), START, c);
    }
  }

  lemma FunctionStartsWithBody(fn: Function)
    requires fn.WellFormed()
    ensures At(EmitFunction(fn), 0, EmitSeq(fn.UsesFlag(), fn.body, [], Scope(NO_LABEL, [], [])))
  {
    hide EmitSeq;
  }

  lemma FallOffEnd(w: World, fn: Function, c: Config, fuel: nat)
    requires fn.WellFormed() && c.Run? && RunSource(w, fn, fuel).out.Normal?
    requires c.pc == |EmitSeq(fn.UsesFlag(), fn.body, [], Scope(NO_LABEL, [], []))|
    ensures Steps(w, EmitFunction(fn), c, 1) == Halted(Completed(fn), c.t)
  {
    hide EmitSeq, ExecSeq;
    if SomeExits(fn.body) {
      SomeExitNeverFallsThrough(w, fn.body, [], [], [], fuel);
    }
    OneStep(w, EmitFunction(fn), c);
  }

  lemma OutermostArrival(
    w: World, p: Program, fn: Function, r: Res, end: int, ids: set<LoopId>, c0: Config, c1: Config)
    requires c0.Run? && Arrives(w, p, [], NO_LABEL, r, end, ids, c0, c1)
    requires r.out.Returned? || r.out.Panicked? || r.out.Timeout?
    ensures if r.out.Timeout? then c1.Run? && c1.t == r.t else c1 == Final(fn, r)
  {
  }

  /**
   The program halts or traps in a configuration exactly when the source finishes in the corresponding way; so one that
   must close with a return never runs off its end, and no other one executes such a return.
   */
  lemma FinishesIff(w: World, fn: Function, c: Config)
    requires fn.WellFormed() && w.errorUnion == fn.errorUnion && !c.Run?
    ensures (exists n: nat :: Steps(w, EmitFunction(fn), START, n) == c) <==>
            (exists fuel: nat :: !RunSource(w, fn, fuel).out.Timeout? && RunSource(w, fn, fuel).out in Outcomes(fn, c)
                              && RunSource(w, fn, fuel).t == c.t)
  {
    hide EmitFunction, RunSource, Steps, Function.WellFormed;
    var p := EmitFunction(fn);
    if fuel: nat :| !RunSource(w, fn, fuel).out.Timeout? && RunSource(w, fn, fuel).out in Outcomes(fn, c)
                    && RunSource(w, fn, fuel).t == c.t {
      var n := EmittedFollowsSource(w, fn, fuel);
    }
    if n: nat :| Steps(w, p, START, n) == c {
      var m := EmittedFollowsSource(w, fn, n + 1);
      Settled(w, p, START, n, m);
      assert RunSource(w, fn, n + 1).out in Outcomes(fn, c);
    }
  }

  /**
   A closing return is written exactly if some run gets to it: the emitter's test for unreachable ends is exact unless
   a prong is never selected or a deferred body is sure to panic.
   */
  lemma ClosingReturnIff(fn: Function)
    requires fn.WellFormed() && RegularSeq(fn.body)
    ensures var body := EmitSeq(fn.UsesFlag(), fn.body, [], Scope(NO_LABEL, [], []));
      EmitFunction(fn) == body + (if fn.closingReturn && SomeRunCompletes(fn) then [ReturnImplicit] else [])
  {
    hide EmitSeq, ExecSeq, RegularSeq, CompletesSeq;
    SomeExitsIff(fn.body);
    CompletesIff(fn.body, fn.errorUnion);
    if CompletesSeq(fn.body) {
      var w: World, fuel: nat :| w.errorUnion == fn.errorUnion && ExecSeq(w, fn.body, [], [], [], fuel).out.Normal?;
      assert RunSource(w, fn, fuel).out.Normal?;
      assert SomeRunCompletes(fn) && !SomeExits(fn.body);
    } else if SomeRunCompletes(fn) {
      var w: World, fuel: nat :| w.errorUnion == fn.errorUnion && RunSource(w, fn, fuel).out.Normal?;
      NormalCompletesSeq(w, fn.body, [], [], [], fuel);
    }
  }

  ghost predicate SomeRunCompletes(fn: Function) {
    exists w: World, fuel: nat :: w.errorUnion == fn.errorUnion && RunSource(w, fn, fuel).out.Normal?
  }

  /** Likewise the rest of a block is emitted exactly if some run passes the statement in front of it. */
  lemma RestEmittedIff(flag: bool, s: Stmt, rest: seq<Stmt>, stack: Stack, sc: Scope)
    requires Shaped(s) && Regular(s) && !s.Defer? && !s.ErrDefer? && ShapedSeq(rest)
    requires GoodStack(stack) && GoodScope(sc)
    ensures ShapedSeq([s] + rest)
    ensures EmitSeq(flag, [s] + rest, stack, sc) ==
      EmitStmt(flag, s, stack + [sc]) +
      (if exists w: World, fuel: nat :: w.errorUnion == flag && Exec(w, s, [], fuel).out.Normal?
       then EmitSeq(flag, rest, stack, sc) else [])
  {
    hide Exec, EmitStmt, Regular, Completes, AllPathsExit, GoodBodies, Shaped;
    assert ([s] + rest)[1..] == rest;
    ExitsIff(s);
    StmtCompletesIff(s, flag);
  }

  /** The outcomes of a finished structured run that a final configuration stands for. */
  function Outcomes(fn: Function, c: Config): set<Outcome> {
    match c
    case Halted(ReturnedValue(v), _) => {Returned(v)}
    case Halted(how, _) => if how == Completed(fn) then {Normal} else {}
    case Trapped(_) => {Panicked}
    case _ => {}
  }

  lemma Settled(w: World, p: Program, c: Config, n: nat, m: nat)
    requires !Steps(w, p, c, n).Run?
    ensures m >= n ==> Steps(w, p, c, m) == Steps(w, p, c, n)
    ensures m < n && !Steps(w, p, c, m).Run? ==> Steps(w, p, c, m) == Steps(w, p, c, n)
  {
    if m >= n {
      StepsAdd(w, p, c, n, m - n);
      StepsStay(w, p, Steps(w, p, c, n), m - n);
    } else if !Steps(w, p, c, m).Run? {
      StepsAdd(w, p, c, m, n - m);
      StepsStay(w, p, Steps(w, p, c, m), n - m);
    }
  }

  ghost predicate SourceDiverges(w: World, fn: Function) {
    forall fuel: nat :: RunSource(w, fn, fuel).out.Timeout?
  }

  ghost predicate ProgramDiverges(w: World, p: Program) {
    forall n: nat :: Steps(w, p, START, n).Run?
  }

  /** Divergence is preserved and reflected: the program runs forever exactly when the source does. */
  lemma DivergesIff(w: World, fn: Function)
    requires fn.WellFormed() && w.errorUnion == fn.errorUnion
    ensures ProgramDiverges(w, EmitFunction(fn)) <==> SourceDiverges(w, fn)
  {
    hide EmitFunction, RunSource, Steps, Function.WellFormed;
    var p := EmitFunction(fn);
    if SourceDiverges(w, fn) {
      forall n: nat ensures Steps(w, p, START, n).Run? {
        var m := EmittedFollowsSource(w, fn, n);
        if !Steps(w, p, START, n).Run? {
          Settled(w, p, START, n, m);
        }
      }
    }
    if ProgramDiverges(w, p) {
      forall fuel: nat ensures RunSource(w, fn, fuel).out.Timeout? {
        var m := EmittedFollowsSource(w, fn, fuel);
        assert Steps(w, p, START, m).Run?;
      }
    }
  }
}
