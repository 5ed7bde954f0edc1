/** Facts about structured runs that the emitter relies on. */
module SourceFacts {
  import opened Source
  import opened SourceSemantics

  /** A statement that `AllPathsExit` accepts never completes normally, on any run and with any fuel. */
  lemma {:induction false} ExitsNeverFallThrough(w: World, s: Stmt, t: Trace, fuel: nat)
    requires AllPathsExit(s)
    ensures !Exec(w, s, t, fuel).out.Normal?
    decreases s
  {
    match s
    case Block(b) => SomeExitNeverFallsThrough(w, b, [], [], t, fuel);
    case If(c, capture, thn, els) =>
      if w.test(c, t) {
        SomeExitNeverFallsThrough(w, thn, [], [], t + [Tested(c)] + Acts(capture), fuel);
      } else {
        ExitsNeverFallThrough(w, els.value, t + [Tested(c)], fuel);
      }
    case Switch(e, ps) =>
      ElseSelects(ps);
      var k := Pick(ps, w.value(e, t));
      ProngFacts(ps, k, {});
      SomeExitNeverFallsThrough(w, ps[k].body, [], [], t + [Read(e)] + Acts(ps[k].capture), fuel);
    case _ =>
  }

  /** Dropping the rest of a block after such a statement therefore drops only unreachable code. */
  lemma {:induction false} SomeExitNeverFallsThrough(
    w: World, rest: seq<Stmt>, ds: seq<Stmt>, es: seq<Stmt>, t: Trace, fuel: nat)
    requires SomeExits(rest)
    ensures !ExecSeq(w, rest, ds, es, t, fuel).out.Normal?
    decreases rest
  {
    if rest[0].Defer? {
      SomeExitNeverFallsThrough(w, rest[1..], ds + [rest[0].deferred], es, t, fuel);
    } else if rest[0].ErrDefer? {
      SomeExitNeverFallsThrough(w, rest[1..], ds, es + [rest[0].deferred], t, fuel);
    } else {
      var r := Exec(w, rest[0], t, fuel);
      if AllPathsExit(rest[0]) {
        ExitsNeverFallThrough(w, rest[0], t, fuel);
      } else if r.out.Normal? {
        SomeExitNeverFallsThrough(w, rest[1..], ds, es, r.t, fuel);
      }
    }
  }

  /** Bodies without loops or jumps complete or panic, and fuel is irrelevant to them. */
  lemma {:induction false} DeferrableCompletes(w: World, s: Stmt, t: Trace, fuel: nat)
    requires Deferrable(s)
    ensures Exec(w, s, t, fuel).out in {Normal, Panicked}
    decreases Size(s), 1
  {
    match s
    case Block(b) => DeferrableSeqCompletes(w, b, [], [], t, fuel);
    case If(c, capture, thn, els) =>
      if w.test(c, t) {
        DeferrableSeqCompletes(w, thn, [], [], t + [Tested(c)] + Acts(capture), fuel);
      } else if els.Some? {
        DeferrableCompletes(w, els.value, t + [Tested(c)], fuel);
      }
    case Switch(e, ps) =>
      var k := Pick(ps, w.value(e, t));
      if k < |ps| {
        ProngFacts(ps, k, {});
        SizeProngsMember(ps, k);
        DeferrableSeqCompletes(w, ps[k].body, [], [], t + [Read(e)] + Acts(ps[k].capture), fuel);
      }
    case _ =>
  }

  predicate AllDeferrable(ds: seq<Stmt>) {
    forall i :: 0 <= i < |ds| ==> Deferrable(ds[i])
  }

  lemma {:induction false} DeferrableSeqCompletes(
    w: World, rest: seq<Stmt>, ds: seq<Stmt>, es: seq<Stmt>, t: Trace, fuel: nat)
    requires DeferrableSeq(rest) && AllDeferrable(ds) && AllDeferrable(es)
    ensures ExecSeq(w, rest, ds, es, t, fuel).out in {Normal, Panicked}
    decreases SizeSeq(rest) + SizeSeq(ds) + SizeSeq(es), 3
  {
    if rest == [] {
      DeferredComplete(w, ds, t);
      assert LeaveScope(w, ds, es, false, t) == RunDeferred(w, ds, t);
    } else if rest[0].Defer? {
      SizeSeqAppend(ds, rest[0].deferred);
      assert Deferrable(rest[0]) && Size(rest[0]) == 1 + Size(rest[0].deferred);
      DeferrableSeqCompletes(w, rest[1..], ds + [rest[0].deferred], es, t, fuel);
    } else if rest[0].ErrDefer? {
      SizeSeqAppend(es, rest[0].deferred);
      assert Deferrable(rest[0]) && Size(rest[0]) == 1 + Size(rest[0].deferred);
      DeferrableSeqCompletes(w, rest[1..], ds, es + [rest[0].deferred], t, fuel);
    } else {
      DeferrableCompletes(w, rest[0], t, fuel);
      var r := Exec(w, rest[0], t, fuel);
      if r.out.Normal? {
        DeferrableSeqCompletes(w, rest[1..], ds, es, r.t, fuel);
      }
    }
  }

  lemma {:induction false} DeferredComplete(w: World, ds: seq<Stmt>, t: Trace)
    requires AllDeferrable(ds)
    ensures RunDeferred(w, ds, t).out in {Normal, Panicked}
    decreases SizeSeq(ds), 2
  {
    if ds != [] {
      SizeSeqInit(ds);
      DeferrableCompletes(w, ds[|ds| - 1], t, 0);
      var r := Exec(w, ds[|ds| - 1], t, 0);
      if r.out.Normal? {
        DeferredComplete(w, ds[..|ds| - 1], r.t);
      }
    }
  }

  /** Bodies without loops carry no loop ids. */
  lemma {:induction false} DeferrableHasNoIds(s: Stmt)
    requires Deferrable(s)
    ensures Ids(s) == {} && Distinct(s)
    decreases s
  {
    match s
    case Block(b) => DeferrableSeqHasNoIds(b);
    case If(_, _, thn, els) =>
      DeferrableSeqHasNoIds(thn);
      if els.Some? {
        DeferrableHasNoIds(els.value);
      }
    case Switch(_, ps) => DeferrableProngsHaveNoIds(ps);
    case _ =>
  }

  lemma {:induction false} DeferrableSeqHasNoIds(ss: seq<Stmt>)
    requires DeferrableSeq(ss)
    ensures IdsSeq(ss) == {} && DistinctSeq(ss)
    decreases ss
  {
    if ss != [] {
      DeferrableHasNoIds(ss[0]);
      DeferrableSeqHasNoIds(ss[1..]);
    }
  }

  lemma {:induction false} DeferrableProngsHaveNoIds(ps: seq<Prong>)
    requires DeferrableProngs(ps)
    ensures IdsProngs(ps) == {} && DistinctProngs(ps)
    decreases ps
  {
    if ps != [] {
      DeferrableSeqHasNoIds(ps[0].body);
      DeferrableProngsHaveNoIds(ps[1..]);
    }
  }

  /** A break or continue that leaves a statement targets a loop outside it. */
  lemma {:induction false} JumpsAreClosed(w: World, s: Stmt, outer: set<LoopId>, t: Trace, fuel: nat)
    requires Closed(s, outer) && Shaped(s)
    ensures var out := Exec(w, s, t, fuel).out;
      (out.Broke? ==> out.id in outer) && (out.Continued? ==> out.id in outer)
    decreases fuel, Size(s), 1
  {
    match s
    case Block(b) => SeqJumpsAreClosed(w, b, [], [], outer, t, fuel);
    case If(c, capture, thn, els) =>
      if w.test(c, t) {
        SeqJumpsAreClosed(w, thn, [], [], outer, t + [Tested(c)] + Acts(capture), fuel);
      } else if els.Some? {
        JumpsAreClosed(w, els.value, outer, t + [Tested(c)], fuel);
      }
    case Switch(e, ps) =>
      var k := Pick(ps, w.value(e, t));
      if k < |ps| {
        ProngFacts(ps, k, outer);
        SizeProngsMember(ps, k);
        SeqJumpsAreClosed(w, ps[k].body, [], [], outer, t + [Read(e)] + Acts(ps[k].capture), fuel);
      }
    case While(_, _, _, _, _, _) => WhileJumpsAreClosed(w, s, outer, t, fuel);
    case For(_, setup, lo, hi, _) =>
      var t1 := t + Acts(setup);
      var t2 := t1 + [Read(lo)];
      ForJumpsAreClosed(w, s, outer, w.value(lo, t1), w.value(hi, t2), t2 + [Read(hi)], fuel);
    case _ =>
  }

  lemma {:induction false} SeqJumpsAreClosed(
    w: World, rest: seq<Stmt>, ds: seq<Stmt>, es: seq<Stmt>, outer: set<LoopId>, t: Trace, fuel: nat)
    requires ClosedSeq(rest, outer) && ShapedSeq(rest) && AllDeferrable(ds) && AllDeferrable(es)
    ensures var out := ExecSeq(w, rest, ds, es, t, fuel).out;
      (out.Broke? ==> out.id in outer) && (out.Continued? ==> out.id in outer)
    decreases fuel, SizeSeq(rest), 2
  {
    if rest == [] {
      LeavingKeepsOutcome(w, Normal, ds, es, t);
    } else if rest[0].Defer? {
      assert Shaped(rest[0]);
      SeqJumpsAreClosed(w, rest[1..], ds + [rest[0].deferred], es, outer, t, fuel);
    } else if rest[0].ErrDefer? {
      assert Shaped(rest[0]);
      SeqJumpsAreClosed(w, rest[1..], ds, es + [rest[0].deferred], outer, t, fuel);
    } else {
      JumpsAreClosed(w, rest[0], outer, t, fuel);
      var r := Exec(w, rest[0], t, fuel);
      if r.out.Normal? {
        SeqJumpsAreClosed(w, rest[1..], ds, es, outer, r.t, fuel);
      } else {
        LeavingKeepsOutcome(w, r.out, ds, es, r.t);
      }
    }
  }

  lemma ScopeExitCompletes(w: World, ds: seq<Stmt>, es: seq<Stmt>, failing: bool, t: Trace)
    requires AllDeferrable(ds) && AllDeferrable(es)
    ensures LeaveScope(w, ds, es, failing, t).out in {Normal, Panicked}
  {
    DeferredComplete(w, ds, t);
    DeferredComplete(w, es, RunDeferred(w, ds, t).t);
  }

  /** Deferred code never turns one jump into another: it can only panic. */
  lemma LeavingKeepsOutcome(w: World, out: Outcome, ds: seq<Stmt>, es: seq<Stmt>, t: Trace)
    requires AllDeferrable(ds) && AllDeferrable(es)
    ensures Leave(w, out, ds, es, t).out in {out, Panicked}
  {
    ScopeExitCompletes(w, ds, es, out.Returned? && w.ErrorReturn(out.v), t);
  }

  lemma {:induction false} WhileJumpsAreClosed(w: World, s: Stmt, outer: set<LoopId>, t: Trace, fuel: nat)
    requires s.While? && ClosedSeq(s.body, outer + {s.id}) && ShapedSeq(s.body)
    ensures var out := ExecWhile(w, s, t, fuel).out;
      (out.Broke? ==> out.id in outer) && (out.Continued? ==> out.id in outer)
    decreases fuel, Size(s), 0
  {
    if fuel > 0 && w.test(s.test, t) {
      var t1 := t + [Tested(s.test)] + Acts(s.capture);
      SeqJumpsAreClosed(w, s.body, [], [], outer + {s.id}, t1, fuel - 1);
      var r := ExecSeq(w, s.body, [], [], t1, fuel - 1);
      WhileJumpsAreClosed(w, s, outer, r.t + Acts(s.step), fuel - 1);
    }
  }

  lemma {:induction false} ForJumpsAreClosed(w: World, s: Stmt, outer: set<LoopId>, i: int, n: int, t: Trace, fuel: nat)
    requires s.For? && ClosedSeq(s.body, outer + {s.id}) && ShapedSeq(s.body)
    ensures var out := ExecFor(w, s, i, n, t, fuel).out;
      (out.Broke? ==> out.id in outer) && (out.Continued? ==> out.id in outer)
    decreases fuel, Size(s), 0
  {
    if fuel > 0 && i < n {
      var t1 := t + [Bound(s.id, i)];
      SeqJumpsAreClosed(w, s.body, [], [], outer + {s.id}, t1, fuel - 1);
      var r := ExecSeq(w, s.body, [], [], t1, fuel - 1);
      ForJumpsAreClosed(w, s, outer, i + 1, n, r.t, fuel - 1);
    }
  }
}
