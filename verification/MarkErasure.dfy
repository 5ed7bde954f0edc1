/**
 Marking changes nothing but the markers: in a world that does not see them, a marked function runs as the function
 does, and its trace without the markers is the function's trace.
 */
module MarkErasure {
  import opened Options
  import opened Source
  import opened SourceSemantics
  import opened Target
  import opened Emission
  import opened BackEndCorrectness
  import opened DeferDiscipline

  // ----- Forgetting the markers -----

  /** The events of a trace without the markers, ordinary actions as they were before marking. */
  function Erase(t: Trace): Trace
    decreases |t|
  {
    if t == [] then [] else Erase(t[..|t| - 1]) + EraseEvent(t[|t| - 1])
  }

  function EraseEvent(e: Event): Trace {
    if !e.Did? then [e] else if e.action % 7 == 0 then [Did(e.action / 7)] else []
  }

  /** The world that answers as `w` would if there were no markers. */
  function Unaware(w: World): World {
    w.(test := (c: nat, t: Trace) => w.test(c, Erase(t)), value := (e: nat, t: Trace) => w.value(e, Erase(t)))
  }

  /** The same outcome, and the same trace up to markers. */
  predicate Agrees(marked: Res, plain: Res) {
    marked.out == plain.out && Erase(marked.t) == plain.t
  }

  lemma EraseSnoc(t: Trace, e: Event)
    ensures Erase(t + [e]) == Erase(t) + EraseEvent(e)
  {
    assert (t + [e])[..|t|] == t;
  }

  lemma MarkerErased(t: Trace, a: nat)
    requires a % 7 != 0
    ensures Erase(t + [Did(a)]) == Erase(t)
  {
    hide Erase;
    EraseSnoc(t, Did(a));
  }

  lemma ActionErased(t: Trace, a: nat)
    ensures Erase(t + [Did(7 * a)]) == Erase(t) + [Did(a)]
  {
    hide Erase;
    EraseSnoc(t, Did(7 * a));
  }

  lemma OtherErased(t: Trace, e: Event)
    requires !e.Did?
    ensures Erase(t + [e]) == Erase(t) + [e]
  {
    hide Erase;
    EraseSnoc(t, e);
  }

  lemma {:induction false} ActsErased(t: Trace, actions: seq<nat>)
    ensures Erase(t + Acts(Scale(actions))) == Erase(t) + Acts(actions)
    decreases |actions|
  {
    hide Erase, Acts, Scale;
    ActsSnoc(actions);
    PlainActsSnoc(actions);
    if actions == [] {
      assert t + [] == t;
    } else {
      var n := |actions| - 1;
      var marked, plain := Acts(Scale(actions[..n])), Acts(actions[..n]);
      ActsErased(t, actions[..n]);
      ActionErased(t + marked, actions[n]);
      assert t + (marked + [Did(7 * actions[n])]) == (t + marked) + [Did(7 * actions[n])];
      assert Erase(t) + (plain + [Did(actions[n])]) == (Erase(t) + plain) + [Did(actions[n])];
    }
  }

  lemma PlainActsSnoc(actions: seq<nat>)
    ensures actions == [] ==> Acts(actions) == []
    ensures actions != [] ==> Acts(actions) == Acts(actions[..|actions| - 1]) + [Did(actions[|actions| - 1])]
  {
  }

  // ----- What is registered -----

  /** The plain defers among the registrations of a scope, and its errdefers. */
  function Bare(items: seq<Registration>, plain: bool): seq<Stmt> {
    if items == [] then []
    else
      var last := items[|items| - 1];
      Bare(items[..|items| - 1], plain) + if last.plain == plain then [last.d] else []
  }

  lemma BareSnoc(items: seq<Registration>, it: Registration, plain: bool)
    ensures Bare(items + [it], plain) == Bare(items, plain) + if it.plain == plain then [it.d] else []
  {
    assert (items + [it])[..|items|] == items;
  }

  lemma BareInit(items: seq<Registration>, plain: bool)
    requires items != []
    ensures var init, it := items[..|items| - 1], items[|items| - 1];
      Bare(items, plain) == Bare(init, plain) + if it.plain == plain then [it.d] else []
  {
  }

  // ----- Statements -----

  lemma {:induction false} ErasedStmt(w: World, name: Naming, s: Stmt, t: Trace, fuel: nat)
    ensures Agrees(Exec(Unaware(w), Mark(name, s), t, fuel), Exec(w, s, Erase(t), fuel))
    decreases fuel, Size(s), 20
  {
    hide Erase, ExecSeq, MarkSeq, MarkBody, MarkErrBody, MarkProngs, Scale, Acts, Pick;
    match s
    case Do(a) => ActionErased(t, a);
    case Block(b) => ErasedBlock(w, name, b, t, fuel);
    case If(_, _, _, _) => ErasedIf(w, name, s, t, fuel);
    case Switch(_, _) => ErasedSwitch(w, name, s, t, fuel);
    case While(_, _, _, _, _, _) => ErasedWhile(w, name, s, t, fuel);
    case For(_, setup, lo, hi, _) =>
      var t1 := t + Acts(Scale(setup));
      var t2 := t1 + [Read(lo)];
      ActsErased(t, setup);
      OtherErased(t1, Read(lo));
      OtherErased(t2, Read(hi));
      ErasedFor(w, name, s, Unaware(w).value(lo, t1), Unaware(w).value(hi, t2), t2 + [Read(hi)], fuel);
    case Return(e, _) => OtherErased(t, Read(e));
    case _ =>
  }

  lemma {:induction false} ErasedIf(w: World, name: Naming, s: Stmt, t: Trace, fuel: nat)
    requires s.If?
    ensures Agrees(Exec(Unaware(w), Mark(name, s), t, fuel), Exec(w, s, Erase(t), fuel))
    decreases fuel, Size(s), 19
  {
    hide Erase, ExecSeq, MarkSeq, MarkBody, MarkErrBody, MarkProngs, Scale, Acts;
    var t1 := t + [Tested(s.test)];
    OtherErased(t, Tested(s.test));
    if w.test(s.test, Erase(t)) {
      ActsErased(t1, s.capture);
      ErasedBlock(w, name, s.thn, t1 + Acts(Scale(s.capture)), fuel);
    } else if s.els.Some? {
      ErasedStmt(w, name, s.els.value, t1, fuel);
    }
  }

  lemma {:induction false} ErasedSwitch(w: World, name: Naming, s: Stmt, t: Trace, fuel: nat)
    requires s.Switch?
    ensures Agrees(Exec(Unaware(w), Mark(name, s), t, fuel), Exec(w, s, Erase(t), fuel))
    decreases fuel, Size(s), 19
  {
    hide Erase, ExecSeq, MarkSeq, MarkBody, MarkErrBody, MarkProngs, Scale, Acts, FirstListed, FirstElse;
    var ps, v := s.prongs, w.value(s.operand, Erase(t));
    PickMarked(name, ps, v);
    var t1 := t + [Read(s.operand)];
    OtherErased(t, Read(s.operand));
    var k := Pick(ps, v);
    if k < |ps| {
      SizeProngsMember(ps, k);
      ActsErased(t1, ps[k].capture);
      ErasedBlock(w, name, ps[k].body, t1 + Acts(Scale(ps[k].capture)), fuel);
    }
  }

  lemma {:induction false} ErasedBlock(w: World, name: Naming, body: seq<Stmt>, t: Trace, fuel: nat)
    ensures Agrees(ExecSeq(Unaware(w), MarkSeq(name, body), [], [], t, fuel), ExecSeq(w, body, [], [], Erase(t), fuel))
    decreases fuel, SizeSeq(body), 11 + |body|
  {
    hide Erase, ExecSeq, MarkSeq, MarkBody, MarkErrBody, SizeSeq;
    NoItems(name);
    ErasedSeq(w, name, body, [], t, fuel);
  }

  lemma {:induction false} ErasedSeq(
    w: World, name: Naming, rest: seq<Stmt>, items: seq<Registration>, t: Trace, fuel: nat)
    ensures Agrees(ExecSeq(Unaware(w), MarkSeq(name, rest), Bodies(name, items), ErrBodies(name, items), t, fuel),
                   ExecSeq(w, rest, Bare(items, true), Bare(items, false), Erase(t), fuel))
    decreases fuel, SizeSeq(rest) + Weight(items), 10 + |rest|
  {
    hide Erase, Exec, ExecSeq, Mark, MarkSeq, MarkBody, MarkErrBody, Companion, Size, SizeSeq, Leave, Bodies,
         ErrBodies, Weight, Bare, Unaware, Entries;
    var w', bs, es, ds, fs := Unaware(w), Bodies(name, items), ErrBodies(name, items), Bare(items, true),
      Bare(items, false);
    MarkSeqStep(name, rest);
    SeqStep(w, rest, ds, fs, Erase(t), fuel);
    if rest == [] {
      SeqStep(w', [], bs, es, t, fuel);
      ErasedLeave(w, name, Res(Normal, t), items);
      return;
    }
    SeqParts(rest, {});
    var s, tail := rest[0], MarkSeq(name, rest[1..]);
    if s.Defer? || s.ErrDefer? {
      DeferParts(s);
      var it := Registration(s.Defer?, s.deferred);
      var m := 7 * name(s.deferred) + if s.Defer? then 1 else 3;
      RegisterSteps(w', name, s, tail, items, t, fuel);
      MarkerErased(t, m);
      ItemsSnoc(name, items, it);
      BareSnoc(items, it, true);
      BareSnoc(items, it, false);
      assert ds + [] == ds && fs + [] == fs;
      ErasedSeq(w, name, rest[1..], items + [it], t + [Did(m)], fuel);
    } else if s.Return? {
      ErasedReturn(w, name, s, tail, items, t, fuel);
      ReturnLeaves(w, s, Erase(t), fuel);
    } else {
      var r := Exec(w', Mark(name, s), t, fuel);
      assert ([Mark(name, s)] + tail)[1..] == tail;
      SeqStep(w', [Mark(name, s)] + tail, bs, es, t, fuel);
      ErasedStmt(w, name, s, t, fuel);
      if r.out.Normal? {
        ErasedSeq(w, name, rest[1..], items, r.t, fuel);
      } else {
        ErasedLeave(w, name, r, items);
      }
    }
  }

  lemma ReturnLeaves(w: World, s: Stmt, t: Trace, fuel: nat)
    requires s.Return?
    ensures Exec(w, s, t, fuel).out.Returned?
  {
  }

  lemma {:induction false} ErasedReturn(
    w: World, name: Naming, s: Stmt, tail: seq<Stmt>, items: seq<Registration>, t: Trace, fuel: nat)
    requires s.Return?
    ensures var r := Exec(w, s, Erase(t), fuel);
      Agrees(ExecSeq(Unaware(w), [Do(RETURNING), s] + tail, Bodies(name, items), ErrBodies(name, items), t, fuel),
             Leave(w, r.out, Bare(items, true), Bare(items, false), r.t))
    decreases fuel, Weight(items), 9
  {
    hide Erase, ExecSeq, Leave, Bodies, ErrBodies, Weight, Bare, MarkBody, MarkErrBody;
    var w', bs, es := Unaware(w), Bodies(name, items), ErrBodies(name, items);
    var t1 := t + [Did(RETURNING)];
    assert [Do(RETURNING), s] + tail == [Do(RETURNING)] + ([s] + tail);
    ActStep(w', RETURNING, [s] + tail, bs, es, t, fuel);
    SeqStep(w', [s] + tail, bs, es, t1, fuel);
    MarkerErased(t, RETURNING);
    OtherErased(t1, Read(s.operand));
    ErasedLeave(w, name, Exec(w', s, t1, fuel), items);
  }

  // ----- Leaving a scope -----

  lemma {:induction false} ErasedLeave(w: World, name: Naming, r: Res, items: seq<Registration>)
    ensures Agrees(Leave(Unaware(w), r.out, Bodies(name, items), ErrBodies(name, items), r.t),
                   Leave(w, r.out, Bare(items, true), Bare(items, false), Erase(r.t)))
    decreases 0, Weight(items), 4
  {
    hide Erase, RunDeferred, MarkBody, MarkErrBody, Companion, Bodies, ErrBodies, Bare, Weight;
    if !r.out.Panicked? && !r.out.Timeout? {
      ErasedBodies(w, name, items, r.t);
      var u := RunDeferred(Unaware(w), Bodies(name, items), r.t);
      if u.out.Normal? {
        ErasedErrBodies(w, name, items, u.t);
      }
    }
  }

  lemma {:induction false} ErasedBodies(w: World, name: Naming, items: seq<Registration>, t: Trace)
    ensures Agrees(RunDeferred(Unaware(w), Bodies(name, items), t), RunDeferred(w, Bare(items, true), Erase(t)))
    decreases 0, Weight(items), 2
  {
    hide Erase, Exec, RunDeferred, MarkBody, MarkErrBody, Companion, Bodies, ErrBodies, Bare, Weight, Size, Unaware,
         Entries;
    var bs, ds := Bodies(name, items), Bare(items, true);
    RunStep(Unaware(w), bs, t);
    RunStep(w, ds, Erase(t));
    if items == [] {
      NoItems(name);
      NothingBare();
    } else {
      var n := |items| - 1;
      var init, it := items[..n], items[n];
      ItemsInit(name, items);
      BareInit(items, true);
      var body := if it.plain then MarkBody(name, it.d) else Companion(name, it.d);
      assert bs[|bs| - 1] == body && bs[..|bs| - 1] == Bodies(name, init);
      var r := Exec(Unaware(w), body, t, 0);
      if it.plain {
        assert ds[|ds| - 1] == it.d && ds[..|ds| - 1] == Bare(init, true);
        ErasedBody(w, name, it.d, true, t);
      } else {
        assert ds == Bare(init, true);
        ErasedCompanion(w, name, it.d, t);
      }
      if r.out.Normal? {
        ErasedBodies(w, name, init, r.t);
      }
    }
  }

  lemma NothingBare()
    ensures Bare([], true) == [] && Bare([], false) == []
  {
  }

  lemma {:induction false} ErasedErrBodies(w: World, name: Naming, items: seq<Registration>, t: Trace)
    ensures Agrees(RunDeferred(Unaware(w), ErrBodies(name, items), t), RunDeferred(w, Bare(items, false), Erase(t)))
    decreases 0, Weight(items), 2
  {
    hide Erase, Exec, RunDeferred, MarkBody, MarkErrBody, Companion, Bodies, ErrBodies, Bare, Weight, Size, Unaware,
         Entries;
    var bs, ds := ErrBodies(name, items), Bare(items, false);
    RunStep(Unaware(w), bs, t);
    RunStep(w, ds, Erase(t));
    if items == [] {
      NoItems(name);
      NothingBare();
    } else {
      var n := |items| - 1;
      var init, it := items[..n], items[n];
      ItemsInit(name, items);
      BareInit(items, false);
      if it.plain {
        assert bs == ErrBodies(name, init) && ds == Bare(init, false);
        ErasedErrBodies(w, name, init, t);
      } else {
        assert bs[|bs| - 1] == MarkErrBody(name, it.d) && bs[..|bs| - 1] == ErrBodies(name, init);
        assert ds[|ds| - 1] == it.d && ds[..|ds| - 1] == Bare(init, false);
        ErasedBody(w, name, it.d, false, t);
        var r := Exec(Unaware(w), bs[|bs| - 1], t, 0);
        if r.out.Normal? {
          ErasedErrBodies(w, name, init, r.t);
        }
      }
    }
  }

  /** A marked deferred body: the start marker, then the body as a block of its own. */
  lemma {:induction false} ErasedBody(w: World, name: Naming, d: Stmt, plain: bool, t: Trace)
    ensures var b := if plain then MarkBody(name, d) else MarkErrBody(name, d);
      Agrees(Exec(Unaware(w), b, t, 0), Exec(w, d, Erase(t), 0))
    decreases 0, Size(d) + 1, 30
  {
    hide Erase, Exec, ExecSeq, MarkOne, MarkSeq, MarkBody, MarkErrBody, Size, SizeSeq, Leave, Unaware;
    var b := if plain then MarkBody(name, d) else MarkErrBody(name, d);
    var m := if plain then 7 * name(d) + 2 else 7 * name(d) + 4;
    BodyOpens(Unaware(w), name, d, b, t, m);
    MarkerErased(t, m);
    InsideShaped(d);
    ErasedBlock(w, name, Inside(d), t + [Did(m)], 0);
    InsideRuns(w, d, Erase(t));
  }

  /** A block of what a deferred body runs does what the body does. */
  lemma InsideRuns(w: World, d: Stmt, t: Trace)
    ensures ExecSeq(w, Inside(d), [], [], t, 0) == Exec(w, d, t, 0)
  {
    hide Exec, ExecSeq, RunDeferred;
    SeqStep(w, Inside(d), [], [], t, 0);
    if Inside(d) == [] {
      RegistrationRuns(w, d, t);
      RunStep(w, [], t);
    } else {
      assert [d][1..] == [];
      var r := Exec(w, d, t, 0);
      SeqStep(w, [], [], [], r.t, 0);
      RunStep(w, [], r.t);
    }
  }

  lemma RegistrationRuns(w: World, d: Stmt, t: Trace)
    requires d.Defer? || d.ErrDefer?
    ensures Exec(w, d, t, 0) == Res(Normal, t)
  {
  }

  lemma ErasedCompanion(w: World, name: Naming, d: Stmt, t: Trace)
    ensures var r := Exec(Unaware(w), Companion(name, d), t, 0); r.out.Normal? && Erase(r.t) == Erase(t)
  {
    hide Erase, ExecSeq, Unaware;
    var a := 7 * name(d) + 5;
    assert [Do(a)] == [Do(a)] + [];
    ActStep(Unaware(w), a, [], [], [], t, 0);
    SeqStep(Unaware(w), [], [], [], t + [Did(a)], 0);
    assert RunDeferred(Unaware(w), [], t + [Did(a)]) == Res(Normal, t + [Did(a)]);
    MarkerErased(t, a);
  }

  // ----- Loops -----

  lemma {:induction false} ErasedWhile(w: World, name: Naming, s: Stmt, t: Trace, fuel: nat)
    requires s.While?
    ensures Agrees(ExecWhile(Unaware(w), Mark(name, s), t, fuel), ExecWhile(w, s, Erase(t), fuel))
    decreases fuel, Size(s), 1
  {
    hide Erase, Exec, ExecSeq, MarkSeq, Size, SizeSeq, Scale, Acts;
    var t1 := t + [Tested(s.test)];
    OtherErased(t, Tested(s.test));
    if fuel > 0 && w.test(s.test, Erase(t)) {
      var t2 := t1 + Acts(Scale(s.capture));
      ActsErased(t1, s.capture);
      ErasedBlock(w, name, s.body, t2, fuel - 1);
      var r := ExecSeq(Unaware(w), MarkSeq(name, s.body), [], [], t2, fuel - 1);
      if r.out.Normal? || r.out == Continued(s.id) {
        ActsErased(r.t, s.step);
        ErasedWhile(w, name, s, r.t + Acts(Scale(s.step)), fuel - 1);
      }
    }
  }

  lemma {:induction false} ErasedFor(w: World, name: Naming, s: Stmt, i: int, n: int, t: Trace, fuel: nat)
    requires s.For?
    ensures Agrees(ExecFor(Unaware(w), Mark(name, s), i, n, t, fuel), ExecFor(w, s, i, n, Erase(t), fuel))
    decreases fuel, Size(s), 1
  {
    hide Erase, Exec, ExecSeq, MarkSeq, Size, SizeSeq, Scale;
    if fuel > 0 && i < n {
      var t1 := t + [Bound(s.id, i)];
      OtherErased(t, Bound(s.id, i));
      ErasedBlock(w, name, s.body, t1, fuel - 1);
      var r := ExecSeq(Unaware(w), MarkSeq(name, s.body), [], [], t1, fuel - 1);
      if r.out.Normal? || r.out == Continued(s.id) {
        ErasedFor(w, name, s, i + 1, n, r.t, fuel - 1);
      }
    }
  }

  // ----- Whole functions -----

  /** With any fuel the marked function has the function's outcome and, markers apart, its trace. */
  lemma MarkedRunsAlike(w: World, name: Naming, fn: Function, fuel: nat)
    ensures Agrees(RunSource(Unaware(w), MarkFunction(name, fn), fuel), RunSource(w, fn, fuel))
  {
    hide ExecSeq, MarkSeq, Erase;
    assert Erase([]) == [] by { NothingErased(); }
    ErasedBlock(w, name, fn.body, [], fuel);
  }

  lemma NothingErased()
    ensures Erase([]) == []
  {
  }

  /** The final configuration without markers. */
  function EraseConfig(c: Config): Config {
    if c.Halted? then Halted(c.how, Erase(c.t)) else if c.Trapped? then Trapped(Erase(c.t)) else c
  }

  /**
   The same for emitted code: the program emitted for a function ends in a configuration exactly if the program
   emitted for the marked function ends in one that differs by markers only.
   */
  lemma MarkedProgramsAgree(w: World, name: Naming, fn: Function, c: Config)
    requires fn.WellFormed() && w.errorUnion == fn.errorUnion && !c.Run?
    ensures MarkFunction(name, fn).WellFormed()
    ensures (exists n: nat :: Steps(w, EmitFunction(fn), START, n) == c) <==>
            (exists n: nat :: var d := Steps(Unaware(w), EmitFunction(MarkFunction(name, fn)), START, n);
                              !d.Run? && EraseConfig(d) == c)
  {
    hide EmitFunction, Steps, Function.WellFormed, RunSource, MarkFunction, Erase, Unaware;
    MarkKeepsShape(name, fn);
    UnawareKeeps(w);
    var p, q, w' := EmitFunction(fn), EmitFunction(MarkFunction(name, fn)), Unaware(w);
    if n: nat :| Steps(w, p, START, n) == c {
      var m := EmittedFollowsSource(w, fn, n + 1);
      Settled(w, p, START, n, m);
      MarkedRunsAlike(w, name, fn, n + 1);
      var k := EmittedFollowsSource(w', MarkFunction(name, fn), n + 1);
      var d := Steps(w', q, START, k);
      assert !d.Run? && EraseConfig(d) == c;
    }
    if n: nat :| !Steps(w', q, START, n).Run? && EraseConfig(Steps(w', q, START, n)) == c {
      var m := EmittedFollowsSource(w', MarkFunction(name, fn), n + 1);
      Settled(w', q, START, n, m);
      MarkedRunsAlike(w, name, fn, n + 1);
      var k := EmittedFollowsSource(w, fn, n + 1);
      assert Steps(w, p, START, k) == c;
    }
  }

  lemma UnawareKeeps(w: World)
    ensures Unaware(w).errorUnion == w.errorUnion && Unaware(w).isError == w.isError
  {
  }

  lemma MarkKeepsShape(name: Naming, fn: Function)
    requires fn.WellFormed()
    ensures MarkFunction(name, fn).WellFormed() && MarkFunction(name, fn).errorUnion == fn.errorUnion
    ensures MarkFunction(name, fn).closingReturn == fn.closingReturn
  {
    hide Function.WellFormed, MarkSeq;
    MarkedWellFormed(name, fn);
  }

  /**
   So the function's own emitted code runs its deferred bodies as its marked twin shows: however it halts there is a
   run of the twin that differs by markers only, and in it every registered defer ran once in last-in first-out
   order and the errdefers due at an error return, and no others, started once, last registered first.
   */
  lemma OwnDefersRunOnce(w: World, name: Naming, fn: Function, n: nat) returns (m: nat)
    requires fn.WellFormed() && w.errorUnion == fn.errorUnion && Steps(w, EmitFunction(fn), START, n).Halted?
    ensures MarkFunction(name, fn).WellFormed()
    ensures var c := Steps(w, EmitFunction(fn), START, n);
      var d := Steps(Unaware(w), EmitFunction(MarkFunction(name, fn)), START, m);
      && d.Halted? && d.how == c.how && Erase(d.t) == c.t
      && Pending(d.t) == Some([])
      && (if c.how.ReturnedValue? && w.ErrorReturn(c.how.v)
          then AtReturn(d.t).Some? && ErrRuns(d.t) == Reversed(AtReturn(d.t).value)
          else ErrRuns(d.t) == [])
  {
    hide EmitFunction, Steps, Function.WellFormed, MarkFunction, Erase, Unaware, Pending, AtReturn, ErrRuns, Reversed;
    MarkKeepsShape(name, fn);
    UnawareKeeps(w);
    var c := Steps(w, EmitFunction(fn), START, n);
    MarkedProgramsAgree(w, name, fn, c);
    var k: nat :| var d := Steps(Unaware(w), EmitFunction(MarkFunction(name, fn)), START, k);
                  !d.Run? && EraseConfig(d) == c;
    m := k;
    DefersRunOnceInOrder(Unaware(w), name, fn, m);
  }
}
