/**
 When a statement can complete normally, and so when the emitter's test for "control never falls out of this
 statement" says no although control never does.
 */
module Completion {
  import opened Source
  import opened SourceSemantics

  /** Some value makes the switch take this prong or, for `k == |ps|`, none. */
  ghost predicate Selected(ps: seq<Prong>, k: nat) {
    exists v: int :: Pick(ps, v) == k
  }

  /** The text of the statement leaves a way through it, panics in deferred bodies included. */
  ghost predicate Completes(s: Stmt)
    decreases s
  {
    match s
    case Do(_) => true
    case Block(b) => CompletesSeq(b)
    case If(_, _, thn, els) => els.None? || CompletesSeq(thn) || Completes(els.value)
    case Switch(_, ps) => Selected(ps, |ps|) || exists k: nat :: k < |ps| && Selected(ps, k) && CompletesSeq(ps[k].body)
    case While(_, _, _, _, _, _) => true
    case For(_, _, _, _, _) => true
    case Defer(_) => true
    case ErrDefer(_) => true
    case _ => false
  }

  ghost predicate CompletesSeq(ss: seq<Stmt>)
    decreases ss
  {
    ss == [] || (Completes(ss[0]) && (ss[0].Defer? ==> Completes(ss[0].deferred)) && CompletesSeq(ss[1..]))
  }

  ghost predicate AllComplete(ds: seq<Stmt>) {
    forall i :: 0 <= i < |ds| ==> Completes(ds[i])
  }

  // ----- A run that completes took a way the text leaves -----

  lemma {:induction false} NormalCompletes(w: World, s: Stmt, t: Trace, fuel: nat)
    requires Exec(w, s, t, fuel).out.Normal?
    ensures Completes(s)
    decreases Size(s), 1
  {
    match s
    case Block(b) => NormalCompletesSeq(w, b, [], [], t, fuel);
    case If(c, capture, thn, els) =>
      if w.test(c, t) {
        NormalCompletesSeq(w, thn, [], [], t + [Tested(c)] + Acts(capture), fuel);
      } else if els.Some? {
        NormalCompletes(w, els.value, t + [Tested(c)], fuel);
      }
    case Switch(e, ps) =>
      var k := Pick(ps, w.value(e, t));
      assert Selected(ps, k);
      if k < |ps| {
        SizeProngsMember(ps, k);
        NormalCompletesSeq(w, ps[k].body, [], [], t + [Read(e)] + Acts(ps[k].capture), fuel);
      }
    case _ =>
  }

  lemma {:induction false} NormalCompletesSeq(
    w: World, rest: seq<Stmt>, ds: seq<Stmt>, es: seq<Stmt>, t: Trace, fuel: nat)
    requires ExecSeq(w, rest, ds, es, t, fuel).out.Normal?
    ensures CompletesSeq(rest) && AllComplete(ds)
    decreases SizeSeq(rest) + SizeSeq(ds), 3
  {
    if rest == [] {
      assert LeaveScope(w, ds, es, false, t) == RunDeferred(w, ds, t);
      NormalCompletesBodies(w, ds, t);
    } else if rest[0].Defer? {
      var d := rest[0].deferred;
      SizeSeqAppend(ds, d);
      assert Size(rest[0]) == 1 + Size(d);
      NormalCompletesSeq(w, rest[1..], ds + [d], es, t, fuel);
      assert (ds + [d])[|ds|] == d;
      assert forall i :: 0 <= i < |ds| ==> (ds + [d])[i] == ds[i];
    } else if rest[0].ErrDefer? {
      NormalCompletesSeq(w, rest[1..], ds, es + [rest[0].deferred], t, fuel);
    } else {
      NormalCompletes(w, rest[0], t, fuel);
      NormalCompletesSeq(w, rest[1..], ds, es, Exec(w, rest[0], t, fuel).t, fuel);
    }
  }

  lemma {:induction false} NormalCompletesBodies(w: World, ds: seq<Stmt>, t: Trace)
    requires RunDeferred(w, ds, t).out.Normal?
    ensures AllComplete(ds)
    decreases SizeSeq(ds), 2
  {
    if ds != [] {
      var n := |ds| - 1;
      SizeSeqInit(ds);
      NormalCompletes(w, ds[n], t, 0);
      NormalCompletesBodies(w, ds[..n], Exec(w, ds[n], t, 0).t);
      assert forall i :: 0 <= i < n ==> ds[..n][i] == ds[i];
    }
  }

  // ----- Every way the text leaves is taken by some run -----

  /** The world gives these answers, to tests and operands alike, from the given trace length on. */
  ghost predicate Answers(w: World, n: nat, a: seq<int>) {
    forall e: nat, t: Trace {:trigger w.value(e, t)} {:trigger w.test(e, t)} :: n <= |t| < n + |a| ==>
      w.value(e, t) == a[|t| - n] && (w.test(e, t) <==> a[|t| - n] != 0)
  }

  /** Whatever the world, these answers take a run through the statement, one event for each. */
  ghost predicate Leads(a: seq<int>, s: Stmt) {
    forall w: World, t: Trace, fuel: nat :: Answers(w, |t|, a) && (fuel > 0 || Deferrable(s)) ==>
      var r := Exec(w, s, t, fuel); r.out.Normal? && |r.t| == |t| + |a|
  }

  ghost predicate LeadsSeq(a: seq<int>, rest: seq<Stmt>, ds: seq<Stmt>) {
    forall w: World, es: seq<Stmt>, t: Trace, fuel: nat ::
      Answers(w, |t|, a) && (fuel > 0 || DeferrableSeq(rest)) ==>
      var r := ExecSeq(w, rest, ds, es, t, fuel); r.out.Normal? && |r.t| == |t| + |a|
  }

  ghost predicate LeadsBodies(a: seq<int>, ds: seq<Stmt>) {
    forall w: World, t: Trace :: Answers(w, |t|, a) ==>
      var r := RunDeferred(w, ds, t); r.out.Normal? && |r.t| == |t| + |a|
  }

  lemma AnswersSplit(w: World, n: nat, a: seq<int>, b: seq<int>)
    requires Answers(w, n, a + b)
    ensures Answers(w, n, a) && Answers(w, n + |a|, b)
  {
    forall e: nat, t: Trace | n <= |t| < n + |a|
      ensures w.value(e, t) == a[|t| - n] && (w.test(e, t) <==> a[|t| - n] != 0) {
      assert (a + b)[|t| - n] == a[|t| - n];
    }
    forall e: nat, t: Trace | n + |a| <= |t| < n + |a| + |b|
      ensures w.value(e, t) == b[|t| - n - |a|] && (w.test(e, t) <==> b[|t| - n - |a|] != 0) {
      assert (a + b)[|t| - n] == b[|t| - n - |a|];
    }
  }

  function Zeros(n: nat): (a: seq<int>)
    ensures |a| == n
  {
    seq(n, _ => 0)
  }

  lemma {:induction false} WayThrough(s: Stmt) returns (a: seq<int>)
    requires Completes(s) && Shaped(s)
    ensures Leads(a, s)
    decreases Size(s), 1
  {
    hide Answers, ExecSeq, RunDeferred, CompletesSeq;
    match s
    case Block(b) =>
      a := WayThroughSeq(b, []);
      BlockLeads(a, s);
    case If(_, capture, thn, els) =>
      if els.None? {
        a := [0];
        NotTaken(s);
      } else if CompletesSeq(thn) {
        var b := WayThroughSeq(thn, []);
        a := [1] + Zeros(|capture|) + b;
        ThenLeads(b, s);
      } else {
        var b := WayThrough(els.value);
        a := [0] + b;
        ElseLeads(b, s);
      }
    case Switch(_, ps) =>
      if Selected(ps, |ps|) {
        var v: int :| Pick(ps, v) == |ps|;
        a := [v];
        NoProngLeads(v, s);
      } else {
        var k: nat :| k < |ps| && Selected(ps, k) && CompletesSeq(ps[k].body);
        var v: int :| Pick(ps, v) == k;
        SizeProngsMember(ps, k);
        ProngFacts(ps, k, {});
        var b := WayThroughSeq(ps[k].body, []);
        a := [v] + Zeros(|ps[k].capture|) + b;
        ProngLeads(v, b, s, k);
      }
    case While(_, _, _, _, _, _) =>
      a := [0];
      NotEntered(s);
    case For(_, setup, _, _, _) =>
      a := Zeros(|setup|) + [0, 0];
      NoIndex(s);
    case Do(_) => a := [0];
    case _ => a := [];
  }

  lemma BlockLeads(a: seq<int>, s: Stmt)
    requires s.Block? && LeadsSeq(a, s.body, [])
    ensures Leads(a, s)
  {
    hide Answers, ExecSeq;
    forall w: World, t: Trace, fuel: nat | Answers(w, |t|, a) && (fuel > 0 || Deferrable(s))
      ensures var r := Exec(w, s, t, fuel); r.out.Normal? && |r.t| == |t| + |a| {
      assert Exec(w, s, t, fuel) == ExecSeq(w, s.body, [], [], t, fuel);
    }
  }

  lemma FirstAnswer(w: World, t: Trace, v: int, b: seq<int>)
    requires Answers(w, |t|, [v] + b)
    ensures forall e: nat :: w.value(e, t) == v && (w.test(e, t) <==> v != 0)
    ensures Answers(w, |t| + 1, b)
  {
    AnswersSplit(w, |t|, [v], b);
  }

  lemma NotTaken(s: Stmt)
    requires s.If? && s.els.None?
    ensures Leads([0], s)
  {
    hide Answers, ExecSeq;
    forall w: World, t: Trace, fuel: nat | Answers(w, |t|, [0])
      ensures var r := Exec(w, s, t, fuel); r.out.Normal? && |r.t| == |t| + 1 {
      assert [0] + [] == [0];
      FirstAnswer(w, t, 0, []);
    }
  }

  lemma ThenLeads(b: seq<int>, s: Stmt)
    requires s.If? && LeadsSeq(b, s.thn, [])
    ensures Leads([1] + Zeros(|s.capture|) + b, s)
  {
    hide Answers, ExecSeq, Zeros;
    var a := [1] + Zeros(|s.capture|) + b;
    forall w: World, t: Trace, fuel: nat | Answers(w, |t|, a) && (fuel > 0 || Deferrable(s))
      ensures var r := Exec(w, s, t, fuel); r.out.Normal? && |r.t| == |t| + |a| {
      AnswersSplit(w, |t|, [1] + Zeros(|s.capture|), b);
      FirstAnswer(w, t, 1, Zeros(|s.capture|));
      var t1 := t + [Tested(s.test)] + Acts(s.capture);
      assert Exec(w, s, t, fuel) == ExecSeq(w, s.thn, [], [], t1, fuel);
    }
  }

  lemma ElseLeads(b: seq<int>, s: Stmt)
    requires s.If? && s.els.Some? && Leads(b, s.els.value)
    ensures Leads([0] + b, s)
  {
    hide Answers, ExecSeq;
    var a := [0] + b;
    forall w: World, t: Trace, fuel: nat | Answers(w, |t|, a) && (fuel > 0 || Deferrable(s))
      ensures var r := Exec(w, s, t, fuel); r.out.Normal? && |r.t| == |t| + |a| {
      FirstAnswer(w, t, 0, b);
      assert Exec(w, s, t, fuel) == Exec(w, s.els.value, t + [Tested(s.test)], fuel);
    }
  }

  lemma NoProngLeads(v: int, s: Stmt)
    requires s.Switch? && Pick(s.prongs, v) == |s.prongs|
    ensures Leads([v], s)
  {
    hide Answers, ExecSeq, Pick;
    forall w: World, t: Trace, fuel: nat | Answers(w, |t|, [v])
      ensures var r := Exec(w, s, t, fuel); r.out.Normal? && |r.t| == |t| + 1 {
      assert [v] + [] == [v];
      FirstAnswer(w, t, v, []);
    }
  }

  lemma ProngLeads(v: int, b: seq<int>, s: Stmt, k: nat)
    requires s.Switch? && k < |s.prongs| && Pick(s.prongs, v) == k && LeadsSeq(b, s.prongs[k].body, [])
    ensures Leads([v] + Zeros(|s.prongs[k].capture|) + b, s)
  {
    hide Answers, ExecSeq, Zeros, Pick;
    var pr := s.prongs[k];
    var a := [v] + Zeros(|pr.capture|) + b;
    forall w: World, t: Trace, fuel: nat | Answers(w, |t|, a) && (fuel > 0 || Deferrable(s))
      ensures var r := Exec(w, s, t, fuel); r.out.Normal? && |r.t| == |t| + |a| {
      AnswersSplit(w, |t|, [v] + Zeros(|pr.capture|), b);
      FirstAnswer(w, t, v, Zeros(|pr.capture|));
      ProngFacts(s.prongs, k, {});
      var t1 := t + [Read(s.operand)] + Acts(pr.capture);
      assert Exec(w, s, t, fuel) == ExecSeq(w, pr.body, [], [], t1, fuel);
    }
  }

  lemma NotEntered(s: Stmt)
    requires s.While?
    ensures Leads([0], s)
  {
    hide Answers, ExecSeq;
    forall w: World, t: Trace, fuel: nat | Answers(w, |t|, [0]) && fuel > 0
      ensures var r := Exec(w, s, t, fuel); r.out.Normal? && |r.t| == |t| + 1 {
      assert [0] + [] == [0];
      FirstAnswer(w, t, 0, []);
    }
  }

  lemma NoIndex(s: Stmt)
    requires s.For?
    ensures Leads(Zeros(|s.setup|) + [0, 0], s)
  {
    hide Answers, ExecSeq, Zeros;
    var a := Zeros(|s.setup|) + [0, 0];
    forall w: World, t: Trace, fuel: nat | Answers(w, |t|, a) && fuel > 0
      ensures var r := Exec(w, s, t, fuel); r.out.Normal? && |r.t| == |t| + |a| {
      var t1 := t + Acts(s.setup);
      var t2 := t1 + [Read(s.lo)];
      AnswersSplit(w, |t|, Zeros(|s.setup|), [0, 0]);
      assert [0] + [0] == [0, 0] && [0] + [] == [0];
      FirstAnswer(w, t1, 0, [0]);
      FirstAnswer(w, t2, 0, []);
      assert ExecFor(w, s, 0, 0, t2 + [Read(s.hi)], fuel) == Res(Normal, t2 + [Read(s.hi)]);
    }
  }

  lemma {:induction false} WayThroughSeq(rest: seq<Stmt>, ds: seq<Stmt>) returns (a: seq<int>)
    requires CompletesSeq(rest) && ShapedSeq(rest)
    requires AllComplete(ds) && forall i :: 0 <= i < |ds| ==> Deferrable(ds[i]) && Shaped(ds[i])
    ensures LeadsSeq(a, rest, ds)
    decreases SizeSeq(rest) + SizeSeq(ds), 3
  {
    hide Answers, Exec, ExecSeq, RunDeferred, Completes, Shaped, Deferrable;
    if rest == [] {
      a := WayThroughBodies(ds);
      EndLeads(a, ds);
    } else if rest[0].Defer? {
      var d := rest[0].deferred;
      SizeSeqAppend(ds, d);
      DeferParts(rest[0]);
      a := WayThroughSeq(rest[1..], ds + [d]);
      DeferLeads(a, rest, ds);
    } else if rest[0].ErrDefer? {
      a := WayThroughSeq(rest[1..], ds);
      ErrDeferLeads(a, rest, ds);
    } else {
      var b := WayThrough(rest[0]);
      var c := WayThroughSeq(rest[1..], ds);
      a := b + c;
      NextLeads(b, c, rest, ds);
    }
  }

  lemma EndLeads(a: seq<int>, ds: seq<Stmt>)
    requires LeadsBodies(a, ds)
    ensures LeadsSeq(a, [], ds)
  {
    hide Answers, RunDeferred;
    forall w: World, es: seq<Stmt>, t: Trace, fuel: nat | Answers(w, |t|, a)
      ensures var r := ExecSeq(w, [], ds, es, t, fuel); r.out.Normal? && |r.t| == |t| + |a| {
      assert ExecSeq(w, [], ds, es, t, fuel) == Leave(w, Normal, ds, es, t);
      assert LeaveScope(w, ds, es, false, t) == RunDeferred(w, ds, t);
    }
  }

  lemma DeferLeads(a: seq<int>, rest: seq<Stmt>, ds: seq<Stmt>)
    requires rest != [] && rest[0].Defer? && LeadsSeq(a, rest[1..], ds + [rest[0].deferred])
    ensures LeadsSeq(a, rest, ds)
  {
    hide Answers, Leave, Exec, Deferrable;
    forall w: World, es: seq<Stmt>, t: Trace, fuel: nat | Answers(w, |t|, a) && (fuel > 0 || DeferrableSeq(rest))
      ensures var r := ExecSeq(w, rest, ds, es, t, fuel); r.out.Normal? && |r.t| == |t| + |a| {
      assert ExecSeq(w, rest, ds, es, t, fuel) == ExecSeq(w, rest[1..], ds + [rest[0].deferred], es, t, fuel);
    }
  }

  lemma ErrDeferLeads(a: seq<int>, rest: seq<Stmt>, ds: seq<Stmt>)
    requires rest != [] && rest[0].ErrDefer? && LeadsSeq(a, rest[1..], ds)
    ensures LeadsSeq(a, rest, ds)
  {
    hide Answers, Leave, Exec, Deferrable;
    forall w: World, es: seq<Stmt>, t: Trace, fuel: nat | Answers(w, |t|, a) && (fuel > 0 || DeferrableSeq(rest))
      ensures var r := ExecSeq(w, rest, ds, es, t, fuel); r.out.Normal? && |r.t| == |t| + |a| {
      assert ExecSeq(w, rest, ds, es, t, fuel) == ExecSeq(w, rest[1..], ds, es + [rest[0].deferred], t, fuel);
    }
  }

  lemma NextLeads(b: seq<int>, c: seq<int>, rest: seq<Stmt>, ds: seq<Stmt>)
    requires rest != [] && !rest[0].Defer? && !rest[0].ErrDefer? && Leads(b, rest[0]) && LeadsSeq(c, rest[1..], ds)
    ensures LeadsSeq(b + c, rest, ds)
  {
    hide Answers, Leave, Exec, Deferrable;
    forall w: World, es: seq<Stmt>, t: Trace, fuel: nat | Answers(w, |t|, b + c) && (fuel > 0 || DeferrableSeq(rest))
      ensures var r := ExecSeq(w, rest, ds, es, t, fuel); r.out.Normal? && |r.t| == |t| + |b + c| {
      AnswersSplit(w, |t|, b, c);
      var r := Exec(w, rest[0], t, fuel);
      assert r.out.Normal? && |r.t| == |t| + |b|;
      assert ExecSeq(w, rest, ds, es, t, fuel) == ExecSeq(w, rest[1..], ds, es, r.t, fuel);
    }
  }

  lemma {:induction false} WayThroughBodies(ds: seq<Stmt>) returns (a: seq<int>)
    requires AllComplete(ds) && forall i :: 0 <= i < |ds| ==> Deferrable(ds[i]) && Shaped(ds[i])
    ensures LeadsBodies(a, ds)
    decreases SizeSeq(ds), 2
  {
    hide Answers, Exec, RunDeferred, Completes, Shaped, Deferrable;
    if ds == [] {
      a := [];
      NothingLeads();
    } else {
      var n := |ds| - 1;
      SizeSeqInit(ds);
      var b := WayThrough(ds[n]);
      var c := WayThroughBodies(ds[..n]);
      a := b + c;
      BodyLeads(b, c, ds);
    }
  }

  lemma NothingLeads()
    ensures LeadsBodies([], [])
  {
  }

  lemma BodyLeads(b: seq<int>, c: seq<int>, ds: seq<Stmt>)
    requires ds != [] && Leads(b, ds[|ds| - 1]) && Deferrable(ds[|ds| - 1]) && LeadsBodies(c, ds[..|ds| - 1])
    ensures LeadsBodies(b + c, ds)
  {
    hide Answers, Exec, Deferrable;
    var n := |ds| - 1;
    forall w: World, t: Trace | Answers(w, |t|, b + c)
      ensures var r := RunDeferred(w, ds, t); r.out.Normal? && |r.t| == |t| + |b + c| {
      AnswersSplit(w, |t|, b, c);
      var r := Exec(w, ds[n], t, 0);
      assert r.out.Normal? && |r.t| == |t| + |b|;
      assert RunDeferred(w, ds, t) == RunDeferred(w, ds[..n], r.t);
    }
  }

  // ----- The test of the emitter -----

  /** A world that gives these answers and whose function does, or does not, return error unions. */
  function Scripted(a: seq<int>, errorUnion: bool): World {
    World((e: nat, t: Trace) => |t| < |a| && a[|t|] != 0, (e: nat, t: Trace) => if |t| < |a| then a[|t|] else 0,
          v => false, v => v, errorUnion)
  }

  /** A body can complete, whether or not it is that of an error-union function, exactly if its text leaves a way. */
  lemma CompletesIff(body: seq<Stmt>, errorUnion: bool)
    requires ShapedSeq(body)
    ensures CompletesSeq(body) <==>
      exists w: World, fuel: nat :: w.errorUnion == errorUnion && ExecSeq(w, body, [], [], [], fuel).out.Normal?
  {
    hide ExecSeq, CompletesSeq;
    if CompletesSeq(body) {
      var a := WayThroughSeq(body, []);
      var w := Scripted(a, errorUnion);
      assert Answers(w, 0, a);
      assert ExecSeq(w, body, [], [], [], 1).out.Normal?;
    }
    if w: World, fuel: nat :| w.errorUnion == errorUnion && ExecSeq(w, body, [], [], [], fuel).out.Normal? {
      NormalCompletesSeq(w, body, [], [], [], fuel);
    }
  }

  lemma StmtCompletesIff(s: Stmt, errorUnion: bool)
    requires Shaped(s)
    ensures Completes(s) <==>
      exists w: World, fuel: nat :: w.errorUnion == errorUnion && Exec(w, s, [], fuel).out.Normal?
  {
    hide Exec, Completes;
    if Completes(s) {
      var a := WayThrough(s);
      var w := Scripted(a, errorUnion);
      assert Answers(w, 0, a);
      assert Exec(w, s, [], 1).out.Normal?;
    }
    if w: World, fuel: nat :| w.errorUnion == errorUnion && Exec(w, s, [], fuel).out.Normal? {
      NormalCompletes(w, s, [], fuel);
    }
  }

  /** No prong is hidden behind others or empty, and no deferred body is sure to panic. */
  ghost predicate Regular(s: Stmt)
    decreases s
  {
    match s
    case Block(b) => RegularSeq(b)
    case If(_, _, thn, els) => RegularSeq(thn) && (els.Some? ==> Regular(els.value))
    case Switch(_, ps) => (forall k: nat :: k < |ps| ==> Selected(ps, k)) && RegularProngs(ps)
    case Defer(d) => Completes(d)
    case _ => true
  }

  ghost predicate RegularSeq(ss: seq<Stmt>)
    decreases ss
  {
    ss == [] || (Regular(ss[0]) && RegularSeq(ss[1..]))
  }

  ghost predicate RegularProngs(ps: seq<Prong>)
    decreases ps
  {
    ps == [] || (RegularSeq(ps[0].body) && RegularProngs(ps[1..]))
  }

  /** There, the test says yes exactly if no run completes; elsewhere it may say no although none does. */
  lemma {:induction false} ExitsIff(s: Stmt)
    requires Regular(s)
    ensures AllPathsExit(s) <==> !Completes(s)
    decreases s
  {
    match s
    case Block(b) => SomeExitsIff(b);
    case If(_, _, thn, els) =>
      SomeExitsIff(thn);
      if els.Some? {
        ExitsIff(els.value);
      }
    case Switch(_, ps) =>
      NoProngIff(ps);
      AllProngsExitIff(ps);
    case _ =>
  }

  lemma {:induction false} SomeExitsIff(ss: seq<Stmt>)
    requires RegularSeq(ss)
    ensures SomeExits(ss) <==> !CompletesSeq(ss)
    decreases ss
  {
    if ss != [] {
      ExitsIff(ss[0]);
      SomeExitsIff(ss[1..]);
    }
  }

  lemma {:induction false} AllProngsExitIff(ps: seq<Prong>)
    requires RegularProngs(ps)
    ensures AllProngsExit(ps) <==> forall k: nat :: k < |ps| ==> !CompletesSeq(ps[k].body)
    decreases ps
  {
    if ps != [] {
      SomeExitsIff(ps[0].body);
      AllProngsExitIff(ps[1..]);
      assert forall k: nat :: k < |ps| && k > 0 ==> ps[k] == ps[1..][k - 1];
      assert forall k: nat :: k < |ps[1..]| ==> ps[1..][k] == ps[k + 1];
    }
  }

  /** A value no prong lists exists always, so a switch is passed by exactly if it has no else prong. */
  lemma NoProngIff(ps: seq<Prong>)
    ensures Selected(ps, |ps|) <==> !HasElse(ps)
  {
    if HasElse(ps) {
      ElseSelects(ps);
    } else {
      var top := Top(ps);
      UnlistedAbove(ps, top);
      NoElse(ps);
      assert Pick(ps, top) == |ps|;
    }
  }

  function TopOfItems(items: seq<Item>): int {
    if items == [] then 0
    else
      var m, rest := (match items[0] case One(v) => v + 1 case Span(_, hi, _) => hi + 1), TopOfItems(items[1..]);
      if m > rest then m else rest
  }

  /** Greater than every value listed. */
  function Top(ps: seq<Prong>): int {
    if ps == [] then 0
    else
      var m, rest := TopOfItems(ps[0].items), Top(ps[1..]);
      if m > rest then m else rest
  }

  lemma {:induction false} UnlistedItems(items: seq<Item>, v: int)
    requires v >= TopOfItems(items)
    ensures !Covers(items, v)
    decreases items
  {
    if items != [] {
      UnlistedItems(items[1..], v);
      forall i | 0 <= i < |items| ensures !CoversItem(items[i], v) {
        if i > 0 {
          assert items[i] == items[1..][i - 1];
        }
      }
    }
  }

  lemma {:induction false} UnlistedAbove(ps: seq<Prong>, v: int)
    requires v >= Top(ps)
    ensures FirstListed(ps, v) == |ps|
    decreases ps
  {
    if ps != [] {
      UnlistedItems(ps[0].items, v);
      UnlistedAbove(ps[1..], v);
    }
  }

  lemma {:induction false} NoElse(ps: seq<Prong>)
    requires !HasElse(ps)
    ensures FirstElse(ps) == |ps|
    decreases ps
  {
    if ps != [] {
      NoElse(ps[1..]);
    }
  }

  /** The test is conservative: it does not see that an empty prong is never taken. */
  lemma EmptyProngOverlooked()
    ensures var s := Switch(0, [Prong([], false, [], []), Prong([], true, [], [Unreachable])]);
      !AllPathsExit(s) && !Completes(s)
  {
    var dead, last := Prong([], false, [], []), Prong([], true, [], [Unreachable]);
    var ps := [dead, last];
    assert ps[1..] == [last] && [last][1..] == [];
    assert !SomeExits(dead.body);
    forall v: int ensures Pick(ps, v) == 1 {
      assert FirstListed([last], v) == 1;
      assert FirstElse([last]) == 0;
    }
    assert ps[1].body == [Unreachable];
  }
}
