/**
 Every registered `defer` runs exactly once, last registered first, on every path out of its scope, and
 on an error return every `errdefer` still registered starts exactly once, last registered first.
 Programs are instrumented with marker actions at each registration, at the start of each deferred body
 and before each return; what a trace says about the deferred bodies is read off its markers.
 */
module DeferDiscipline {
  import opened Options
  import opened Source
  import opened SourceSemantics
  import opened SourceFacts
  import opened Target
  import opened Emission
  import opened BackEndCorrectness

  /** Names deferred bodies, so that markers can be matched up. */
  type Naming = Stmt -> nat

  function Scale(actions: seq<nat>): seq<nat> {
    seq(|actions|, i requires 0 <= i < |actions| => 7 * actions[i])
  }

  const RETURNING: nat := 6

  /** Ordinary actions become multiples of seven; the other residues are the kinds of marker. */
  function Mark(name: Naming, s: Stmt): Stmt
    decreases Size(s), 1
  {
    match s
    case Do(a) => Do(7 * a)
    case Block(b) => Block(MarkSeq(name, b))
    case If(c, capture, thn, els) =>
      If(c, Scale(capture), MarkSeq(name, thn), if els.Some? then Some(Mark(name, els.value)) else None)
    case Switch(e, ps) => Switch(e, MarkProngs(name, ps))
    case While(id, c, captured, capture, step, b) =>
      While(id, c, captured, Scale(capture), Scale(step), MarkSeq(name, b))
    case For(id, setup, lo, hi, b) => For(id, Scale(setup), lo, hi, MarkSeq(name, b))
    case Defer(d) => Defer(MarkBody(name, d))
    case ErrDefer(d) => ErrDefer(MarkErrBody(name, d))
    case _ => s
  }

  function MarkBody(name: Naming, d: Stmt): Stmt
    decreases Size(d), 4
  {
    Block([Do(7 * name(d) + 2)] + MarkInside(name, d))
  }

  function MarkErrBody(name: Naming, d: Stmt): Stmt
    decreases Size(d), 4
  {
    Block([Do(7 * name(d) + 4)] + MarkInside(name, d))
  }

  /** What a deferred body runs: a bare registration registers nothing, because no block is entered. */
  function Inside(d: Stmt): seq<Stmt> {
    if d.Defer? || d.ErrDefer? then [] else [d]
  }

  function MarkInside(name: Naming, d: Stmt): seq<Stmt>
    decreases Size(d), 3
  {
    if Inside(d) == [] then [] else MarkOne(name, d)
  }

  /** A plain defer next to each errdefer: it says when the errdefer's scope is left, in whatever way. */
  function Companion(name: Naming, d: Stmt): Stmt {
    Block([Do(7 * name(d) + 5)])
  }

  /** A statement of a block: a registration, and a return, is announced just before it happens. */
  function MarkOne(name: Naming, s: Stmt): seq<Stmt>
    decreases Size(s), 2
  {
    match s
    case Defer(d) => [Do(7 * name(d) + 1), Mark(name, s)]
    case ErrDefer(d) => [Do(7 * name(d) + 3), Defer(Companion(name, d)), Mark(name, s)]
    case Return(_, _) => [Do(RETURNING), s]
    case _ => [Mark(name, s)]
  }

  function MarkSeq(name: Naming, ss: seq<Stmt>): seq<Stmt>
    decreases SizeSeq(ss), 2
  {
    if ss == [] then [] else MarkOne(name, ss[0]) + MarkSeq(name, ss[1..])
  }

  function MarkProngs(name: Naming, ps: seq<Prong>): seq<Prong>
    decreases SizeProngs(ps), 2
  {
    if ps == [] then []
    else
      [Prong(ps[0].items, ps[0].isElse, Scale(ps[0].capture), MarkSeq(name, ps[0].body))] + MarkProngs(name, ps[1..])
  }

  // ----- Reading the markers of a trace -----

  /** A registered body: a defer, or an errdefer whose scope is still open. */
  datatype Entry = Plain(n: nat) | Err(n: nat)

  /** The bodies registered and neither run nor dropped, innermost last, or None if one ran out of turn. */
  function Pending(t: Trace): Option<seq<Entry>>
    decreases |t|
  {
    if t == [] then Some([]) else React(Pending(t[..|t| - 1]), t[|t| - 1])
  }

  function React(before: Option<seq<Entry>>, e: Event): Option<seq<Entry>> {
    if before.None? || !e.Did? then before
    else
      var (st, n) := (before.value, e.action / 7);
      match e.action % 7
      case 1 => Some(st + [Plain(n)])
      case 3 => Some(st + [Err(n)])
      case 2 => Dropped(st, Plain(n))
      case 5 => Dropped(st, Err(n))
      case _ => before
  }

  function Dropped(st: seq<Entry>, e: Entry): Option<seq<Entry>> {
    if st != [] && st[|st| - 1] == e then Some(st[..|st| - 1]) else None
  }

  /** The errdefer bodies that have started, in order. */
  function ErrRuns(t: Trace): seq<nat>
    decreases |t|
  {
    if t == [] then [] else ErrRuns(t[..|t| - 1]) + ErrStart(t[|t| - 1])
  }

  function ErrStart(e: Event): seq<nat> {
    if e.Did? && e.action % 7 == 4 then [e.action / 7] else []
  }

  /** The errdefers among the pending bodies, in the order of registration. */
  function ErrNames(st: seq<Entry>): seq<nat> {
    if st == [] then [] else ErrNames(st[..|st| - 1]) + (if st[|st| - 1].Err? then [st[|st| - 1].n] else [])
  }

  /** The errdefers registered in the scopes still open when the function last began to return. */
  function AtReturn(t: Trace): Option<seq<nat>>
    decreases |t|
  {
    if t == [] then None
    else
      var e := t[|t| - 1];
      if !(e.Did? && e.action % 7 == RETURNING) then AtReturn(t[..|t| - 1])
      else if Pending(t[..|t| - 1]).Some? then Some(ErrNames(Pending(t[..|t| - 1]).value))
      else None
  }

  function Reversed(s: seq<nat>): (r: seq<nat>)
    ensures |r| == |s| && forall i :: 0 <= i < |s| ==> r[i] == s[|s| - 1 - i]
  {
    if s == [] then [] else [s[|s| - 1]] + Reversed(s[..|s| - 1])
  }

  lemma Snoc(t: Trace, e: Event)
    ensures Pending(t + [e]) == React(Pending(t), e) && ErrRuns(t + [e]) == ErrRuns(t) + ErrStart(e)
    ensures AtReturn(t + [e]) ==
      if !(e.Did? && e.action % 7 == RETURNING) then AtReturn(t)
      else if Pending(t).Some? then Some(ErrNames(Pending(t).value)) else None
  {
    assert (t + [e])[..|t|] == t;
  }

  lemma ErrNamesSnoc(st: seq<Entry>, e: Entry)
    ensures ErrNames(st + [e]) == ErrNames(st) + if e.Err? then [e.n] else []
  {
    assert (st + [e])[..|st|] == st;
  }

  lemma {:induction false} ErrNamesConcat(a: seq<Entry>, b: seq<Entry>)
    ensures ErrNames(a + b) == ErrNames(a) + ErrNames(b)
    decreases |b|
  {
    if b == [] {
      assert a + b == a;
    } else {
      var n := |b| - 1;
      ErrNamesConcat(a, b[..n]);
      assert a + b == (a + b[..n]) + [b[n]];
      ErrNamesSnoc(a + b[..n], b[n]);
    }
  }

  /** No marker among the events between two traces. */
  ghost predicate Unmarked(t0: Trace, t1: Trace) {
    Pending(t1) == Pending(t0) && ErrRuns(t1) == ErrRuns(t0) && AtReturn(t1) == AtReturn(t0)
  }

  lemma {:induction false} ActsUnmarked(t: Trace, actions: seq<nat>)
    ensures Unmarked(t, t + Acts(Scale(actions)))
    decreases |actions|
  {
    hide Pending, ErrRuns, AtReturn, Acts, Scale;
    ActsSnoc(actions);
    if actions == [] {
      assert t + [] == t;
    } else {
      var n := |actions| - 1;
      ActsUnmarked(t, actions[..n]);
      var init := Acts(Scale(actions[..n]));
      OrdinaryAction(t + init, actions[n]);
      assert t + (init + [Did(7 * actions[n])]) == (t + init) + [Did(7 * actions[n])];
    }
  }

  lemma OrdinaryAction(t: Trace, a: nat)
    ensures Unmarked(t, t + [Did(7 * a)])
  {
    hide Pending, ErrRuns, AtReturn;
    Snoc(t, Did(7 * a));
  }

  lemma OtherEvent(t: Trace, e: Event)
    requires !e.Did?
    ensures Unmarked(t, t + [e])
  {
    hide Pending, ErrRuns, AtReturn;
    Snoc(t, e);
  }

  lemma ActsSnoc(actions: seq<nat>)
    ensures actions == [] ==> Acts(Scale(actions)) == []
    ensures actions != [] ==>
      var n := |actions| - 1;
      Acts(Scale(actions)) == Acts(Scale(actions[..n])) + [Did(7 * actions[n])]
  {
  }

  // ----- Registered bodies -----

  /** A registration of the source: a defer, or an errdefer with its companion. */
  datatype Registration = Registration(plain: bool, d: Stmt)

  function EntryOf(name: Naming, it: Registration): Entry {
    if it.plain then Plain(name(it.d)) else Err(name(it.d))
  }

  function Entries(name: Naming, items: seq<Registration>): seq<Entry> {
    seq(|items|, i requires 0 <= i < |items| => EntryOf(name, items[i]))
  }

  /** The plain defers of a marked scope. */
  function Bodies(name: Naming, items: seq<Registration>): seq<Stmt> {
    seq(|items|, i requires 0 <= i < |items| =>
      if items[i].plain then MarkBody(name, items[i].d) else Companion(name, items[i].d))
  }

  /** The errdefers of a marked scope. */
  function ErrBodies(name: Naming, items: seq<Registration>): seq<Stmt> {
    if items == [] then []
    else
      var last := items[|items| - 1];
      ErrBodies(name, items[..|items| - 1]) + (if last.plain then [] else [MarkErrBody(name, last.d)])
  }

  function Weight(items: seq<Registration>): nat {
    if items == [] then 0 else Weight(items[..|items| - 1]) + Size(items[|items| - 1].d) + 2
  }

  lemma ItemsSnoc(name: Naming, items: seq<Registration>, it: Registration)
    ensures Entries(name, items + [it]) == Entries(name, items) + [EntryOf(name, it)]
    ensures Bodies(name, items + [it]) == Bodies(name, items)
      + [if it.plain then MarkBody(name, it.d) else Companion(name, it.d)]
    ensures ErrBodies(name, items + [it]) == ErrBodies(name, items) + if it.plain then [] else [MarkErrBody(name, it.d)]
    ensures Weight(items + [it]) == Weight(items) + Size(it.d) + 2
  {
    hide MarkBody, MarkErrBody, Companion, Size;
    assert (items + [it])[..|items|] == items;
  }

  lemma ItemsInit(name: Naming, items: seq<Registration>)
    requires items != []
    ensures var init, it := items[..|items| - 1], items[|items| - 1];
      && Entries(name, items) == Entries(name, init) + [EntryOf(name, it)]
      && Bodies(name, items) == Bodies(name, init) + [if it.plain then MarkBody(name, it.d) else Companion(name, it.d)]
      && ErrBodies(name, items) == ErrBodies(name, init) + (if it.plain then [] else [MarkErrBody(name, it.d)])
      && Weight(items) == Weight(init) + Size(it.d) + 2
  {
    hide MarkBody, MarkErrBody, Companion, Size, Entries, Bodies, ErrBodies, Weight;
    assert items == items[..|items| - 1] + [items[|items| - 1]];
    ItemsSnoc(name, items[..|items| - 1], items[|items| - 1]);
  }

  lemma NoItems(name: Naming)
    ensures Entries(name, []) == [] && Bodies(name, []) == [] && ErrBodies(name, []) == [] && Weight([]) == 0
  {
  }

  predicate Bodied(items: seq<Registration>) {
    forall i :: 0 <= i < |items| ==> Deferrable(items[i].d) && Shaped(items[i].d)
  }

  // ----- Balance -----

  predicate Failing(w: World, out: Outcome) {
    out.Returned? && w.ErrorReturn(out.v)
  }

  /** Of the errdefers registered when the return began, those above `st` have started, last first. */
  ghost predicate Started(t: Trace, st: seq<Entry>, t1: Trace) {
    AtReturn(t1).Some? &&
    var (es, k) := (AtReturn(t1).value, |ErrNames(st)|);
    k <= |es| && es[..k] == ErrNames(st) && ErrRuns(t1) == ErrRuns(t) + Reversed(es[k..])
  }

  /** The run leaves exactly `st` pending; errdefers start on an error return only, and then all that are due. */
  ghost predicate Balanced(w: World, t: Trace, st: seq<Entry>, r: Res) {
    && Pending(r.t).Some?
    && (!r.out.Panicked? && !r.out.Timeout? ==> Pending(r.t) == Some(st))
    && (!Failing(w, r.out) && !r.out.Panicked? ==> ErrRuns(r.t) == ErrRuns(t))
    && (!r.out.Returned? && !r.out.Panicked? ==> AtReturn(r.t) == AtReturn(t))
    && (Failing(w, r.out) ==> Started(t, st, r.t))
  }

  lemma BalancedFrom(w: World, t: Trace, t1: Trace, st: seq<Entry>, r: Res)
    requires Unmarked(t, t1) && Balanced(w, t1, st, r)
    ensures Balanced(w, t, st, r)
  {
    hide Pending, ErrRuns, AtReturn;
  }

  lemma BalancedNow(w: World, t: Trace, t1: Trace, st: seq<Entry>, out: Outcome)
    requires Unmarked(t, t1) && Pending(t) == Some(st) && !out.Returned?
    ensures Balanced(w, t, st, Res(out, t1))
  {
    hide Pending, ErrRuns, AtReturn;
  }

  lemma {:induction false} BalancedStmt(w: World, name: Naming, s: Stmt, t: Trace, st: seq<Entry>, fuel: nat)
    requires Shaped(s) && !s.Return? && Pending(t) == Some(st)
    ensures Balanced(w, t, st, Exec(w, Mark(name, s), t, fuel))
    decreases fuel, Size(s), 20
  {
    hide Pending, ErrRuns, AtReturn, Balanced, Unmarked, ExecSeq, MarkSeq, MarkBody, MarkErrBody, MarkProngs,
         ShapedSeq, ShapedProngs, FirstListed, FirstElse;
    Untouched(t);
    match s
    case Do(a) =>
      OrdinaryAction(t, a);
      BalancedNow(w, t, t + [Did(7 * a)], st, Normal);
    case Block(b) => BalancedBlock(w, name, b, t, st, fuel);
    case If(_, _, _, _) => BalancedIf(w, name, s, t, st, fuel);
    case Switch(_, _) => BalancedSwitch(w, name, s, t, st, fuel);
    case While(_, _, _, _, _, _) => BalancedWhile(w, name, s, t, st, fuel);
    case For(_, setup, lo, hi, _) =>
      var t1 := t + Acts(Scale(setup));
      var t2 := t1 + [Read(lo)];
      ActsUnmarked(t, setup);
      OtherEvent(t1, Read(lo));
      OtherEvent(t2, Read(hi));
      Chained(t, t1, t2);
      Chained(t, t2, t2 + [Read(hi)]);
      Kept(t, t2 + [Read(hi)]);
      BalancedFor(w, name, s, w.value(lo, t1), w.value(hi, t2), t2 + [Read(hi)], st, fuel);
      BalancedFrom(w, t, t2 + [Read(hi)], st, Exec(w, Mark(name, s), t, fuel));
    case Unreachable => BalancedNow(w, t, t, st, Panicked);
    case Break(id) => BalancedNow(w, t, t, st, Broke(id));
    case Continue(id) => BalancedNow(w, t, t, st, Continued(id));
    case Defer(_) => BalancedNow(w, t, t, st, Normal);
    case ErrDefer(_) => BalancedNow(w, t, t, st, Normal);
  }

  lemma Untouched(t: Trace)
    ensures Unmarked(t, t)
  {
  }

  lemma Chained(t: Trace, t1: Trace, t2: Trace)
    requires Unmarked(t, t1) && Unmarked(t1, t2)
    ensures Unmarked(t, t2)
  {
    hide Pending, ErrRuns, AtReturn;
  }

  lemma Kept(t: Trace, t1: Trace)
    requires Unmarked(t, t1)
    ensures Pending(t1) == Pending(t)
  {
    hide Pending, ErrRuns, AtReturn;
  }

  lemma {:induction false} BalancedIf(w: World, name: Naming, s: Stmt, t: Trace, st: seq<Entry>, fuel: nat)
    requires s.If? && Shaped(s) && Pending(t) == Some(st)
    ensures Balanced(w, t, st, Exec(w, Mark(name, s), t, fuel))
    decreases fuel, Size(s), 19
  {
    hide Pending, ErrRuns, AtReturn, Balanced, Unmarked, ExecSeq, MarkSeq, MarkBody, MarkErrBody, MarkProngs,
         ShapedSeq, Scale, Acts;
    IfParts(s, {});
    var t1 := t + [Tested(s.test)];
    OtherEvent(t, Tested(s.test));
    Kept(t, t1);
    var r := Exec(w, Mark(name, s), t, fuel);
    if w.test(s.test, t) {
      var t2 := t1 + Acts(Scale(s.capture));
      ActsUnmarked(t1, s.capture);
      Chained(t, t1, t2);
      Kept(t, t2);
      BalancedBlock(w, name, s.thn, t2, st, fuel);
      BalancedFrom(w, t, t2, st, r);
    } else if s.els.Some? {
      BalancedStmt(w, name, s.els.value, t1, st, fuel);
      BalancedFrom(w, t, t1, st, r);
    } else {
      BalancedNow(w, t, t1, st, Normal);
    }
  }

  lemma {:induction false} BalancedSwitch(w: World, name: Naming, s: Stmt, t: Trace, st: seq<Entry>, fuel: nat)
    requires s.Switch? && Shaped(s) && Pending(t) == Some(st)
    ensures Balanced(w, t, st, Exec(w, Mark(name, s), t, fuel))
    decreases fuel, Size(s), 19
  {
    hide Pending, ErrRuns, AtReturn, Balanced, Unmarked, ExecSeq, MarkSeq, MarkBody, MarkErrBody, MarkProngs,
         ShapedSeq, ShapedProngs, FirstListed, FirstElse, Scale, Acts;
    var ps, v := s.prongs, w.value(s.operand, t);
    PickMarked(name, ps, v);
    var t1 := t + [Read(s.operand)];
    OtherEvent(t, Read(s.operand));
    var k := Pick(ps, v);
    var r := Exec(w, Mark(name, s), t, fuel);
    if k < |ps| {
      SwitchParts(s, k, {});
      var t2 := t1 + Acts(Scale(ps[k].capture));
      ActsUnmarked(t1, ps[k].capture);
      Chained(t, t1, t2);
      Kept(t, t2);
      BalancedBlock(w, name, ps[k].body, t2, st, fuel);
      BalancedFrom(w, t, t2, st, r);
    } else {
      BalancedNow(w, t, t1, st, Normal);
    }
  }

  lemma {:induction false} PickMarked(name: Naming, ps: seq<Prong>, v: int)
    ensures |MarkProngs(name, ps)| == |ps| && Pick(MarkProngs(name, ps), v) == Pick(ps, v)
    ensures forall k :: 0 <= k < |ps| ==>
      MarkProngs(name, ps)[k].capture == Scale(ps[k].capture)
        && MarkProngs(name, ps)[k].body == MarkSeq(name, ps[k].body)
    ensures FirstListed(MarkProngs(name, ps), v) == FirstListed(ps, v)
      && FirstElse(MarkProngs(name, ps)) == FirstElse(ps)
    decreases |ps|
  {
    hide MarkSeq, Scale, Covers;
    if ps != [] {
      PickMarked(name, ps[1..], v);
      var ms := MarkProngs(name, ps);
      assert ms[1..] == MarkProngs(name, ps[1..]);
      forall k | 0 <= k < |ps|
        ensures ms[k].capture == Scale(ps[k].capture) && ms[k].body == MarkSeq(name, ps[k].body)
      {
        if k > 0 {
          assert ms[k] == ms[1..][k - 1] && ps[k] == ps[1..][k - 1];
        }
      }
    }
  }

  lemma {:induction false} BalancedBlock(w: World, name: Naming, body: seq<Stmt>, t: Trace, st: seq<Entry>, fuel: nat)
    requires ShapedSeq(body) && Pending(t) == Some(st)
    ensures Balanced(w, t, st, ExecSeq(w, MarkSeq(name, body), [], [], t, fuel))
    decreases fuel, SizeSeq(body), 11 + |body|
  {
    hide Pending, ErrRuns, AtReturn, ExecSeq, MarkSeq, MarkBody, MarkErrBody, ShapedSeq, Balanced, SizeSeq;
    NoItems(name);
    assert st + [] == st;
    BalancedSeq(w, name, body, [], t, st, fuel);
  }

  lemma {:induction false} BalancedSeq(
    w: World, name: Naming, rest: seq<Stmt>, items: seq<Registration>, t: Trace, st: seq<Entry>, fuel: nat)
    requires ShapedSeq(rest) && Bodied(items) && Pending(t) == Some(st + Entries(name, items))
    ensures Balanced(w, t, st, ExecSeq(w, MarkSeq(name, rest), Bodies(name, items), ErrBodies(name, items), t, fuel))
    decreases fuel, SizeSeq(rest) + Weight(items), 10 + |rest|
  {
    hide Pending, ErrRuns, AtReturn, Balanced, Unmarked, Exec, ExecSeq, Mark, MarkSeq, MarkBody, MarkErrBody,
         Companion, Shaped, ShapedSeq, Deferrable, Size, SizeSeq, Leave, Entries, Bodies, ErrBodies, Weight;
    var bs, es := Bodies(name, items), ErrBodies(name, items);
    MarkSeqStep(name, rest);
    Untouched(t);
    if rest == [] {
      SeqStep(w, [], bs, es, t, fuel);
      BalancedNow(w, t, t, st + Entries(name, items), Normal);
      BalancedLeave(w, name, Res(Normal, t), items, t, st);
      return;
    }
    SeqParts(rest, {});
    var s, tail := rest[0], MarkSeq(name, rest[1..]);
    if s.Defer? || s.ErrDefer? {
      DeferParts(s);
      var it := Registration(s.Defer?, s.deferred);
      var t1 := t + [Did(7 * name(s.deferred) + if s.Defer? then 1 else 3)];
      RegisterSteps(w, name, s, tail, items, t, fuel);
      Registers(name, it, t, st + Entries(name, items));
      ItemsSnoc(name, items, it);
      assert st + Entries(name, items + [it]) == st + Entries(name, items) + [EntryOf(name, it)];
      BalancedSeq(w, name, rest[1..], items + [it], t1, st, fuel);
      BalancedAfter(w, t, t1, st, ExecSeq(w, MarkSeq(name, rest), bs, es, t, fuel));
    } else if s.Return? {
      BalancedReturn(w, name, s, tail, items, t, st, fuel);
    } else {
      var r := Exec(w, Mark(name, s), t, fuel);
      SeqStep(w, [Mark(name, s)] + tail, bs, es, t, fuel);
      BalancedStmt(w, name, s, t, st + Entries(name, items), fuel);
      if r.out.Normal? {
        BalancedEnd(w, t, st + Entries(name, items), r);
        BalancedSeq(w, name, rest[1..], items, r.t, st, fuel);
        BalancedAfter(w, t, r.t, st, ExecSeq(w, tail, bs, es, r.t, fuel));
      } else {
        BalancedLeave(w, name, r, items, t, st);
      }
    }
  }

  lemma BalancedEnd(w: World, t: Trace, st: seq<Entry>, r: Res)
    requires Balanced(w, t, st, r) && r.out.Normal?
    ensures Pending(r.t) == Some(st) && ErrRuns(r.t) == ErrRuns(t) && AtReturn(r.t) == AtReturn(t)
  {
    hide Pending, ErrRuns, AtReturn;
  }

  /** A run whose first part starts no errdefer and does not return. */
  lemma BalancedAfter(w: World, t: Trace, t1: Trace, st: seq<Entry>, r: Res)
    requires ErrRuns(t1) == ErrRuns(t) && AtReturn(t1) == AtReturn(t) && Balanced(w, t1, st, r)
    ensures Balanced(w, t, st, r)
  {
    hide Pending, ErrRuns, AtReturn;
  }

  /** A registration marker puts its entry on top. */
  lemma Registers(name: Naming, it: Registration, t: Trace, st: seq<Entry>)
    requires Pending(t) == Some(st)
    ensures var t1 := t + [Did(7 * name(it.d) + if it.plain then 1 else 3)];
      Pending(t1) == Some(st + [EntryOf(name, it)]) && ErrRuns(t1) == ErrRuns(t) && AtReturn(t1) == AtReturn(t)
  {
    hide Pending, ErrRuns, AtReturn;
    var e := Did(7 * name(it.d) + if it.plain then 1 else 3);
    Snoc(t, e);
    assert ErrRuns(t) + [] == ErrRuns(t);
  }

  lemma MarkSeqStep(name: Naming, rest: seq<Stmt>)
    ensures rest == [] ==> MarkSeq(name, rest) == []
    ensures rest != [] ==>
      var s, tail := rest[0], MarkSeq(name, rest[1..]);
      && MarkSeq(name, rest) ==
         (if s.Defer? then [Do(7 * name(s.deferred) + 1), Defer(MarkBody(name, s.deferred))]
          else if s.ErrDefer? then
            [Do(7 * name(s.deferred) + 3), Defer(Companion(name, s.deferred)), ErrDefer(MarkErrBody(name, s.deferred))]
          else if s.Return? then [Do(RETURNING), s]
          else [Mark(name, s)]) + tail
      && (!s.Defer? && !s.ErrDefer? ==> !Mark(name, s).Defer? && !Mark(name, s).ErrDefer?)
  {
    hide MarkBody, MarkErrBody, Companion, MarkOne, Mark, MarkSeq;
    MarkSeqOpens(name, rest);
    if rest != [] {
      MarkOneForms(name, rest[0]);
    }
  }

  lemma MarkSeqOpens(name: Naming, rest: seq<Stmt>)
    ensures MarkSeq(name, rest) == if rest == [] then [] else MarkOne(name, rest[0]) + MarkSeq(name, rest[1..])
  {
    hide MarkOne;
  }

  lemma MarkOneForms(name: Naming, s: Stmt)
    ensures s.Defer? ==> MarkOne(name, s) == [Do(7 * name(s.deferred) + 1), Defer(MarkBody(name, s.deferred))]
    ensures s.ErrDefer? ==>
      MarkOne(name, s) ==
      [Do(7 * name(s.deferred) + 3), Defer(Companion(name, s.deferred)), ErrDefer(MarkErrBody(name, s.deferred))]
    ensures s.Return? ==> MarkOne(name, s) == [Do(RETURNING), s]
    ensures !s.Defer? && !s.ErrDefer? && !s.Return? ==> MarkOne(name, s) == [Mark(name, s)]
    ensures !s.Defer? && !s.ErrDefer? ==> !Mark(name, s).Defer? && !Mark(name, s).ErrDefer?
  {
    hide MarkBody, MarkErrBody, Companion, Mark;
    MarkForms(name, s);
  }

  lemma MarkForms(name: Naming, s: Stmt)
    ensures s.Defer? ==> Mark(name, s) == Defer(MarkBody(name, s.deferred))
    ensures s.ErrDefer? ==> Mark(name, s) == ErrDefer(MarkErrBody(name, s.deferred))
    ensures !s.Defer? && !s.ErrDefer? ==> !Mark(name, s).Defer? && !Mark(name, s).ErrDefer?
  {
    hide MarkBody, MarkErrBody, MarkSeq, MarkProngs, Scale;
    match s
    case Defer(_) =>
    case ErrDefer(_) =>
    case _ =>
  }

  lemma SeqStep(w: World, rest: seq<Stmt>, ds: seq<Stmt>, es: seq<Stmt>, t: Trace, fuel: nat)
    ensures rest == [] ==> ExecSeq(w, rest, ds, es, t, fuel) == Leave(w, Normal, ds, es, t)
    ensures rest != [] && !rest[0].Defer? && !rest[0].ErrDefer? ==>
      var r := Exec(w, rest[0], t, fuel);
      ExecSeq(w, rest, ds, es, t, fuel) ==
      if r.out.Normal? then ExecSeq(w, rest[1..], ds, es, r.t, fuel) else Leave(w, r.out, ds, es, r.t)
    ensures rest != [] && rest[0].Defer? ==>
      ExecSeq(w, rest, ds, es, t, fuel) == ExecSeq(w, rest[1..], ds + [rest[0].deferred], es, t, fuel)
    ensures rest != [] && rest[0].ErrDefer? ==>
      ExecSeq(w, rest, ds, es, t, fuel) == ExecSeq(w, rest[1..], ds, es + [rest[0].deferred], t, fuel)
  {
    hide Exec, Leave;
  }

  /** A marker in front. */
  lemma ActStep(w: World, a: nat, tail: seq<Stmt>, ds: seq<Stmt>, es: seq<Stmt>, t: Trace, fuel: nat)
    ensures ExecSeq(w, [Do(a)] + tail, ds, es, t, fuel) == ExecSeq(w, tail, ds, es, t + [Did(a)], fuel)
  {
    hide ExecSeq;
    assert ([Do(a)] + tail)[1..] == tail;
    SeqStep(w, [Do(a)] + tail, ds, es, t, fuel);
  }

  /** A registration marker followed by the registration itself. */
  lemma RegisterSteps(w: World, name: Naming, s: Stmt, tail: seq<Stmt>, items: seq<Registration>, t: Trace, fuel: nat)
    requires s.Defer? || s.ErrDefer?
    ensures var d := s.deferred;
      var head := if s.Defer? then [Do(7 * name(d) + 1), Defer(MarkBody(name, d))]
                  else [Do(7 * name(d) + 3), Defer(Companion(name, d)), ErrDefer(MarkErrBody(name, d))];
      var next := items + [Registration(s.Defer?, d)];
      ExecSeq(w, head + tail, Bodies(name, items), ErrBodies(name, items), t, fuel) ==
      ExecSeq(w, tail, Bodies(name, next), ErrBodies(name, next),
              t + [Did(7 * name(d) + if s.Defer? then 1 else 3)], fuel)
  {
    hide ExecSeq, MarkBody, MarkErrBody, Companion, Bodies, ErrBodies, Entries, Weight;
    var d, bs, es := s.deferred, Bodies(name, items), ErrBodies(name, items);
    ItemsSnoc(name, items, Registration(s.Defer?, d));
    if s.Defer? {
      var m, reg := Do(7 * name(d) + 1), Defer(MarkBody(name, d));
      var t1 := t + [Did(m.action)];
      assert [m, reg] + tail == [m] + ([reg] + tail) && ([reg] + tail)[1..] == tail;
      ActStep(w, m.action, [reg] + tail, bs, es, t, fuel);
      SeqStep(w, [reg] + tail, bs, es, t1, fuel);
      assert es + [] == es;
    } else {
      var m, c, reg := Do(7 * name(d) + 3), Defer(Companion(name, d)), ErrDefer(MarkErrBody(name, d));
      var t1 := t + [Did(m.action)];
      assert [m, c, reg] + tail == [m] + ([c] + ([reg] + tail));
      assert ([c] + ([reg] + tail))[1..] == [reg] + tail && ([reg] + tail)[1..] == tail;
      ActStep(w, m.action, [c] + ([reg] + tail), bs, es, t, fuel);
      SeqStep(w, [c] + ([reg] + tail), bs, es, t1, fuel);
      SeqStep(w, [reg] + tail, bs + [c.deferred], es, t1, fuel);
    }
  }

  /** A return: the marker notes the errdefers of all open scopes, then this scope is left. */
  lemma {:induction false} BalancedReturn(
    w: World, name: Naming, s: Stmt, tail: seq<Stmt>, items: seq<Registration>, t: Trace, st: seq<Entry>, fuel: nat)
    requires s.Return? && Bodied(items) && Pending(t) == Some(st + Entries(name, items))
    ensures Balanced(w, t, st,
                     ExecSeq(w, [Do(RETURNING), s] + tail, Bodies(name, items), ErrBodies(name, items), t, fuel))
    decreases fuel, Weight(items), 9
  {
    hide Pending, ErrRuns, AtReturn, Balanced, Unmarked, ExecSeq, MarkBody, MarkErrBody, Companion, Leave, Entries,
         Bodies, ErrBodies, Weight;
    var bs, es := Bodies(name, items), ErrBodies(name, items);
    var all := st + Entries(name, items);
    var t1 := t + [Did(RETURNING)];
    var t2 := t1 + [Read(s.operand)];
    assert [Do(RETURNING), s] + tail == [Do(RETURNING)] + ([s] + tail);
    ActStep(w, RETURNING, [s] + tail, bs, es, t, fuel);
    SeqStep(w, [s] + tail, bs, es, t1, fuel);
    Snoc(t, Did(RETURNING));
    Snoc(t1, Read(s.operand));
    var r := Exec(w, s, t1, fuel);
    assert r == Res(Returned(w.Result(s.operand, s.boxed, t1)), t2);
    ReturnBegins(w, t, all, r);
    BalancedLeave(w, name, r, items, t, st);
  }

  lemma ReturnBegins(w: World, t: Trace, st: seq<Entry>, r: Res)
    requires r.out.Returned? && Pending(r.t) == Some(st) && ErrRuns(r.t) == ErrRuns(t)
      && AtReturn(r.t) == Some(ErrNames(st))
    ensures Balanced(w, t, st, r)
  {
    hide Pending, ErrRuns, AtReturn, ErrNames;
    var es := ErrNames(st);
    assert es[..|es|] == es && es[|es|..] == [];
    assert ErrRuns(t) + [] == ErrRuns(t);
  }

  /** Leaving a scope runs its pending defers, and starts its errdefers, last first, exactly on an error return. */
  lemma {:induction false} LeavesScope(
    w: World, name: Naming, out: Outcome, items: seq<Registration>, t: Trace, st: seq<Entry>)
    requires Bodied(items) && !out.Panicked? && !out.Timeout? && Pending(t) == Some(st + Entries(name, items))
    ensures var r := Leave(w, out, Bodies(name, items), ErrBodies(name, items), t);
      && Pending(r.t).Some? && (r.out.Panicked? || r.out == out)
      && (!r.out.Panicked? ==> Pending(r.t) == Some(st) && AtReturn(r.t) == AtReturn(t))
      && (!r.out.Panicked? ==>
            ErrRuns(r.t) == ErrRuns(t) + if Failing(w, out) then Reversed(ErrNames(Entries(name, items))) else [])
    decreases 0, Weight(items), 3
  {
    hide Pending, ErrRuns, AtReturn, RunDeferred, MarkBody, MarkErrBody, Companion, Shaped, Deferrable, Size, Entries,
         Bodies, ErrBodies, Weight, ErrNames, Reversed;
    RunsBodies(w, name, items, t, st);
    var u := RunDeferred(w, Bodies(name, items), t);
    assert ErrRuns(t) + [] == ErrRuns(t);
    if u.out.Normal? {
      StartsErrBodies(w, name, items, u.t, st);
    }
  }

  lemma {:induction false} BalancedLeave(
    w: World, name: Naming, r: Res, items: seq<Registration>, t: Trace, st: seq<Entry>)
    requires Bodied(items) && Balanced(w, t, st + Entries(name, items), r)
    ensures Balanced(w, t, st, Leave(w, r.out, Bodies(name, items), ErrBodies(name, items), r.t))
    decreases 0, Weight(items), 4
  {
    hide Pending, ErrRuns, AtReturn, LeaveScope, MarkBody, MarkErrBody, Companion, Entries, Bodies, ErrBodies, Weight,
         ErrNames, Reversed;
    if !r.out.Panicked? && !r.out.Timeout? {
      LeavesScope(w, name, r.out, items, r.t, st);
      var u := Leave(w, r.out, Bodies(name, items), ErrBodies(name, items), r.t);
      assert ErrRuns(r.t) + [] == ErrRuns(r.t);
      if Failing(w, u.out) {
        var own := Entries(name, items);
        var es, k := AtReturn(r.t).value, |ErrNames(st)|;
        ErrNamesConcat(st, own);
        StartedMore(es, ErrNames(st), ErrNames(own));
        assert ErrRuns(u.t) == (ErrRuns(t) + Reversed(es[k + |ErrNames(own)|..])) + Reversed(ErrNames(own));
        assert ErrRuns(u.t) == ErrRuns(t) + (Reversed(es[k + |ErrNames(own)|..]) + Reversed(ErrNames(own)));
      }
    }
  }

  lemma StartedMore(es: seq<nat>, outer: seq<nat>, own: seq<nat>)
    requires |outer| + |own| <= |es| && es[..|outer| + |own|] == outer + own
    ensures es[..|outer|] == outer
    ensures Reversed(es[|outer|..]) == Reversed(es[|outer| + |own|..]) + Reversed(own)
  {
    hide Reversed;
    var rest := es[|outer| + |own|..];
    Rejoined(es, |outer| + |own|, outer + own, rest);
    Regrouped(outer, own, rest);
    ReversedConcat(own, rest);
  }

  lemma Rejoined(s: seq<nat>, n: nat, front: seq<nat>, back: seq<nat>)
    requires n <= |s| && front == s[..n] && back == s[n..]
    ensures s == front + back
  {
  }

  lemma Regrouped(a: seq<nat>, b: seq<nat>, c: seq<nat>)
    ensures ((a + b) + c)[..|a|] == a && ((a + b) + c)[|a|..] == b + c
  {
  }

  lemma ReversedConcat(a: seq<nat>, b: seq<nat>)
    ensures Reversed(a + b) == Reversed(b) + Reversed(a)
  {
    var l, r := Reversed(a + b), Reversed(b) + Reversed(a);
    forall i | 0 <= i < |l| ensures l[i] == r[i] {
    }
  }

  lemma {:induction false} RunsBodies(w: World, name: Naming, items: seq<Registration>, t: Trace, st: seq<Entry>)
    requires Bodied(items) && Pending(t) == Some(st + Entries(name, items))
    ensures var r := RunDeferred(w, Bodies(name, items), t);
      && r.out in {Normal, Panicked} && Pending(r.t).Some?
      && (r.out.Normal? ==> Pending(r.t) == Some(st) && ErrRuns(r.t) == ErrRuns(t) && AtReturn(r.t) == AtReturn(t))
    decreases 0, Weight(items), 2
  {
    hide Pending, ErrRuns, AtReturn, Exec, RunDeferred, MarkBody, MarkErrBody, Companion, Shaped, Deferrable, Size,
         Entries, Bodies, ErrBodies, Weight, ErrNames;
    var bs := Bodies(name, items);
    RunStep(w, bs, t);
    if items == [] {
      NoItems(name);
      assert st + [] == st;
    } else {
      var n := |items| - 1;
      var init, it := items[..n], items[n];
      ItemsInit(name, items);
      var body := if it.plain then MarkBody(name, it.d) else Companion(name, it.d);
      assert bs[|bs| - 1] == body && bs[..|bs| - 1] == Bodies(name, init);
      assert st + Entries(name, items) == st + Entries(name, init) + [EntryOf(name, it)];
      if it.plain {
        BodyRuns(w, name, it.d, true, t, st + Entries(name, init));
      } else {
        CompanionRuns(w, name, it.d, t, st + Entries(name, init));
      }
      var r := Exec(w, body, t, 0);
      if r.out.Normal? {
        RunsBodies(w, name, init, r.t, st);
      }
    }
  }

  lemma CompanionRuns(w: World, name: Naming, d: Stmt, t: Trace, st: seq<Entry>)
    requires Pending(t) == Some(st + [Err(name(d))])
    ensures var r := Exec(w, Companion(name, d), t, 0);
      r.out.Normal? && Pending(r.t) == Some(st) && ErrRuns(r.t) == ErrRuns(t) && AtReturn(r.t) == AtReturn(t)
  {
    hide Pending, ErrRuns, AtReturn, ExecSeq;
    var e := Did(7 * name(d) + 5);
    assert [Do(e.action)] == [Do(e.action)] + [];
    ActStep(w, e.action, [], [], [], t, 0);
    SeqStep(w, [], [], [], t + [e], 0);
    assert RunDeferred(w, [], t + [e]) == Res(Normal, t + [e]);
    Snoc(t, e);
    assert (st + [Err(name(d))])[..|st|] == st;
    assert ErrRuns(t) + [] == ErrRuns(t);
  }

  lemma {:induction false} StartsErrBodies(w: World, name: Naming, items: seq<Registration>, t: Trace, st: seq<Entry>)
    requires Bodied(items) && Pending(t) == Some(st)
    ensures var r := RunDeferred(w, ErrBodies(name, items), t);
      && r.out in {Normal, Panicked} && Pending(r.t).Some?
      && (r.out.Normal? ==>
            Pending(r.t) == Some(st) && AtReturn(r.t) == AtReturn(t)
            && ErrRuns(r.t) == ErrRuns(t) + Reversed(ErrNames(Entries(name, items))))
    decreases 0, Weight(items), 2
  {
    hide Pending, ErrRuns, AtReturn, Exec, RunDeferred, MarkBody, MarkErrBody, Companion, Shaped, Deferrable, Size,
         Entries, Bodies, ErrBodies, Weight;
    var bs := ErrBodies(name, items);
    RunStep(w, bs, t);
    if items == [] {
      NoItems(name);
      assert ErrRuns(t) + Reversed([]) == ErrRuns(t);
    } else {
      var n := |items| - 1;
      var init, it := items[..n], items[n];
      ItemsInit(name, items);
      ErrNamesSnoc(Entries(name, init), EntryOf(name, it));
      var es := ErrNames(Entries(name, init));
      if it.plain {
        assert bs == ErrBodies(name, init) && es + [] == es;
        StartsErrBodies(w, name, init, t, st);
      } else {
        assert bs[|bs| - 1] == MarkErrBody(name, it.d) && bs[..|bs| - 1] == ErrBodies(name, init);
        BodyRuns(w, name, it.d, false, t, st);
        var r := Exec(w, bs[|bs| - 1], t, 0);
        if r.out.Normal? {
          StartsErrBodies(w, name, init, r.t, st);
          assert (es + [name(it.d)])[..|es|] == es;
          assert Reversed(es + [name(it.d)]) == [name(it.d)] + Reversed(es);
          assert ErrRuns(t) + [name(it.d)] + Reversed(es) == ErrRuns(t) + ([name(it.d)] + Reversed(es));
        }
      }
    }
  }

  lemma RunStep(w: World, ds: seq<Stmt>, t: Trace)
    ensures ds == [] ==> RunDeferred(w, ds, t) == Res(Normal, t)
    ensures ds != [] ==>
      var r := Exec(w, ds[|ds| - 1], t, 0);
      RunDeferred(w, ds, t) == if r.out.Normal? then RunDeferred(w, ds[..|ds| - 1], r.t) else r
  {
    hide Exec;
  }

  /** A marked deferred body: its start marker, then the body; a plain body's marker takes its entry off the stack. */
  lemma {:induction false} BodyRuns(w: World, name: Naming, d: Stmt, plain: bool, t: Trace, st: seq<Entry>)
    requires Deferrable(d) && Shaped(d)
    requires Pending(t) == if plain then Some(st + [Plain(name(d))]) else Some(st)
    ensures var r := Exec(w, if plain then MarkBody(name, d) else MarkErrBody(name, d), t, 0);
      && r.out in {Normal, Panicked} && Pending(r.t).Some?
      && (r.out.Normal? ==>
            Pending(r.t) == Some(st) && AtReturn(r.t) == AtReturn(t)
            && ErrRuns(r.t) == ErrRuns(t) + if plain then [] else [name(d)])
    decreases 0, Size(d) + 1, 30
  {
    hide Pending, ErrRuns, AtReturn, Exec, ExecSeq, MarkOne, MarkSeq, Shaped, ShapedSeq, Deferrable, Size, SizeSeq,
         Leave, MarkBody, MarkErrBody;
    BodiesKeep(name, d);
    var b := if plain then MarkBody(name, d) else MarkErrBody(name, d);
    DeferrableCompletes(w, b, t, 0);
    var m := if plain then 7 * name(d) + 2 else 7 * name(d) + 4;
    BodyOpens(w, name, d, b, t, m);
    Snoc(t, Did(m));
    assert (st + [Plain(name(d))])[..|st|] == st;
    InsideShaped(d);
    BalancedBlock(w, name, Inside(d), t + [Did(m)], st, 0);
  }

  lemma InsideShaped(d: Stmt)
    ensures (Shaped(d) ==> ShapedSeq(Inside(d))) && SizeSeq(Inside(d)) <= 1 + Size(d) && |Inside(d)| <= 1
  {
    assert [d][1..] == [];
  }

  lemma BodyOpens(w: World, name: Naming, d: Stmt, b: Stmt, t: Trace, m: nat)
    requires (b == MarkBody(name, d) && m == 7 * name(d) + 2) || (b == MarkErrBody(name, d) && m == 7 * name(d) + 4)
    ensures Exec(w, b, t, 0) == ExecSeq(w, MarkSeq(name, Inside(d)), [], [], t + [Did(m)], 0)
  {
    hide ExecSeq, MarkSeq, MarkInside;
    InsideMarks(name, d);
    assert b == Block([Do(m)] + MarkInside(name, d));
    ActStep(w, m, MarkInside(name, d), [], [], t, 0);
  }

  lemma InsideMarks(name: Naming, d: Stmt)
    ensures MarkSeq(name, Inside(d)) == MarkInside(name, d)
  {
    hide MarkOne, MarkSeq;
    MarkSeqOpens(name, []);
    MarkSeqOpens(name, [d]);
    assert [d][1..] == [];
    assert MarkOne(name, d) + [] == MarkOne(name, d);
  }

  // ----- Loops -----

  lemma {:induction false} BalancedWhile(w: World, name: Naming, s: Stmt, t: Trace, st: seq<Entry>, fuel: nat)
    requires s.While? && Shaped(s) && Pending(t) == Some(st)
    ensures Balanced(w, t, st, ExecWhile(w, Mark(name, s), t, fuel))
    decreases fuel, Size(s), 1
  {
    hide Pending, ErrRuns, AtReturn, Balanced, Unmarked, Exec, ExecSeq, MarkSeq, Shaped, ShapedSeq, Size, SizeSeq,
         Scale, Acts;
    Untouched(t);
    var t1 := t + [Tested(s.test)];
    OtherEvent(t, Tested(s.test));
    if fuel == 0 {
      BalancedNow(w, t, t, st, Timeout);
    } else if !w.test(s.test, t) {
      BalancedNow(w, t, t1, st, Normal);
    } else {
      LoopParts(s, {});
      var t2 := t1 + Acts(Scale(s.capture));
      ActsUnmarked(t1, s.capture);
      Chained(t, t1, t2);
      Kept(t, t2);
      BalancedBlock(w, name, s.body, t2, st, fuel - 1);
      var r := ExecSeq(w, MarkSeq(name, s.body), [], [], t2, fuel - 1);
      BalancedFrom(w, t, t2, st, r);
      if r.out.Normal? || r.out == Continued(s.id) {
        Iterated(w, t, st, r);
        var t3 := r.t + Acts(Scale(s.step));
        ActsUnmarked(r.t, s.step);
        Kept(r.t, t3);
        BalancedWhile(w, name, s, t3, st, fuel - 1);
        var u := ExecWhile(w, Mark(name, s), t3, fuel - 1);
        BalancedFrom(w, r.t, t3, st, u);
        BalancedAfter(w, t, r.t, st, u);
      } else if r.out == Broke(s.id) {
        Iterated(w, t, st, r);
      }
    }
  }

  /** Leaving one iteration in any way but a return. */
  lemma Iterated(w: World, t: Trace, st: seq<Entry>, r: Res)
    requires Balanced(w, t, st, r) && (r.out.Normal? || r.out.Continued? || r.out.Broke?)
    ensures Pending(r.t) == Some(st) && ErrRuns(r.t) == ErrRuns(t) && AtReturn(r.t) == AtReturn(t)
    ensures Balanced(w, t, st, Res(Normal, r.t))
  {
    hide Pending, ErrRuns, AtReturn;
  }

  lemma {:induction false} BalancedFor(
    w: World, name: Naming, s: Stmt, i: int, n: int, t: Trace, st: seq<Entry>, fuel: nat)
    requires s.For? && Shaped(s) && Pending(t) == Some(st)
    ensures Balanced(w, t, st, ExecFor(w, Mark(name, s), i, n, t, fuel))
    decreases fuel, Size(s), 1
  {
    hide Pending, ErrRuns, AtReturn, Balanced, Unmarked, Exec, ExecSeq, MarkSeq, Shaped, ShapedSeq, Size, SizeSeq,
         Scale;
    Untouched(t);
    if fuel == 0 {
      BalancedNow(w, t, t, st, Timeout);
    } else if i >= n {
      BalancedNow(w, t, t, st, Normal);
    } else {
      LoopParts(s, {});
      var t1 := t + [Bound(s.id, i)];
      OtherEvent(t, Bound(s.id, i));
      Kept(t, t1);
      BalancedBlock(w, name, s.body, t1, st, fuel - 1);
      var r := ExecSeq(w, MarkSeq(name, s.body), [], [], t1, fuel - 1);
      BalancedFrom(w, t, t1, st, r);
      if r.out.Normal? || r.out == Continued(s.id) {
        Iterated(w, t, st, r);
        BalancedFor(w, name, s, i + 1, n, r.t, st, fuel - 1);
        BalancedAfter(w, t, r.t, st, ExecFor(w, Mark(name, s), i + 1, n, r.t, fuel - 1));
      } else if r.out == Broke(s.id) {
        Iterated(w, t, st, r);
      }
    }
  }

  // ----- Marking keeps programs well formed -----

  ghost predicate Keeps(s: Stmt, m: Stmt) {
    && (Deferrable(s) ==> Deferrable(m)) && (Shaped(s) ==> Shaped(m)) && (Distinct(s) ==> Distinct(m))
    && Ids(m) == Ids(s) && (forall outer :: Closed(s, outer) ==> Closed(m, outer))
  }

  ghost predicate KeepsSeq(ss: seq<Stmt>, ms: seq<Stmt>) {
    && (DeferrableSeq(ss) ==> DeferrableSeq(ms)) && (ShapedSeq(ss) ==> ShapedSeq(ms))
    && (DistinctSeq(ss) ==> DistinctSeq(ms))
    && IdsSeq(ms) == IdsSeq(ss) && (forall outer :: ClosedSeq(ss, outer) ==> ClosedSeq(ms, outer))
  }

  ghost predicate KeepsProngs(ps: seq<Prong>, ms: seq<Prong>) {
    && (DeferrableProngs(ps) ==> DeferrableProngs(ms)) && (ShapedProngs(ps) ==> ShapedProngs(ms))
    && (DistinctProngs(ps) ==> DistinctProngs(ms))
    && IdsProngs(ms) == IdsProngs(ps) && (forall outer :: ClosedProngs(ps, outer) ==> ClosedProngs(ms, outer))
  }

  lemma {:induction false} MarkKeeps(name: Naming, s: Stmt)
    ensures Keeps(s, Mark(name, s))
    decreases Size(s), 1
  {
    match s
    case Block(b) => MarkSeqKeeps(name, b);
    case If(_, _, thn, els) =>
      MarkSeqKeeps(name, thn);
      if els.Some? {
        MarkKeeps(name, els.value);
        MarkKind(name, els.value);
      }
    case Switch(_, ps) => MarkProngsKeep(name, ps);
    case While(_, _, _, _, _, b) => MarkSeqKeeps(name, b);
    case For(_, _, _, _, b) => MarkSeqKeeps(name, b);
    case Defer(d) => BodiesKeep(name, d);
    case ErrDefer(d) => BodiesKeep(name, d);
    case _ =>
  }

  lemma MarkKind(name: Naming, s: Stmt)
    ensures (s.Block? ==> Mark(name, s).Block?) && (s.If? ==> Mark(name, s).If?)
  {
  }

  /** A marked deferred body is as deferrable and as well shaped as the body. */
  lemma {:induction false} BodiesKeep(name: Naming, d: Stmt)
    ensures Deferrable(d) ==> Deferrable(MarkBody(name, d)) && Deferrable(MarkErrBody(name, d))
    ensures Shaped(d) ==> Shaped(MarkBody(name, d)) && Shaped(MarkErrBody(name, d))
    decreases Size(d), 3
  {
    hide Mark, MarkOne;
    MarkOneKeeps(name, d);
    OneKeeps(d, {});
    DoKeeps(7 * name(d) + 2, MarkInside(name, d), {});
    DoKeeps(7 * name(d) + 4, MarkInside(name, d), {});
  }

  lemma OneKeeps(s: Stmt, outer: set<LoopId>)
    ensures DeferrableSeq([s]) == Deferrable(s) && ShapedSeq([s]) == Shaped(s) && DistinctSeq([s]) == Distinct(s)
    ensures IdsSeq([s]) == Ids(s) && ClosedSeq([s], outer) == Closed(s, outer)
  {
    hide Deferrable, Shaped, Distinct, Ids, Closed;
    assert [s][1..] == [];
  }

  lemma DoKeeps(a: nat, ss: seq<Stmt>, outer: set<LoopId>)
    ensures DeferrableSeq([Do(a)] + ss) == DeferrableSeq(ss) && ShapedSeq([Do(a)] + ss) == ShapedSeq(ss)
    ensures DistinctSeq([Do(a)] + ss) == DistinctSeq(ss) && IdsSeq([Do(a)] + ss) == IdsSeq(ss)
    ensures ClosedSeq([Do(a)] + ss, outer) == ClosedSeq(ss, outer)
  {
    assert ([Do(a)] + ss)[1..] == ss;
  }

  /** A statement without ids that is deferrable, well shaped and closed changes nothing in front. */
  lemma PrefixKeeps(x: Stmt, ss: seq<Stmt>, outer: set<LoopId>)
    requires Deferrable(x) && Shaped(x) && Distinct(x) && Ids(x) == {} && Closed(x, outer)
    ensures DeferrableSeq([x] + ss) == DeferrableSeq(ss) && ShapedSeq([x] + ss) == ShapedSeq(ss)
    ensures DistinctSeq([x] + ss) == DistinctSeq(ss) && IdsSeq([x] + ss) == IdsSeq(ss)
    ensures ClosedSeq([x] + ss, outer) == ClosedSeq(ss, outer)
  {
    assert ([x] + ss)[1..] == ss;
  }

  lemma CompanionKeeps(name: Naming, d: Stmt, outer: set<LoopId>)
    ensures var x := Defer(Companion(name, d));
      Deferrable(x) && Shaped(x) && Distinct(x) && Ids(x) == {} && Closed(x, outer)
  {
    OneKeeps(Do(7 * name(d) + 5), outer);
  }

  /** The markers in front of a statement, and the statement. */
  lemma MarkOneParts(name: Naming, s: Stmt, outer: set<LoopId>)
    ensures var m, ms := Mark(name, s), MarkOne(name, s);
      && DeferrableSeq(ms) == Deferrable(m) && ShapedSeq(ms) == Shaped(m) && DistinctSeq(ms) == Distinct(m)
      && IdsSeq(ms) == Ids(m) && ClosedSeq(ms, outer) == Closed(m, outer)
  {
    hide Deferrable, Shaped, Distinct, Ids, Closed, MarkBody, MarkErrBody, Companion;
    var m := Mark(name, s);
    OneKeeps(m, outer);
    if s.Defer? {
      DoKeeps(7 * name(s.deferred) + 1, [m], outer);
      assert MarkOne(name, s) == [Do(7 * name(s.deferred) + 1)] + [m];
    } else if s.ErrDefer? {
      var c := Defer(Companion(name, s.deferred));
      CompanionKeeps(name, s.deferred, outer);
      PrefixKeeps(c, [m], outer);
      DoKeeps(7 * name(s.deferred) + 3, [c] + [m], outer);
      assert MarkOne(name, s) == [Do(7 * name(s.deferred) + 3)] + ([c] + [m]);
    } else if s.Return? {
      DoKeeps(RETURNING, [m], outer);
      assert MarkOne(name, s) == [Do(RETURNING)] + [m];
    }
  }

  lemma {:induction false} MarkOneKeeps(name: Naming, s: Stmt)
    ensures KeepsSeq([s], MarkOne(name, s))
    decreases Size(s), 2
  {
    hide Deferrable, Shaped, Distinct, Ids, Closed, Mark, MarkOne, DeferrableSeq, ShapedSeq, DistinctSeq, IdsSeq,
         ClosedSeq;
    MarkKeeps(name, s);
    OneKeeps(s, {});
    MarkOneParts(name, s, {});
    forall outer | ClosedSeq([s], outer) ensures ClosedSeq(MarkOne(name, s), outer) {
      OneKeeps(s, outer);
      MarkOneParts(name, s, outer);
    }
  }

  lemma {:induction false} MarkSeqKeeps(name: Naming, ss: seq<Stmt>)
    ensures KeepsSeq(ss, MarkSeq(name, ss))
    decreases SizeSeq(ss), 2
  {
    hide Mark, MarkOne, Deferrable, Shaped, Distinct, Ids, Closed;
    if ss != [] {
      MarkOneKeeps(name, ss[0]);
      MarkSeqKeeps(name, ss[1..]);
      assert [ss[0]][1..] == [];
      KeepsConcat([ss[0]], ss[1..], MarkOne(name, ss[0]), MarkSeq(name, ss[1..]));
      assert [ss[0]] + ss[1..] == ss;
    }
  }

  lemma {:induction false} SeqConcat(a: seq<Stmt>, b: seq<Stmt>, outer: set<LoopId>)
    ensures DeferrableSeq(a + b) == (DeferrableSeq(a) && DeferrableSeq(b))
    ensures ShapedSeq(a + b) == (ShapedSeq(a) && ShapedSeq(b))
    ensures IdsSeq(a + b) == IdsSeq(a) + IdsSeq(b)
    ensures DistinctSeq(a + b) == (DistinctSeq(a) && DistinctSeq(b) && IdsSeq(a) !! IdsSeq(b))
    ensures ClosedSeq(a + b, outer) == (ClosedSeq(a, outer) && ClosedSeq(b, outer))
    decreases |a|
  {
    hide Deferrable, Shaped, Distinct, Ids, Closed;
    if a == [] {
      assert a + b == b;
    } else {
      assert (a + b)[1..] == a[1..] + b;
      SeqConcat(a[1..], b, outer);
    }
  }

  lemma KeepsConcat(a: seq<Stmt>, b: seq<Stmt>, ma: seq<Stmt>, mb: seq<Stmt>)
    requires KeepsSeq(a, ma) && KeepsSeq(b, mb)
    ensures KeepsSeq(a + b, ma + mb)
  {
    hide DeferrableSeq, ShapedSeq, DistinctSeq, IdsSeq, ClosedSeq;
    SeqConcat(a, b, {});
    SeqConcat(ma, mb, {});
    forall outer | ClosedSeq(a + b, outer) ensures ClosedSeq(ma + mb, outer) {
      SeqConcat(a, b, outer);
      SeqConcat(ma, mb, outer);
    }
  }

  lemma {:induction false} MarkProngsKeep(name: Naming, ps: seq<Prong>)
    ensures KeepsProngs(ps, MarkProngs(name, ps))
    decreases SizeProngs(ps), 2
  {
    if ps != [] {
      MarkSeqKeeps(name, ps[0].body);
      MarkProngsKeep(name, ps[1..]);
      assert MarkProngs(name, ps)[1..] == MarkProngs(name, ps[1..]);
    }
  }

  // ----- The result, for emitted code -----

  function MarkFunction(name: Naming, fn: Function): Function {
    fn.(body := MarkSeq(name, fn.body))
  }

  /**
   However an emitted function halts, every registered defer has run exactly once and in last-in first-out
   order.  On an error return the errdefers that were registered in the scopes open when the return began
   have each started exactly once, innermost scope first and last registered first; otherwise none has.
   */
  lemma DefersRunOnceInOrder(w: World, name: Naming, fn: Function, n: nat)
    requires fn.WellFormed() && w.errorUnion == fn.errorUnion
    ensures var marked := MarkFunction(name, fn);
      marked.WellFormed() &&
      var c := Steps(w, EmitFunction(marked), START, n);
      && (c.Halted? ==> Pending(c.t) == Some([]))
      && (c.Halted? && !(c.how.ReturnedValue? && w.ErrorReturn(c.how.v)) ==> ErrRuns(c.t) == [])
      && (c.Halted? && c.how.ReturnedValue? && w.ErrorReturn(c.how.v) ==>
            AtReturn(c.t).Some? && ErrRuns(c.t) == Reversed(AtReturn(c.t).value))
      && (c.Trapped? ==> Pending(c.t).Some?)
  {
    hide EmitFunction, Steps, MarkSeq, ExecSeq, KeepsSeq, ShapedSeq, DistinctSeq, ClosedSeq, Pending, ErrRuns,
         AtReturn, Balanced, Reversed;
    var marked := MarkFunction(name, fn);
    MarkedWellFormed(name, fn);
    var c := Steps(w, EmitFunction(marked), START, n);
    if c.Halted? || c.Trapped? {
      var m := EmittedFollowsSource(w, marked, n + 1);
      Settled(w, EmitFunction(marked), START, n, m);
      NothingYet();
      BalancedBlock(w, name, fn.body, [], [], n + 1);
      BalancedAll(w, RunSource(w, marked, n + 1));
    }
  }

  lemma NothingYet()
    ensures Pending([]) == Some([]) && ErrRuns([]) == []
  {
  }

  /** What balance says about a whole run. */
  lemma BalancedAll(w: World, r: Res)
    requires Balanced(w, [], [], r)
    ensures Pending(r.t).Some? && (r.out.Normal? || r.out.Returned? ==> Pending(r.t) == Some([]))
    ensures !Failing(w, r.out) && !r.out.Panicked? ==> ErrRuns(r.t) == []
    ensures Failing(w, r.out) ==> AtReturn(r.t).Some? && ErrRuns(r.t) == Reversed(AtReturn(r.t).value)
  {
    hide Pending, AtReturn, ErrRuns, Reversed;
    NothingYet();
    AllStarted(r.t);
  }

  lemma AllStarted(t: Trace)
    ensures Started([], [], t) ==> AtReturn(t).Some? && ErrRuns(t) == Reversed(AtReturn(t).value)
  {
    hide Pending, AtReturn, Reversed;
    if Started([], [], t) {
      var es := AtReturn(t).value;
      assert es[0..] == es;
    }
  }

  lemma MarkedWellFormed(name: Naming, fn: Function)
    requires fn.WellFormed()
    ensures MarkFunction(name, fn).WellFormed()
  {
    hide MarkSeq, ShapedSeq, DistinctSeq, ClosedSeq;
    MarkSeqKeeps(name, fn.body);
  }
}
