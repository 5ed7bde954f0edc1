/**
 Meaning of structured bodies: a fuelled big-step semantics over event traces.
 Fuel counts loop iterations only; `Timeout` carries the trace produced so far, so a
 diverging run is the family of its finite prefixes.
 */
module SourceSemantics {
  import opened Source

  datatype Outcome =
    | Normal
    | Broke(id: LoopId)
    | Continued(id: LoopId)
    | Returned(v: int)
    | Panicked
    | Timeout

  datatype Res = Res(out: Outcome, t: Trace)

  function Acts(actions: seq<nat>): (events: seq<Event>)
  {
    seq(|actions|, i requires 0 <= i < |actions| => Did(actions[i]))
  }

  function Exec(w: World, s: Stmt, t: Trace, fuel: nat): Res
    decreases fuel, Size(s), 1
  {
    match s
    case Do(a) => Res(Normal, t + [Did(a)])
    case Unreachable => Res(Panicked, t)
    case Block(b) => ExecSeq(w, b, [], [], t, fuel)
    case If(c, capture, thn, els) =>
      if w.test(c, t) then ExecSeq(w, thn, [], [], t + [Tested(c)] + Acts(capture), fuel)
      else if els.Some? then Exec(w, els.value, t + [Tested(c)], fuel)
      else Res(Normal, t + [Tested(c)])
    case Switch(e, ps) =>
      var k := Pick(ps, w.value(e, t));
      if k < |ps| then
        SizeProngsMember(ps, k);
        ExecSeq(w, ps[k].body, [], [], t + [Read(e)] + Acts(ps[k].capture), fuel)
      else Res(Normal, t + [Read(e)])
    case While(_, _, _, _, _, _) => ExecWhile(w, s, t, fuel)
    case For(_, setup, lo, hi, _) =>
      var t1 := t + Acts(setup);
      var t2 := t1 + [Read(lo)];
      ExecFor(w, s, w.value(lo, t1), w.value(hi, t2), t2 + [Read(hi)], fuel)
    case Break(id) => Res(Broke(id), t)
    case Continue(id) => Res(Continued(id), t)
    case Return(e, boxed) => Res(Returned(w.Result(e, boxed, t)), t + [Read(e)])
    case Defer(_) => Res(Normal, t)
    case ErrDefer(_) => Res(Normal, t)
  }

  /** Runs the rest of a block whose scope has already registered `ds` and `es`. */
  function ExecSeq(w: World, rest: seq<Stmt>, ds: seq<Stmt>, es: seq<Stmt>, t: Trace, fuel: nat): Res
    decreases fuel, SizeSeq(rest) + SizeSeq(ds) + SizeSeq(es), 4
  {
    if rest == [] then Leave(w, Normal, ds, es, t)
    else if rest[0].Defer? then
      SizeSeqAppend(ds, rest[0].deferred);
      assert Size(rest[0]) == 1 + Size(rest[0].deferred);
      ExecSeq(w, rest[1..], ds + [rest[0].deferred], es, t, fuel)
    else if rest[0].ErrDefer? then
      SizeSeqAppend(es, rest[0].deferred);
      assert Size(rest[0]) == 1 + Size(rest[0].deferred);
      ExecSeq(w, rest[1..], ds, es + [rest[0].deferred], t, fuel)
    else
      var r := Exec(w, rest[0], t, fuel);
      if r.out.Normal? then ExecSeq(w, rest[1..], ds, es, r.t, fuel)
      else Leave(w, r.out, ds, es, r.t)
  }

  /** Leaves a scope with the given outcome; a panic runs nothing more. */
  function Leave(w: World, out: Outcome, ds: seq<Stmt>, es: seq<Stmt>, t: Trace): Res
    decreases 0, SizeSeq(ds) + SizeSeq(es), 3
  {
    if out.Panicked? || out.Timeout? then Res(out, t)
    else
      var u := LeaveScope(w, ds, es, out.Returned? && w.ErrorReturn(out.v), t);
      if u.out.Normal? then Res(out, u.t) else u
  }

  /** A scope's exit code: plain defers in reverse, then on an error return the errdefers in reverse. */
  function LeaveScope(w: World, ds: seq<Stmt>, es: seq<Stmt>, failing: bool, t: Trace): Res
    decreases 0, SizeSeq(ds) + SizeSeq(es), 2
  {
    var u := RunDeferred(w, ds, t);
    if u.out.Normal? && failing then RunDeferred(w, es, u.t) else u
  }

  /** Deferred bodies are loop-free, so they need no fuel of their own. */
  function RunDeferred(w: World, ds: seq<Stmt>, t: Trace): Res
    decreases 0, SizeSeq(ds), 1
  {
    if ds == [] then Res(Normal, t)
    else
      SizeSeqInit(ds);
      var r := Exec(w, ds[|ds| - 1], t, 0);
      if r.out.Normal? then RunDeferred(w, ds[..|ds| - 1], r.t) else r
  }

  function ExecWhile(w: World, s: Stmt, t: Trace, fuel: nat): Res
    requires s.While?
    decreases fuel, Size(s), 0
  {
    if fuel == 0 then Res(Timeout, t)
    else if !w.test(s.test, t) then Res(Normal, t + [Tested(s.test)])
    else
      var r := ExecSeq(w, s.body, [], [], t + [Tested(s.test)] + Acts(s.capture), fuel - 1);
      if r.out == Broke(s.id) then Res(Normal, r.t)
      else if r.out.Normal? || r.out == Continued(s.id) then ExecWhile(w, s, r.t + Acts(s.step), fuel - 1)
      else r
  }

  function ExecFor(w: World, s: Stmt, i: int, n: int, t: Trace, fuel: nat): Res
    requires s.For?
    decreases fuel, Size(s), 0
  {
    if fuel == 0 then Res(Timeout, t)
    else if i >= n then Res(Normal, t)
    else
      var r := ExecSeq(w, s.body, [], [], t + [Bound(s.id, i)], fuel - 1);
      if r.out == Broke(s.id) then Res(Normal, r.t)
      else if r.out.Normal? || r.out == Continued(s.id) then ExecFor(w, s, i + 1, n, r.t, fuel - 1)
      else r
  }
}
