/**
 Structured function bodies as the C emitter receives them: nested blocks, labelled loops,
 break/continue/return, `defer` and `errdefer`.  Every branch and loop body is a block,
 because the lifter wraps bare statements before emission.
 */
module Source {
  import opened Options

  type LoopId = nat
  type Trace = seq<Event>

  /** Observable actions; what a run did so far is the only state. */
  datatype Event =
    | Did(action: nat)                  // an expression statement, assignment or capture
    | Tested(test: nat)                 // a condition was evaluated
    | Read(operand: nat)                // a switch operand, loop bound or return operand was evaluated
    | Bound(loop: LoopId, index: int)   // a `for` loop bound its item to this index

  /** A case item: one constant or a constant range. */
  datatype Item = One(v: int) | Span(lo: int, hi: int, inclusive: bool)

  datatype Prong = Prong(items: seq<Item>, isElse: bool, capture: seq<nat>, body: seq<Stmt>)

  datatype Stmt =
    | Do(action: nat)
    | Unreachable
    | Block(body: seq<Stmt>)
    | If(test: nat, capture: seq<nat>, thn: seq<Stmt>, els: Option<Stmt>)
    | Switch(operand: nat, prongs: seq<Prong>)
    | While(id: LoopId, test: nat, captured: bool, capture: seq<nat>, step: seq<nat>, body: seq<Stmt>)
    | For(id: LoopId, setup: seq<nat>, lo: nat, hi: nat, body: seq<Stmt>)
    | Break(target: LoopId)
    | Continue(target: LoopId)
    | Return(operand: nat, boxed: bool)
    | Defer(deferred: Stmt)
    | ErrDefer(deferred: Stmt)

  /** How a run answers conditions, operands and error tests; any deterministic program is some `World`. */
  datatype World = World(
    test: (nat, Trace) -> bool,
    value: (nat, Trace) -> int,
    isError: int -> bool,
    box: int -> int,           // wraps a payload as a value of the return type
    errorUnion: bool)          // the function's return type is an error union
  {
    /** What `return` hands to the caller: the operand's value, wrapped if its type is not the return type. */
    function Result(operand: nat, boxed: bool, t: Trace): int {
      if boxed then box(value(operand, t)) else value(operand, t)
    }

    predicate ErrorReturn(v: int) {
      errorUnion && isError(v)
    }
  }

  // ----- Sizes, used as termination measures -----

  function Size(s: Stmt): nat
    decreases s
  {
    match s
    case Block(b) => 1 + SizeSeq(b)
    case If(_, _, thn, els) => 1 + SizeSeq(thn) + (if els.Some? then Size(els.value) else 0)
    case Switch(_, ps) => 1 + SizeProngs(ps)
    case While(_, _, _, _, _, b) => 1 + SizeSeq(b)
    case For(_, _, _, _, b) => 1 + SizeSeq(b)
    case Defer(d) => 1 + Size(d)
    case ErrDefer(d) => 1 + Size(d)
    case _ => 1
  }

  function SizeSeq(ss: seq<Stmt>): nat
    decreases ss
  {
    if ss == [] then 0 else 1 + Size(ss[0]) + SizeSeq(ss[1..])
  }

  function SizeProngs(ps: seq<Prong>): nat
    decreases ps
  {
    if ps == [] then 0 else 1 + SizeSeq(ps[0].body) + SizeProngs(ps[1..])
  }

  lemma {:induction false} SizeSeqAppend(a: seq<Stmt>, d: Stmt)
    ensures SizeSeq(a + [d]) == SizeSeq(a) + 1 + Size(d)
  {
    if a == [] {
      assert [d][1..] == [];
    } else {
      assert (a + [d])[1..] == a[1..] + [d];
      SizeSeqAppend(a[1..], d);
    }
  }

  lemma SizeSeqInit(a: seq<Stmt>)
    requires a != []
    ensures SizeSeq(a) == SizeSeq(a[..|a| - 1]) + 1 + Size(a[|a| - 1])
  {
    assert a == a[..|a| - 1] + [a[|a| - 1]];
    SizeSeqAppend(a[..|a| - 1], a[|a| - 1]);
  }

  lemma {:induction false} SizeProngsMember(ps: seq<Prong>, k: nat)
    requires k < |ps|
    ensures SizeSeq(ps[k].body) < SizeProngs(ps)
  {
    if k > 0 {
      SizeProngsMember(ps[1..], k - 1);
    }
  }

  // ----- Static conditions -----

  /** No loop and no jump: what the type checker admits as a deferred body, plus loop-freedom. */
  predicate Deferrable(s: Stmt)
    decreases s
  {
    match s
    case Do(_) => true
    case Unreachable => true
    case Block(b) => DeferrableSeq(b)
    case If(_, _, thn, els) => DeferrableSeq(thn) && (els.Some? ==> Deferrable(els.value))
    case Switch(_, ps) => DeferrableProngs(ps)
    case Defer(d) => Deferrable(d)
    case ErrDefer(d) => Deferrable(d)
    case _ => false
  }

  predicate DeferrableSeq(ss: seq<Stmt>)
    decreases ss
  {
    ss == [] || (Deferrable(ss[0]) && DeferrableSeq(ss[1..]))
  }

  predicate DeferrableProngs(ps: seq<Prong>)
    decreases ps
  {
    ps == [] || (DeferrableSeq(ps[0].body) && DeferrableProngs(ps[1..]))
  }

  /** Deferred bodies are deferrable and an `else` branch is a block or another `if`. */
  predicate Shaped(s: Stmt)
    decreases s
  {
    match s
    case Block(b) => ShapedSeq(b)
    case If(_, _, thn, els) =>
      ShapedSeq(thn) && (els.Some? ==> (els.value.Block? || els.value.If?) && Shaped(els.value))
    case Switch(_, ps) => ShapedProngs(ps)
    case While(_, _, _, _, _, b) => ShapedSeq(b)
    case For(_, _, _, _, b) => ShapedSeq(b)
    case Defer(d) => Deferrable(d) && Shaped(d)
    case ErrDefer(d) => Deferrable(d) && Shaped(d)
    case _ => true
  }

  predicate ShapedSeq(ss: seq<Stmt>)
    decreases ss
  {
    ss == [] || (Shaped(ss[0]) && ShapedSeq(ss[1..]))
  }

  predicate ShapedProngs(ps: seq<Prong>)
    decreases ps
  {
    ps == [] || (ShapedSeq(ps[0].body) && ShapedProngs(ps[1..]))
  }

  /** Loop ids occurring in a statement. */
  function Ids(s: Stmt): set<LoopId>
    decreases s
  {
    match s
    case Block(b) => IdsSeq(b)
    case If(_, _, thn, els) => IdsSeq(thn) + (if els.Some? then Ids(els.value) else {})
    case Switch(_, ps) => IdsProngs(ps)
    case While(id, _, _, _, _, b) => {id} + IdsSeq(b)
    case For(id, _, _, _, b) => {id} + IdsSeq(b)
    case _ => {}
  }

  function IdsSeq(ss: seq<Stmt>): set<LoopId>
    decreases ss
  {
    if ss == [] then {} else Ids(ss[0]) + IdsSeq(ss[1..])
  }

  function IdsProngs(ps: seq<Prong>): set<LoopId>
    decreases ps
  {
    if ps == [] then {} else IdsSeq(ps[0].body) + IdsProngs(ps[1..])
  }

  /** No two loops share an id. */
  predicate Distinct(s: Stmt)
    decreases s
  {
    match s
    case Block(b) => DistinctSeq(b)
    case If(_, _, thn, els) =>
      DistinctSeq(thn) && (els.Some? ==> Distinct(els.value) && IdsSeq(thn) !! Ids(els.value))
    case Switch(_, ps) => DistinctProngs(ps)
    case While(id, _, _, _, _, b) => id !in IdsSeq(b) && DistinctSeq(b)
    case For(id, _, _, _, b) => id !in IdsSeq(b) && DistinctSeq(b)
    case _ => true
  }

  predicate DistinctSeq(ss: seq<Stmt>)
    decreases ss
  {
    ss == [] || (Distinct(ss[0]) && DistinctSeq(ss[1..]) && Ids(ss[0]) !! IdsSeq(ss[1..]))
  }

  predicate DistinctProngs(ps: seq<Prong>)
    decreases ps
  {
    ps == [] || (DistinctSeq(ps[0].body) && DistinctProngs(ps[1..]) && IdsSeq(ps[0].body) !! IdsProngs(ps[1..]))
  }

  /** Every break and continue targets an enclosing loop, or one in `outer`. */
  predicate Closed(s: Stmt, outer: set<LoopId>)
    decreases s
  {
    match s
    case Block(b) => ClosedSeq(b, outer)
    case If(_, _, thn, els) => ClosedSeq(thn, outer) && (els.Some? ==> Closed(els.value, outer))
    case Switch(_, ps) => ClosedProngs(ps, outer)
    case While(id, _, _, _, _, b) => ClosedSeq(b, outer + {id})
    case For(id, _, _, _, b) => ClosedSeq(b, outer + {id})
    case Break(id) => id in outer
    case Continue(id) => id in outer
    case _ => true
  }

  predicate ClosedSeq(ss: seq<Stmt>, outer: set<LoopId>)
    decreases ss
  {
    ss == [] || (Closed(ss[0], outer) && ClosedSeq(ss[1..], outer))
  }

  predicate ClosedProngs(ps: seq<Prong>, outer: set<LoopId>)
    decreases ps
  {
    ps == [] || (ClosedSeq(ps[0].body, outer) && ClosedProngs(ps[1..], outer))
  }

  /** Some `errdefer` occurs in the statement, deferred bodies included. */
  predicate HasErrDefer(s: Stmt)
    decreases s
  {
    match s
    case Block(b) => HasErrDeferSeq(b)
    case If(_, _, thn, els) => HasErrDeferSeq(thn) || (els.Some? && HasErrDefer(els.value))
    case Switch(_, ps) => HasErrDeferProngs(ps)
    case While(_, _, _, _, _, b) => HasErrDeferSeq(b)
    case For(_, _, _, _, b) => HasErrDeferSeq(b)
    case Defer(d) => HasErrDefer(d)
    case ErrDefer(_) => true
    case _ => false
  }

  predicate HasErrDeferSeq(ss: seq<Stmt>)
    decreases ss
  {
    ss != [] && (HasErrDefer(ss[0]) || HasErrDeferSeq(ss[1..]))
  }

  predicate HasErrDeferProngs(ps: seq<Prong>)
    decreases ps
  {
    ps != [] && (HasErrDeferSeq(ps[0].body) || HasErrDeferProngs(ps[1..]))
  }

  /** The emitter's test for "control never falls out of this statement". */
  predicate AllPathsExit(s: Stmt)
    decreases s
  {
    match s
    case Unreachable => true
    case Break(_) => true
    case Continue(_) => true
    case Return(_, _) => true
    case Block(b) => SomeExits(b)
    case If(_, _, thn, els) => els.Some? && SomeExits(thn) && AllPathsExit(els.value)
    case Switch(_, ps) => ps != [] && HasElse(ps) && AllProngsExit(ps)
    case _ => false
  }

  predicate SomeExits(ss: seq<Stmt>)
    decreases ss
  {
    ss != [] && (AllPathsExit(ss[0]) || SomeExits(ss[1..]))
  }

  predicate AllProngsExit(ps: seq<Prong>)
    decreases ps
  {
    ps == [] || (SomeExits(ps[0].body) && AllProngsExit(ps[1..]))
  }

  predicate HasElse(ps: seq<Prong>) {
    ps != [] && (ps[0].isElse || HasElse(ps[1..]))
  }

  // ----- Switch selection -----

  predicate Covers(items: seq<Item>, v: int) {
    exists i :: 0 <= i < |items| && CoversItem(items[i], v)
  }

  predicate CoversItem(item: Item, v: int) {
    match item
    case One(c) => v == c
    case Span(lo, hi, inclusive) => lo <= v && (if inclusive then v <= hi else v < hi)
  }

  /** Index of the first prong listing `v`, or the number of prongs. */
  function FirstListed(ps: seq<Prong>, v: int): (k: nat)
    ensures k <= |ps|
  {
    if ps == [] then 0
    else if !ps[0].isElse && Covers(ps[0].items, v) then 0
    else 1 + FirstListed(ps[1..], v)
  }

  function FirstElse(ps: seq<Prong>): (k: nat)
    ensures k <= |ps|
  {
    if ps == [] || ps[0].isElse then 0 else 1 + FirstElse(ps[1..])
  }

  /** The prong a value selects: the one listing it, otherwise the `else` prong, otherwise none. */
  function Pick(ps: seq<Prong>, v: int): (k: nat)
    ensures k <= |ps|
  {
    if FirstListed(ps, v) < |ps| then FirstListed(ps, v) else FirstElse(ps)
  }

  lemma {:induction false} ProngFacts(ps: seq<Prong>, k: nat, outer: set<LoopId>)
    requires k < |ps|
    ensures ShapedProngs(ps) ==> ShapedSeq(ps[k].body)
    ensures DeferrableProngs(ps) ==> DeferrableSeq(ps[k].body)
    ensures DistinctProngs(ps) ==> DistinctSeq(ps[k].body)
    ensures ClosedProngs(ps, outer) ==> ClosedSeq(ps[k].body, outer)
    ensures HasErrDeferSeq(ps[k].body) ==> HasErrDeferProngs(ps)
    ensures AllProngsExit(ps) ==> SomeExits(ps[k].body)
    ensures IdsSeq(ps[k].body) <= IdsProngs(ps)
  {
    if k > 0 {
      ProngFacts(ps[1..], k - 1, outer);
    }
  }

  lemma {:induction false} ElseSelects(ps: seq<Prong>)
    requires HasElse(ps)
    ensures FirstElse(ps) < |ps|
  {
    if !ps[0].isElse {
      ElseSelects(ps[1..]);
    }
  }

  // ----- What the static conditions say about the parts of a statement -----

  lemma IfParts(s: Stmt, outer: set<LoopId>)
    requires s.If?
    ensures Shaped(s) ==> ShapedSeq(s.thn) && (s.els.Some? ==> Shaped(s.els.value))
    ensures Distinct(s) ==>
      DistinctSeq(s.thn) && (s.els.Some? ==> Distinct(s.els.value) && IdsSeq(s.thn) !! Ids(s.els.value))
    ensures Deferrable(s) ==> DeferrableSeq(s.thn) && (s.els.Some? ==> Deferrable(s.els.value))
    ensures !HasErrDefer(s) ==> !HasErrDeferSeq(s.thn) && (s.els.Some? ==> !HasErrDefer(s.els.value))
    ensures IdsSeq(s.thn) <= Ids(s) && (s.els.Some? ==> Ids(s.els.value) <= Ids(s))
    ensures SizeSeq(s.thn) < Size(s) && (s.els.Some? ==> Size(s.els.value) < Size(s))
    ensures Closed(s, outer) ==> ClosedSeq(s.thn, outer) && (s.els.Some? ==> Closed(s.els.value, outer))
  {
  }

  lemma SwitchParts(s: Stmt, k: nat, outer: set<LoopId>)
    requires s.Switch? && k < |s.prongs|
    ensures Shaped(s) ==> ShapedProngs(s.prongs) && ShapedSeq(s.prongs[k].body)
    ensures Distinct(s) ==> DistinctSeq(s.prongs[k].body)
    ensures Deferrable(s) ==> DeferrableSeq(s.prongs[k].body)
    ensures !HasErrDefer(s) ==> !HasErrDeferSeq(s.prongs[k].body)
    ensures IdsSeq(s.prongs[k].body) <= Ids(s)
    ensures SizeSeq(s.prongs[k].body) < Size(s)
    ensures Closed(s, outer) ==> ClosedSeq(s.prongs[k].body, outer)
  {
    ProngFacts(s.prongs, k, outer);
    SizeProngsMember(s.prongs, k);
  }

  lemma LoopParts(s: Stmt, outer: set<LoopId>)
    requires s.While? || s.For?
    ensures Shaped(s) ==> ShapedSeq(s.body)
    ensures Distinct(s) ==> DistinctSeq(s.body) && s.id !in IdsSeq(s.body)
    ensures !Deferrable(s)
    ensures !HasErrDefer(s) ==> !HasErrDeferSeq(s.body)
    ensures Ids(s) == IdsSeq(s.body) + {s.id}
    ensures SizeSeq(s.body) < Size(s)
    ensures Closed(s, outer) ==> ClosedSeq(s.body, outer + {s.id})
  {
  }

  lemma SeqParts(ss: seq<Stmt>, outer: set<LoopId>)
    requires ss != []
    ensures ShapedSeq(ss) ==> Shaped(ss[0]) && ShapedSeq(ss[1..])
    ensures DistinctSeq(ss) ==> Distinct(ss[0]) && DistinctSeq(ss[1..]) && Ids(ss[0]) !! IdsSeq(ss[1..])
    ensures DeferrableSeq(ss) ==> Deferrable(ss[0]) && DeferrableSeq(ss[1..])
    ensures !HasErrDeferSeq(ss) ==> !HasErrDefer(ss[0]) && !HasErrDeferSeq(ss[1..])
    ensures IdsSeq(ss) == Ids(ss[0]) + IdsSeq(ss[1..])
    ensures SizeSeq(ss) == 1 + Size(ss[0]) + SizeSeq(ss[1..])
    ensures ClosedSeq(ss, outer) ==> Closed(ss[0], outer) && ClosedSeq(ss[1..], outer)
  {
  }

  lemma DeferParts(s: Stmt)
    requires s.Defer? || s.ErrDefer?
    ensures Shaped(s) ==> Shaped(s.deferred) && Deferrable(s.deferred)
    ensures !HasErrDefer(s) ==> s.Defer? && !HasErrDefer(s.deferred)
    ensures Size(s) == 1 + Size(s.deferred) && Ids(s) == {}
  {
  }
}
