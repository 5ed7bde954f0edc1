/**
 What the emitter appends for each construct, as a function of the compile-time defer stack.
 */
module Emission {
  import opened Source
  import opened Target

  const NO_LABEL: int := -1

  /** One entry of the defer stack: the loop whose body this block is (or NO_LABEL) and what it has registered. */
  datatype Scope = Scope(owner: int, defers: seq<Stmt>, errDefers: seq<Stmt>)

  type Stack = seq<Scope>

  function Rank(s: Stmt): nat {
    if Deferrable(s) then 0 else 1
  }

  function RankSeq(ss: seq<Stmt>): nat {
    if DeferrableSeq(ss) then 0 else 1
  }

  /** Registered bodies are loop-free, jump-free and themselves well shaped. */
  predicate GoodBodies(ds: seq<Stmt>) {
    forall i :: 0 <= i < |ds| ==> Deferrable(ds[i]) && Shaped(ds[i])
  }

  predicate GoodScope(sc: Scope) {
    GoodBodies(sc.defers) && GoodBodies(sc.errDefers)
  }

  predicate GoodStack(stack: Stack) {
    forall i :: 0 <= i < |stack| ==> GoodScope(stack[i])
  }

  function ActCode(actions: seq<nat>): Program {
    seq(|actions|, i requires 0 <= i < |actions| => Act(actions[i]))
  }

  function Expand(item: Item): seq<int> {
    match item
    case One(v) => [v]
    case Span(lo, hi, inclusive) =>
      var last := if inclusive then hi else hi - 1;
      seq(if lo <= last then last - lo + 1 else 0, k => lo + k)
  }

  function ExpandAll(items: seq<Item>): seq<int> {
    if items == [] then [] else Expand(items[0]) + ExpandAll(items[1..])
  }

  predicate HasPending(stack: Stack) {
    exists i :: 0 <= i < |stack| && (stack[i].defers != [] || stack[i].errDefers != [])
  }

  function EmitStmt(flag: bool, s: Stmt, stack: Stack): Program
    requires Shaped(s) && GoodStack(stack)
    decreases Rank(s), Size(s), 1
  {
    match s
    case Do(a) => [Act(a)]
    case Unreachable => [Trap]
    case Block(b) => EmitSeq(flag, b, stack, Scope(NO_LABEL, [], []))
    case If(c, capture, thn, els) =>
      var a := ActCode(capture) + EmitSeq(flag, thn, stack, Scope(NO_LABEL, [], []));
      if els.None? then [BranchUnless(c, |a| + 1)] + a
      else
        var b := EmitStmt(flag, els.value, stack);
        [BranchUnless(c, |a| + 2)] + (a + ([Jump(|b| + 1)] + b))
    case Switch(e, ps) =>
      var bodies := EmitProngs(flag, ps, stack);
      [SwitchOn(e, Arms(flag, ps, stack, 1), |bodies| + 1)] + bodies
    case While(id, c, captured, capture, step, body) =>
      var b := EmitSeq(flag, body, stack, Scope(id, [], []));
      WhileCode(s, b)
    case For(id, setup, lo, hi, body) =>
      var b := EmitSeq(flag, body, stack, Scope(id, [], []));
      ForCode(s, b)
    case Break(id) => EmitExit(flag, stack, |stack|, id) + [Goto(LoopEnd(id))]
    case Continue(id) => EmitExit(flag, stack, |stack|, id) + [Goto(LoopContinue(id))]
    case Return(e, boxed) =>
      if HasPending(stack) || boxed then
        [Evaluate(e, boxed)] + ((if flag then [FlagIfError] else [])
          + (EmitExit(flag, stack, |stack|, NO_LABEL) + [ReturnEvaluated]))
      else [ReturnNow(e)]
    case Defer(_) => []
    case ErrDefer(_) => []
  }

  /** The continue label is written only if the body jumped to it. */
  function ContinueLabel(id: LoopId, body: Program): Program {
    if Goto(LoopContinue(id)) in body then [Lab(LoopContinue(id))] else []
  }

  function WhileTail(s: Stmt, body: Program): Program
    requires s.While?
  {
    ContinueLabel(s.id, body) + (ActCode(s.step) + [Goto(LoopStart(s.id))])
  }

  function WhileInner(s: Stmt, body: Program): Program
    requires s.While?
  {
    ActCode(s.capture) + (body + WhileTail(s, body))
  }

  /** A capturing loop is additionally wrapped in C's `while (1)`, whose back edge is never reached. */
  function WhileClose(s: Stmt, body: Program): Program
    requires s.While?
  {
    (if s.captured then [Jump(-(|WhileInner(s, body)| as int) - 1)] else []) + [Lab(LoopEnd(s.id))]
  }

  function WhileCode(s: Stmt, body: Program): Program
    requires s.While?
  {
    [Lab(LoopStart(s.id))] + ([GotoUnless(s.test, LoopEnd(s.id))] + (WhileInner(s, body) + WhileClose(s, body)))
  }

  function ForTail(s: Stmt, body: Program): Program
    requires s.For?
  {
    ContinueLabel(s.id, body) + [Advance(s.id), Goto(LoopStart(s.id))]
  }

  function ForInner(s: Stmt, body: Program): Program
    requires s.For?
  {
    [BindItem(s.id)] + (body + ForTail(s, body))
  }

  /** C's `while (idx < len)` with a jump to the start label inside; its own back edge is never reached. */
  function ForLoop(s: Stmt, body: Program): Program
    requires s.For?
  {
    var k: int := |ForInner(s, body)|;
    [Lab(LoopStart(s.id))] + ([BranchIfDone(s.id, k + 2)] + (ForInner(s, body) + [Jump(-k - 1), Lab(LoopEnd(s.id))]))
  }

  function ForCode(s: Stmt, body: Program): Program
    requires s.For?
  {
    ActCode(s.setup) + ([SetIndex(s.id, s.lo), SetLength(s.id, s.hi)] + ForLoop(s, body))
  }

  /** The remaining statements of a block; everything after one that never falls through is dropped. */
  function EmitSeq(flag: bool, rest: seq<Stmt>, stack: Stack, sc: Scope): Program
    requires ShapedSeq(rest) && GoodStack(stack) && GoodScope(sc)
    decreases RankSeq(rest), SizeSeq(rest) + SizeSeq(sc.defers) + SizeSeq(sc.errDefers), 4
  {
    if rest == [] then EmitBodies(flag, sc.defers, stack + [sc])
    else if rest[0].Defer? then
      SizeSeqAppend(sc.defers, rest[0].deferred);
      assert Size(rest[0]) == 1 + Size(rest[0].deferred) && Shaped(rest[0]);
      EmitSeq(flag, rest[1..], stack, sc.(defers := sc.defers + [rest[0].deferred]))
    else if rest[0].ErrDefer? then
      SizeSeqAppend(sc.errDefers, rest[0].deferred);
      assert Size(rest[0]) == 1 + Size(rest[0].deferred) && Shaped(rest[0]);
      EmitSeq(flag, rest[1..], stack, sc.(errDefers := sc.errDefers + [rest[0].deferred]))
    else
      var c := EmitStmt(flag, rest[0], stack + [sc]);
      if AllPathsExit(rest[0]) then c else c + EmitSeq(flag, rest[1..], stack, sc)
  }

  /** Deferred bodies, last registered first. */
  function EmitBodies(flag: bool, ds: seq<Stmt>, stack: Stack): Program
    requires GoodBodies(ds) && GoodStack(stack)
    decreases 0, SizeSeq(ds), 2
  {
    if ds == [] then []
    else
      SizeSeqInit(ds);
      EmitStmt(flag, ds[|ds| - 1], stack) + EmitBodies(flag, ds[..|ds| - 1], stack)
  }

  /** Exit code of the innermost `k` scopes' worth of unwinding, stopping after the scope labelled `target`. */
  function EmitExit(flag: bool, stack: Stack, k: nat, target: int): Program
    requires GoodStack(stack) && k <= |stack|
    decreases 1, 0, k
  {
    if k == 0 then []
    else
      var sc := stack[k - 1];
      EmitBodies(flag, sc.defers, stack) +
      (ErrCode(flag, sc, stack) +
       (if target != NO_LABEL && sc.owner == target then [] else EmitExit(flag, stack, k - 1, target)))
  }

  function ErrCode(flag: bool, sc: Scope, stack: Stack): Program
    requires GoodScope(sc) && GoodStack(stack)
    decreases 0, SizeSeq(sc.errDefers), 3
  {
    if sc.errDefers != [] && flag then
      var e := EmitBodies(flag, sc.errDefers, stack);
      [BranchUnlessFlag(|e| + 1)] + e
    else []
  }

  function ProngCode(flag: bool, pr: Prong, stack: Stack): Program
    requires ShapedSeq(pr.body) && GoodStack(stack)
    decreases RankSeq(pr.body), SizeSeq(pr.body), 5
  {
    ActCode(pr.capture) + EmitSeq(flag, pr.body, stack, Scope(NO_LABEL, [], []))
  }

  /** Prong bodies in order, each followed by C's `break;`. */
  function EmitProngs(flag: bool, ps: seq<Prong>, stack: Stack): Program
    requires ShapedProngs(ps) && GoodStack(stack)
    decreases (if DeferrableProngs(ps) then 0 else 1), SizeProngs(ps), 6
  {
    if ps == [] then []
    else
      var rest := EmitProngs(flag, ps[1..], stack);
      ProngCode(flag, ps[0], stack) + ([Jump(|rest| + 1)] + rest)
  }

  function Arms(flag: bool, ps: seq<Prong>, stack: Stack, offset: int): (arms: seq<Arm>)
    requires ShapedProngs(ps) && GoodStack(stack)
    decreases (if DeferrableProngs(ps) then 0 else 1), SizeProngs(ps), 6
  {
    if ps == [] then []
    else
      [Arm(if ps[0].isElse then [] else ExpandAll(ps[0].items), ps[0].isElse, offset)] +
      Arms(flag, ps[1..], stack, offset + |ProngCode(flag, ps[0], stack)| + 1)
  }

  /** A function: its body and whether falling off the end writes a closing return. */
  datatype Function = Function(body: seq<Stmt>, errorUnion: bool, closingReturn: bool)
  {
    /** The error flag exists only in error-union functions that contain an errdefer. */
    predicate UsesFlag() {
      errorUnion && HasErrDeferSeq(body)
    }

    predicate WellFormed() {
      ShapedSeq(body) && DistinctSeq(body) && ClosedSeq(body, {})
    }
  }

  function EmitFunction(fn: Function): Program
    requires fn.WellFormed()
  {
    EmitSeq(fn.UsesFlag(), fn.body, [], Scope(NO_LABEL, [], [])) +
    (if fn.closingReturn && !SomeExits(fn.body) then [ReturnImplicit] else [])
  }
}
