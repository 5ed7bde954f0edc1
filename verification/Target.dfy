/**
 The emitted C function body as a flat program.  C's own `if`, `while` and `switch` become relative
 jumps; the labels and gotos the emitter writes itself stay symbolic.
 */
module Target {
  import opened Source

  datatype Label = LoopStart(id: LoopId) | LoopContinue(id: LoopId) | LoopEnd(id: LoopId)

  datatype Arm = Arm(cases: seq<int>, isDefault: bool, offset: int)

  datatype Instr =
    | Act(action: nat)
    | BranchUnless(test: nat, offset: int)       // if (c) { ...
    | Jump(offset: int)
    | SwitchOn(operand: nat, arms: seq<Arm>, end: int)
    | Lab(l: Label)
    | Goto(l: Label)
    | GotoUnless(test: nat, l: Label)            // if (!(c)) goto l;
    | SetIndex(id: LoopId, operand: nat)
    | SetLength(id: LoopId, operand: nat)
    | BranchIfDone(id: LoopId, offset: int)      // while (idx < len) { ...
    | BindItem(id: LoopId)
    | Advance(id: LoopId)                        // idx++;
    | Evaluate(operand: nat, boxed: bool)        // __return_val = e; or its payload and tag fields, if wrapped
    | FlagIfError                                // if (__return_val.is_error) err = 1;
    | BranchUnlessFlag(offset: int)              // if (err) { ...
    | ReturnEvaluated                            // return __return_val;
    | ReturnNow(operand: nat)                    // return e;
    | ReturnImplicit                             // the closing return of main or of a !void function
    | Trap

  type Program = seq<Instr>

  /** Running off the end of the text, the closing return, or a return statement. */
  datatype Finish = FellThrough | ReturnedDefault | ReturnedValue(v: int)

  /** `counters` holds each `for` loop's index and length temporaries. */
  datatype Config =
    | Run(pc: int, t: Trace, err: bool, rv: int, counters: map<LoopId, (int, int)>)
    | Halted(how: Finish, t: Trace)
    | Trapped(t: Trace)
    | Stuck(t: Trace)

  function FindLabel(p: Program, l: Label): (k: nat)
    ensures k < |p| ==> p[k] == Lab(l)
    ensures k >= |p| ==> Lab(l) !in p
  {
    if p == [] then 1
    else if p[0] == Lab(l) then 0
    else 1 + FindLabel(p[1..], l)
  }

  function FirstCase(arms: seq<Arm>, v: int): (k: nat)
    ensures k <= |arms|
  {
    if arms == [] || v in arms[0].cases then 0 else 1 + FirstCase(arms[1..], v)
  }

  function FirstDefault(arms: seq<Arm>): (k: nat)
    ensures k <= |arms|
  {
    if arms == [] || arms[0].isDefault then 0 else 1 + FirstDefault(arms[1..])
  }

  function SwitchOffset(arms: seq<Arm>, end: int, v: int): int {
    if FirstCase(arms, v) < |arms| then arms[FirstCase(arms, v)].offset
    else if FirstDefault(arms) < |arms| then arms[FirstDefault(arms)].offset
    else end
  }

  function Step(w: World, p: Program, c: Config): Config {
    if !c.Run? then c
    else if c.pc == |p| then Halted(FellThrough, c.t)
    else if !(0 <= c.pc < |p|) then Stuck(c.t)
    else
      match p[c.pc]
      case Act(a) => c.(pc := c.pc + 1, t := c.t + [Did(a)])
      case BranchUnless(e, k) =>
        c.(pc := if w.test(e, c.t) then c.pc + 1 else c.pc + k, t := c.t + [Tested(e)])
      case Jump(k) => c.(pc := c.pc + k)
      case SwitchOn(e, arms, end) =>
        c.(pc := c.pc + SwitchOffset(arms, end, w.value(e, c.t)), t := c.t + [Read(e)])
      case Lab(_) => c.(pc := c.pc + 1)
      case Goto(l) => c.(pc := FindLabel(p, l))
      case GotoUnless(e, l) =>
        c.(pc := if w.test(e, c.t) then c.pc + 1 else FindLabel(p, l), t := c.t + [Tested(e)])
      case SetIndex(id, e) =>
        c.(pc := c.pc + 1, t := c.t + [Read(e)], counters := c.counters[id := (w.value(e, c.t), 0)])
      case SetLength(id, e) =>
        if id !in c.counters then Stuck(c.t) else
        c.(pc := c.pc + 1, t := c.t + [Read(e)], counters := c.counters[id := (c.counters[id].0, w.value(e, c.t))])
      case BranchIfDone(id, k) =>
        if id !in c.counters then Stuck(c.t) else
        c.(pc := if c.counters[id].0 < c.counters[id].1 then c.pc + 1 else c.pc + k)
      case BindItem(id) =>
        if id !in c.counters then Stuck(c.t) else
        c.(pc := c.pc + 1, t := c.t + [Bound(id, c.counters[id].0)])
      case Advance(id) =>
        if id !in c.counters then Stuck(c.t) else
        c.(pc := c.pc + 1, counters := c.counters[id := (c.counters[id].0 + 1, c.counters[id].1)])
      case Evaluate(e, boxed) => c.(pc := c.pc + 1, t := c.t + [Read(e)], rv := w.Result(e, boxed, c.t))
      case FlagIfError => c.(pc := c.pc + 1, err := c.err || w.isError(c.rv))
      case BranchUnlessFlag(k) => c.(pc := if c.err then c.pc + 1 else c.pc + k)
      case ReturnEvaluated => Halted(ReturnedValue(c.rv), c.t)
      case ReturnNow(e) => Halted(ReturnedValue(w.value(e, c.t)), c.t + [Read(e)])
      case ReturnImplicit => Halted(ReturnedDefault, c.t)
      case Trap => Trapped(c.t)
  }

  function Steps(w: World, p: Program, c: Config, n: nat): Config
    decreases n
  {
    if n == 0 then c else Steps(w, p, Step(w, p, c), n - 1)
  }

  lemma {:induction false} StepsAdd(w: World, p: Program, c: Config, m: nat, n: nat)
    ensures Steps(w, p, c, m + n) == Steps(w, p, Steps(w, p, c, m), n)
    decreases m
  {
    if m > 0 {
      StepsAdd(w, p, Step(w, p, c), m - 1, n);
    }
  }

  lemma {:induction false} StepsStay(w: World, p: Program, c: Config, n: nat)
    requires !c.Run?
    ensures Steps(w, p, c, n) == c
    decreases n
  {
    if n > 0 {
      StepsStay(w, p, c, n - 1);
    }
  }

  /** The code sits in the program at this position. */
  predicate At(p: Program, pc: int, code: Program) {
    0 <= pc && pc + |code| <= |p| && p[pc..pc + |code|] == code
  }

  lemma AtSplit(p: Program, pc: int, a: Program, b: Program)
    requires At(p, pc, a + b)
    ensures At(p, pc, a) && At(p, pc + |a|, b)
  {
    var ab := p[pc..pc + |a + b|];
    assert ab[..|a|] == a && ab[|a|..] == b;
    assert p[pc..pc + |a|] == ab[..|a|];
    assert p[pc + |a|..pc + |a| + |b|] == ab[|a|..];
  }

  lemma AtFirst(p: Program, pc: int, i: Instr, b: Program)
    requires At(p, pc, [i] + b)
    ensures 0 <= pc < |p| && p[pc] == i && At(p, pc + 1, b)
  {
    AtSplit(p, pc, [i], b);
    assert p[pc..pc + 1][0] == i;
  }

  lemma AtBounds(p: Program, pc: int, code: Program)
    requires At(p, pc, code)
    ensures 0 <= pc && pc + |code| <= |p|
  {
  }

  lemma AtOnly(p: Program, pc: int, i: Instr)
    requires At(p, pc, [i])
    ensures 0 <= pc < |p| && p[pc] == i
  {
    assert p[pc..pc + 1][0] == i;
  }

  ghost predicate UniqueLabels(p: Program) {
    forall i, j :: 0 <= i < j < |p| && p[i].Lab? && p[j].Lab? ==> p[i] != p[j]
  }

  lemma LabelFound(p: Program, k: int)
    requires UniqueLabels(p) && 0 <= k < |p| && p[k].Lab?
    ensures FindLabel(p, p[k].l) == k
  {
    assert Lab(p[k].l) == p[k] && p[k] in p;
  }

  // ----- One instruction at a time -----

  lemma OneStep(w: World, p: Program, c: Config)
    ensures Steps(w, p, c, 1) == Step(w, p, c)
  {
    assert Steps(w, p, Step(w, p, c), 0) == Step(w, p, c);
  }

  predicate Next(p: Program, c: Config, i: Instr) {
    c.Run? && 0 <= c.pc < |p| && p[c.pc] == i
  }

  lemma DoLab(w: World, p: Program, c: Config, l: Label)
    requires Next(p, c, Lab(l))
    ensures Steps(w, p, c, 1) == c.(pc := c.pc + 1)
  {
    OneStep(w, p, c);
  }

  lemma DoGoto(w: World, p: Program, c: Config, l: Label)
    requires Next(p, c, Goto(l))
    ensures Steps(w, p, c, 1) == c.(pc := FindLabel(p, l))
  {
    OneStep(w, p, c);
  }

  lemma DoJump(w: World, p: Program, c: Config, k: int)
    requires Next(p, c, Jump(k))
    ensures Steps(w, p, c, 1) == c.(pc := c.pc + k)
  {
    OneStep(w, p, c);
  }

  lemma DoAct(w: World, p: Program, c: Config, a: nat)
    requires Next(p, c, Act(a))
    ensures Steps(w, p, c, 1) == c.(pc := c.pc + 1, t := c.t + [Did(a)])
  {
    OneStep(w, p, c);
  }

  lemma DoBranchUnless(w: World, p: Program, c: Config, e: nat, k: int)
    requires Next(p, c, BranchUnless(e, k))
    ensures Steps(w, p, c, 1) == c.(pc := if w.test(e, c.t) then c.pc + 1 else c.pc + k, t := c.t + [Tested(e)])
  {
    OneStep(w, p, c);
  }

  lemma DoGotoUnless(w: World, p: Program, c: Config, e: nat, l: Label)
    requires Next(p, c, GotoUnless(e, l))
    ensures Steps(w, p, c, 1) == c.(pc := if w.test(e, c.t) then c.pc + 1 else FindLabel(p, l), t := c.t + [Tested(e)])
  {
    OneStep(w, p, c);
  }

  lemma DoSwitchOn(w: World, p: Program, c: Config, e: nat, arms: seq<Arm>, end: int)
    requires Next(p, c, SwitchOn(e, arms, end))
    ensures Steps(w, p, c, 1) == c.(pc := c.pc + SwitchOffset(arms, end, w.value(e, c.t)), t := c.t + [Read(e)])
  {
    OneStep(w, p, c);
  }

  lemma DoEvaluate(w: World, p: Program, c: Config, e: nat, boxed: bool)
    requires Next(p, c, Evaluate(e, boxed))
    ensures Steps(w, p, c, 1) == c.(pc := c.pc + 1, t := c.t + [Read(e)], rv := w.Result(e, boxed, c.t))
  {
    OneStep(w, p, c);
  }

  lemma DoFlagIfError(w: World, p: Program, c: Config)
    requires Next(p, c, FlagIfError)
    ensures Steps(w, p, c, 1) == c.(pc := c.pc + 1, err := c.err || w.isError(c.rv))
  {
    OneStep(w, p, c);
  }

  lemma DoBranchUnlessFlag(w: World, p: Program, c: Config, k: int)
    requires Next(p, c, BranchUnlessFlag(k))
    ensures Steps(w, p, c, 1) == c.(pc := if c.err then c.pc + 1 else c.pc + k)
  {
    OneStep(w, p, c);
  }

  lemma DoReturnEvaluated(w: World, p: Program, c: Config)
    requires Next(p, c, ReturnEvaluated)
    ensures Steps(w, p, c, 1) == Halted(ReturnedValue(c.rv), c.t)
  {
    OneStep(w, p, c);
  }

  lemma DoReturnNow(w: World, p: Program, c: Config, e: nat)
    requires Next(p, c, ReturnNow(e))
    ensures Steps(w, p, c, 1) == Halted(ReturnedValue(w.value(e, c.t)), c.t + [Read(e)])
  {
    OneStep(w, p, c);
  }

  lemma DoTrap(w: World, p: Program, c: Config)
    requires Next(p, c, Trap)
    ensures Steps(w, p, c, 1) == Trapped(c.t)
  {
    OneStep(w, p, c);
  }

  lemma DoForHead(w: World, p: Program, c: Config, id: LoopId, k: int)
    requires Next(p, c, BranchIfDone(id, k)) && id in c.counters
    ensures Steps(w, p, c, 1) == c.(pc := if c.counters[id].0 < c.counters[id].1 then c.pc + 1 else c.pc + k)
  {
    OneStep(w, p, c);
  }

  lemma DoForSetup(w: World, p: Program, c: Config, id: LoopId, lo: nat, hi: nat)
    requires c.Run? && At(p, c.pc, [SetIndex(id, lo), SetLength(id, hi)])
    ensures var t1 := c.t + [Read(lo)];
      Steps(w, p, c, 2) ==
      c.(pc := c.pc + 2, t := t1 + [Read(hi)], counters := c.counters[id := (w.value(lo, c.t), w.value(hi, t1))])
  {
    assert p[c.pc..c.pc + 2][0] == SetIndex(id, lo) && p[c.pc..c.pc + 2][1] == SetLength(id, hi);
    var c1 := Step(w, p, c);
    OneStep(w, p, c);
    OneStep(w, p, c1);
    StepsAdd(w, p, c, 1, 1);
    assert c.counters[id := (w.value(lo, c.t), 0)][id := (w.value(lo, c.t), w.value(hi, c1.t))]
        == c.counters[id := (w.value(lo, c.t), w.value(hi, c1.t))];
  }

  lemma DoBindItem(w: World, p: Program, c: Config, id: LoopId)
    requires Next(p, c, BindItem(id)) && id in c.counters
    ensures Steps(w, p, c, 1) == c.(pc := c.pc + 1, t := c.t + [Bound(id, c.counters[id].0)])
  {
    OneStep(w, p, c);
  }

  lemma DoAdvance(w: World, p: Program, c: Config, id: LoopId)
    requires Next(p, c, Advance(id)) && id in c.counters
    ensures Steps(w, p, c, 1) ==
      c.(pc := c.pc + 1, counters := c.counters[id := (c.counters[id].0 + 1, c.counters[id].1)])
  {
    OneStep(w, p, c);
  }
}
