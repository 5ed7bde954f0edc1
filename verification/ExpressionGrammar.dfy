/**
 What the expression parser computes, as functions from tokens to a tree and the tokens left;
 `k` is how many more levels of recursion are allowed.
 */
module ExpressionGrammar {
  import opened Options
  import opened Expressions
  import opened LayeredGrammar

  type Parsed = Option<(Expr, seq<Token>)>

  function Assignment(ts: seq<Token>, k: nat): (r: Parsed)
    ensures r.Some? ==> |r.value.1| < |ts|
    decreases |ts|, 10
  {
    if k == 0 then None
    else
      match Prec(ts, 1, k - 1)
      case None => None
      case Some((left, rest)) =>
        if rest != [] && IsAssignOp(rest[0]) then
          match Assignment(rest[1..], k - 1)
          case None => None
          case Some((right, rest1)) => Some((Assign(rest[0], left, right), rest1))
        else Some((left, rest))
  }

  function Prec(ts: seq<Token>, min: int, k: nat): (r: Parsed)
    requires min >= 1
    ensures r.Some? ==> |r.value.1| < |ts|
    decreases |ts|, 9
  {
    if k == 0 then None
    else
      match UnaryExpr(ts, k - 1)
      case None => None
      case Some((left, rest)) => Loop(left, rest, min, k - 1)
  }

  /** The operators that bind at least as strongly as `min`, one after the other. */
  function Loop(left: Expr, ts: seq<Token>, min: int, k: nat): (r: Parsed)
    requires min >= 1
    ensures r.Some? ==> |r.value.1| <= |ts|
    decreases |ts|, 8
  {
    if ts == [] || Precedence(ts[0]) < min then Some((left, ts))
    else
      match Operand(ts, k)
      case None => None
      case Some((cap, right, rest)) => Loop(Node(ts[0], left, cap, right), rest, min, k)
  }

  /** The operator at the head of `ts`: its error capture, if it has one, and its right operand. */
  function Operand(ts: seq<Token>, k: nat): (r: Option<(Option<string>, Expr, seq<Token>)>)
    requires ts != [] && Precedence(ts[0]) >= 1
    ensures r.Some? ==> |r.value.2| < |ts|
    decreases |ts|, 7
  {
    var p := Precedence(ts[0]);
    var min := if ts[0].Catch? || ts[0].Orelse? then p else p + 1;
    if ts[0].Catch? && |ts| > 1 && ts[1].Pipe? then
      if |ts| > 3 && ts[2].TIdentifier? && ts[3].Pipe? then
        match Prec(ts[4..], min, k)
        case None => None
        case Some((right, rest)) => Some((Some(ts[2].x), right, rest))
      else None
    else
      match Prec(ts[1..], min, k)
      case None => None
      case Some((right, rest)) => Some((None, right, rest))
  }

  function Node(op: Token, left: Expr, cap: Option<string>, right: Expr): Expr {
    match op
    case Catch => CatchExpr(left, cap, right)
    case Orelse => OrelseExpr(left, right)
    case PipePipe => Merge(left, right)
    case RangeDots => Range(left, right, false)
    case Ellipsis => Range(left, right, true)
    case _ => Binary(op, left, right)
  }

  function UnaryExpr(ts: seq<Token>, k: nat): (r: Parsed)
    ensures r.Some? ==> |r.value.1| < |ts|
    decreases |ts|, 6
  {
    if k == 0 then None
    else if ts != [] && ts[0].Try? then
      match UnaryExpr(ts[1..], k - 1)
      case None => None
      case Some((e, rest)) => Some((TryExpr(e), rest))
    else Chain(ts, k - 1)
  }

  /** Prefix operators, then a postfix expression. */
  function Chain(ts: seq<Token>, k: nat): (r: Parsed)
    ensures r.Some? ==> |r.value.1| < |ts|
    decreases |ts|, 5
  {
    if ts != [] && IsUnaryOp(ts[0]) then
      match Chain(ts[1..], k)
      case None => None
      case Some((e, rest)) => Some((Unary(ts[0], e), rest))
    else Postfix(ts, k)
  }

  function Postfix(ts: seq<Token>, k: nat): (r: Parsed)
    ensures r.Some? ==> |r.value.1| < |ts|
    decreases |ts|, 4
  {
    if k == 0 then None
    else
      match Primary(ts, k - 1)
      case None => None
      case Some((e, rest)) => PostfixLoop(e, rest)
  }

  /** Member accesses and dereferences; calls, subscripts and initializers are not in this model. */
  function PostfixLoop(e: Expr, ts: seq<Token>): (r: Parsed)
    ensures r.Some? ==> |r.value.1| <= |ts|
    decreases |ts|
  {
    if ts == [] || !Continues(e, ts[0]) then Some((e, ts))
    else if ts[0].DotAsterisk? then PostfixLoop(Deref(e), ts[1..])
    else if ts[0].Dot? && |ts| > 1 && IsField(ts[1]) then PostfixLoop(Member(e, ts[1]), ts[2..])
    else None
  }

  function Primary(ts: seq<Token>, k: nat): (r: Parsed)
    ensures r.Some? ==> |r.value.1| < |ts|
    decreases |ts|, 3
  {
    if ts == [] then None
    else if IsAtom(ts[0]) then Some((Atom(ts[0]), ts[1..]))
    else if ts[0].LParen? then
      match Assignment(ts[1..], k)
      case None => None
      case Some((e, rest)) => if rest != [] && rest[0].RParen? then Some((Paren(e), rest[1..])) else None
    else None
  }

  // ----- A successful parse is a tree obeying the rules, printed as the tokens consumed -----

  /** The strongest operator that may follow `e` without being drawn into it. */
  function Closing(e: Expr): int {
    if e.OrelseExpr? || e.CatchExpr? then 0 else Level(e)
  }

  predicate Below(rest: seq<Token>, p: int) {
    rest == [] || Precedence(rest[0]) < p
  }

  /** Nothing in `rest` continues the postfix expression at the end of `e`. */
  predicate Ends(e: Expr, rest: seq<Token>) {
    rest == [] || !Continues(Last(e), rest[0])
  }

  /** The tree `e` obeys the rules and stands for the tokens of `ts` up to `rest`, which cannot continue it. */
  predicate Spells(ts: seq<Token>, e: Expr, rest: seq<Token>) {
    WellFormed(e) && ts == Print(e) + rest && Ends(e, rest)
  }

  lemma {:induction false} AssignmentSound(ts: seq<Token>, k: nat)
    ensures Assignment(ts, k).Some? ==>
              var (e, rest) := Assignment(ts, k).value;
              Spells(ts, e, rest) && Below(rest, 1) && (rest == [] || !IsAssignOp(rest[0]))
    decreases |ts|, 10
  {
    hide Prec, Print;
    if k > 0 && Prec(ts, 1, k - 1).Some? {
      PrecSound(ts, 1, k - 1);
      var (left, rest) := Prec(ts, 1, k - 1).value;
      if rest != [] && IsAssignOp(rest[0]) {
        AssignmentSound(rest[1..], k - 1);
        if Assignment(rest[1..], k - 1).Some? {
          var (right, rest1) := Assignment(rest[1..], k - 1).value;
          assert rest == [rest[0]] + [] + (Print(right) + rest1);
          JoinText(ts, left, rest[0], [], right, rest, rest1);
          PrintAssign(rest[0], left, right);
        }
      }
    }
  }

  lemma PrintAssign(op: Token, l: Expr, r: Expr)
    ensures Print(Assign(op, l, r)) == Print(l) + ([op] + Print(r))
    ensures Last(Assign(op, l, r)) == Last(r)
    ensures WellFormed(Assign(op, l, r)) <==> IsAssignOp(op) && WellFormed(l) && WellFormed(r) && Level(l) >= 1
  {
    hide Print, Last, WellFormed, IsAssignOp, Level;
    AssignText(op, l, r);
    AssignRules(op, l, r);
  }

  lemma AssignText(op: Token, l: Expr, r: Expr)
    ensures Print(Assign(op, l, r)) == Print(l) + ([op] + Print(r))
    ensures Last(Assign(op, l, r)) == Last(r)
  {
    hide PrintCapture;
  }

  lemma AssignRules(op: Token, l: Expr, r: Expr)
    ensures WellFormed(Assign(op, l, r)) <==> IsAssignOp(op) && WellFormed(l) && WellFormed(r) && Level(l) >= 1
  {
    hide IsAssignOp, IsUnaryOp, IsAtom, IsField, Level, Precedence, FitsLeft;
  }

  lemma JoinText(ts: seq<Token>, l: Expr, op: Token, cap: seq<Token>, r: Expr, rest: seq<Token>, rest1: seq<Token>)
    requires ts == Print(l) + rest && rest == [op] + cap + (Print(r) + rest1)
    ensures ts == Print(l) + ([op] + (cap + Print(r))) + rest1
    ensures cap == [] ==> ts == Print(l) + ([op] + Print(r)) + rest1
  {
    hide Print;
    assert cap == [] ==> cap + Print(r) == Print(r);
  }

  lemma {:induction false} PrecSound(ts: seq<Token>, min: int, k: nat)
    requires min >= 1
    ensures Prec(ts, min, k).Some? ==>
              var (e, rest) := Prec(ts, min, k).value;
              Spells(ts, e, rest) && Below(rest, min) && (min <= TIGHT ==> Level(e) >= min)
    decreases |ts|, 9
  {
    hide UnaryExpr, Print, Loop;
    if k > 0 && UnaryExpr(ts, k - 1).Some? {
      UnarySound(ts, k - 1);
      var (left, rest) := UnaryExpr(ts, k - 1).value;
      LoopSound(ts, left, rest, min, k - 1);
    }
  }

  lemma StrongestOperator(t: Token)
    ensures Precedence(t) < TIGHT
    ensures Precedence(t) == 1 <==> t.Catch? || t.Orelse? || t.PipePipe? || t.RangeDots? || t.Ellipsis?
  {
  }

  lemma {:induction false} LoopSound(whole: seq<Token>, left: Expr, ts: seq<Token>, min: int, k: nat)
    requires min >= 1
    requires Spells(whole, left, ts) && (min <= TIGHT ==> Level(left) >= min) && Below(ts, Closing(left) + 1)
    ensures Loop(left, ts, min, k).Some? ==>
              var (e, rest) := Loop(left, ts, min, k).value;
              Spells(whole, e, rest) && Below(rest, min) && (min <= TIGHT ==> Level(e) >= min)
    decreases |ts|, 8
  {
    hide Print, Prec;
    if ts != [] && Precedence(ts[0]) >= min && Operand(ts, k).Some? {
      var (cap, right, rest) := Operand(ts, k).value;
      OperandSound(ts, k);
      StrongestOperator(ts[0]);
      var next := Node(ts[0], left, cap, right);
      NodeSound(whole, left, ts, cap, right, rest);
      LoopSound(whole, next, rest, min, k);
    }
  }

  function OperandMin(op: Token): int {
    if op.Catch? || op.Orelse? then 1 else Precedence(op) + 1
  }

  lemma {:induction false} OperandSound(ts: seq<Token>, k: nat)
    requires ts != [] && Precedence(ts[0]) >= 1
    ensures Operand(ts, k).Some? ==>
              var (cap, right, rest) := Operand(ts, k).value;
              (cap.Some? ==> ts[0].Catch?)
              && ts == [ts[0]] + PrintCapture(cap) + (Print(right) + rest)
              && WellFormed(right) && Ends(right, rest) && Level(right) >= OperandMin(ts[0])
              && Below(rest, OperandMin(ts[0]))
    decreases |ts|, 7
  {
    hide Print, Prec;
    StrongestOperator(ts[0]);
    var min := OperandMin(ts[0]);
    if ts[0].Catch? && |ts| > 1 && ts[1].Pipe? {
      if |ts| > 3 && ts[2].TIdentifier? && ts[3].Pipe? {
        PrecSound(ts[4..], min, k);
        assert ts == [ts[0]] + [Pipe, TIdentifier(ts[2].x), Pipe] + ts[4..];
      }
    } else {
      PrecSound(ts[1..], min, k);
      assert ts == [ts[0]] + [] + ts[1..];
    }
  }

  /** Joining a left operand and the operand read by `Operand` keeps the rules and the text. */
  lemma NodeSound(whole: seq<Token>, left: Expr, ts: seq<Token>, cap: Option<string>, right: Expr, rest: seq<Token>)
    requires Spells(whole, left, ts) && ts != [] && Precedence(ts[0]) >= 1
    requires Precedence(ts[0]) <= Closing(left)
    requires cap.Some? ==> ts[0].Catch?
    requires ts == [ts[0]] + PrintCapture(cap) + (Print(right) + rest)
    requires WellFormed(right) && Ends(right, rest) && Level(right) >= OperandMin(ts[0])
    requires Below(rest, OperandMin(ts[0]))
    ensures var e := Node(ts[0], left, cap, right);
            Spells(whole, e, rest) && Level(e) == Precedence(ts[0]) && Below(rest, Closing(e) + 1)
  {
    hide Print;
    JoinText(whole, left, ts[0], PrintCapture(cap), right, ts, rest);
    PrintNode(ts[0], left, cap, right);
    NodeObeys(ts[0], left, cap, right);
  }

  lemma PrintNode(op: Token, left: Expr, cap: Option<string>, right: Expr)
    requires Precedence(op) >= 1 && (cap.Some? ==> op.Catch?)
    ensures Print(Node(op, left, cap, right)) == Print(left) + ([op] + (PrintCapture(cap) + Print(right)))
  {
    hide Precedence, Print;
    var r := Print(right);
    PrintLooped(op, left, cap, right);
    if !op.Catch? {
      assert PrintCapture(cap) + r == r;
    }
  }

  /** The text of the forms the operator loop builds. */
  lemma PrintLooped(op: Token, l: Expr, cap: Option<string>, r: Expr)
    ensures Print(Binary(op, l, r)) == Print(l) + ([op] + Print(r))
    ensures Print(Merge(l, r)) == Print(l) + ([PipePipe] + Print(r))
    ensures Print(Range(l, r, false)) == Print(l) + ([RangeDots] + Print(r))
    ensures Print(Range(l, r, true)) == Print(l) + ([Ellipsis] + Print(r))
    ensures Print(OrelseExpr(l, r)) == Print(l) + ([Orelse] + Print(r))
    ensures Print(CatchExpr(l, cap, r)) == Print(l) + ([Catch] + (PrintCapture(cap) + Print(r)))
  {
    hide PrintCapture;
  }

  lemma NodeObeys(op: Token, left: Expr, cap: Option<string>, right: Expr)
    requires Precedence(op) >= 1
    requires WellFormed(left) && WellFormed(right)
    ensures var e := Node(op, left, cap, right);
            (WellFormed(e) <==> Precedence(op) <= Closing(left) && Level(right) >= OperandMin(op))
            && Last(e) == Last(right) && Level(e) == Precedence(op)
            && Closing(e) == OperandMin(op) - 1
  {
    hide Precedence, WellFormed, Last;
    StrongestOperator(op);
    LoopedForms(op, left, cap, right);
  }

  /** The rules for the forms the operator loop builds. */
  lemma LoopedForms(op: Token, l: Expr, cap: Option<string>, r: Expr)
    ensures WellFormed(Binary(op, l, r)) <==>
              Precedence(op) >= 2 && WellFormed(l) && WellFormed(r) && FitsLeft(l, Precedence(op))
                && Level(r) > Precedence(op)
    ensures WellFormed(Merge(l, r)) <==> WellFormed(l) && WellFormed(r) && FitsLeft(l, 1) && Level(r) > 1
    ensures forall i :: WellFormed(Range(l, r, i)) <==> WellFormed(l) && WellFormed(r) && FitsLeft(l, 1) && Level(r) > 1
    ensures WellFormed(OrelseExpr(l, r)) <==> WellFormed(l) && WellFormed(r) && FitsLeft(l, 1) && Level(r) >= 1
    ensures WellFormed(CatchExpr(l, cap, r)) <==> WellFormed(l) && WellFormed(r) && FitsLeft(l, 1) && Level(r) >= 1
    ensures Last(Binary(op, l, r)) == Last(Merge(l, r)) == Last(r)
    ensures Last(OrelseExpr(l, r)) == Last(CatchExpr(l, cap, r)) == Last(r)
    ensures forall i :: Last(Range(l, r, i)) == Last(r)
  {
    hide Precedence, FitsLeft, Level;
  }

  lemma {:induction false} UnarySound(ts: seq<Token>, k: nat)
    ensures UnaryExpr(ts, k).Some? ==>
              var (e, rest) := UnaryExpr(ts, k).value;
              Spells(ts, e, rest) && Level(e) == TIGHT
    decreases |ts|, 6
  {
    hide Chain;
    if k > 0 {
      if ts != [] && ts[0].Try? {
        UnarySound(ts[1..], k - 1);
        assert ts == [Try] + ts[1..];
      } else {
        ChainSound(ts, k - 1);
      }
    }
  }

  lemma {:induction false} ChainSound(ts: seq<Token>, k: nat)
    ensures Chain(ts, k).Some? ==>
              var (e, rest) := Chain(ts, k).value;
              Spells(ts, e, rest) && (IsPostfixForm(e) || e.Unary?)
    decreases |ts|, 5
  {
    hide Postfix;
    if ts != [] && IsUnaryOp(ts[0]) {
      ChainSound(ts[1..], k);
      assert ts == [ts[0]] + ts[1..];
    } else {
      PostfixSound(ts, k);
    }
  }

  lemma {:induction false} PostfixSound(ts: seq<Token>, k: nat)
    ensures Postfix(ts, k).Some? ==>
              var (e, rest) := Postfix(ts, k).value;
              Spells(ts, e, rest) && IsPostfixForm(e)
    decreases |ts|, 4
  {
    hide Primary, PostfixLoop, Print;
    if k > 0 && Primary(ts, k - 1).Some? {
      PrimarySound(ts, k - 1);
      var (e, rest) := Primary(ts, k - 1).value;
      PostfixLoopSound(ts, e, rest);
    }
  }

  lemma {:induction false} PostfixLoopSound(whole: seq<Token>, e: Expr, ts: seq<Token>)
    requires WellFormed(e) && IsPostfixForm(e) && whole == Print(e) + ts
    ensures PostfixLoop(e, ts).Some? ==>
              var (e', rest) := PostfixLoop(e, ts).value;
              Spells(whole, e', rest) && IsPostfixForm(e')
    decreases |ts|
  {
    if ts != [] && Continues(e, ts[0]) {
      if ts[0].DotAsterisk? {
        assert ts == [DotAsterisk] + ts[1..];
        PostfixLoopSound(whole, Deref(e), ts[1..]);
      } else if ts[0].Dot? && |ts| > 1 && IsField(ts[1]) {
        assert ts == [Dot, ts[1]] + ts[2..];
        PostfixLoopSound(whole, Member(e, ts[1]), ts[2..]);
      }
    }
  }

  lemma {:induction false} PrimarySound(ts: seq<Token>, k: nat)
    ensures Primary(ts, k).Some? ==>
              var (e, rest) := Primary(ts, k).value;
              WellFormed(e) && IsPostfixForm(e) && ts == Print(e) + rest
    decreases |ts|, 3
  {
    hide Assignment;
    if ts != [] && !IsAtom(ts[0]) && ts[0].LParen? && Assignment(ts[1..], k).Some? {
      AssignmentSound(ts[1..], k);
      var (e, rest) := Assignment(ts[1..], k).value;
      if rest != [] && rest[0].RParen? {
        assert ts == [LParen] + ts[1..];
        assert rest == [RParen] + rest[1..];
        assert Print(Paren(e)) + rest[1..] == [LParen] + (Print(e) + [RParen] + rest[1..]);
        assert Print(e) + [RParen] + rest[1..] == Print(e) + rest;
      }
    }
  }

  // ----- Every tree obeying the rules parses back, given enough depth -----

  /** The text, the rule and the depth of literals, identifiers and parentheses. */
  lemma PrimaryForms(e: Expr)
    ensures e.Atom? ==> Print(e) == [e.t] && (WellFormed(e) <==> IsAtom(e.t)) && NeedPostfix(e) == 1
    ensures e.Paren? ==>
              Print(e) == [LParen] + (Print(e.inner) + [RParen]) && (WellFormed(e) <==> WellFormed(e.inner))
              && NeedPostfix(e) == 1 + NeedAssign(e.inner)
  {
    hide NeedAssign, Precedence, Level, FitsLeft;
  }

  lemma ClosingParen(e: Expr, rest: seq<Token>)
    ensures var ts := [RParen] + rest; Ends(e, ts) && Below(ts, 1) && !IsAssignOp(ts[0])
  {
    hide Last;
  }

  lemma {:induction false} PrimaryParses(e: Expr, rest: seq<Token>, k: nat)
    requires WellFormed(e) && (e.Atom? || e.Paren?)
    ensures Primary(Print(e) + rest, k) == if NeedPostfix(e) <= k + 1 then Some((e, rest)) else None
    decreases e, 0
  {
    hide Assignment, Print, WellFormed, NeedPostfix, NeedAssign, Last, IsAssignOp;
    var all := Print(e) + rest;
    PrimaryForms(e);
    if e.Paren? {
      ClosingParen(e.inner, rest);
      AssignmentParses(e.inner, [RParen] + rest, k);
      assert all == [LParen] + (Print(e.inner) + ([RParen] + rest));
      assert all[1..] == Print(e.inner) + ([RParen] + rest);
      assert ([RParen] + rest)[1..] == rest;
    } else {
      assert all[1..] == rest;
    }
  }

  /** Reading the text of a postfix form leaves the loop with that form in hand. */
  lemma {:induction false} PostfixParses(e: Expr, rest: seq<Token>, k: nat)
    requires WellFormed(e) && IsPostfixForm(e)
    ensures Postfix(Print(e) + rest, k) == if NeedPostfix(e) <= k then PostfixLoop(e, rest) else None
    decreases e, 1
  {
    hide Primary;
    match e
    case Atom(_) => if k > 0 { PrimaryParses(e, rest, k - 1); }
    case Paren(_) => if k > 0 { PrimaryParses(e, rest, k - 1); }
    case Member(b, f) =>
      PostfixParses(b, [Dot, f] + rest, k);
      assert Print(e) + rest == Print(b) + ([Dot, f] + rest);
      assert ([Dot, f] + rest)[2..] == rest;
    case Deref(b) =>
      PostfixParses(b, [DotAsterisk] + rest, k);
      assert Print(e) + rest == Print(b) + ([DotAsterisk] + rest);
      assert ([DotAsterisk] + rest)[1..] == rest;
  }

  /** A postfix form starts with an atom or a parenthesis. */
  lemma {:induction false} PostfixStart(e: Expr)
    requires WellFormed(e) && IsPostfixForm(e)
    ensures Print(e) != [] && (IsAtom(Print(e)[0]) || Print(e)[0].LParen?)
  {
    match e
    case Atom(_) =>
    case Paren(_) =>
    case Member(b, _) => PostfixStart(b);
    case Deref(b) => PostfixStart(b);
  }

  lemma {:induction false} ChainParses(e: Expr, rest: seq<Token>, k: nat)
    requires WellFormed(e) && (IsPostfixForm(e) || e.Unary?) && Ends(e, rest)
    ensures Chain(Print(e) + rest, k) == if NeedUnary(e) <= k + 1 then Some((e, rest)) else None
    ensures Print(e) != [] && !Print(e)[0].Try?
    decreases e, 2
  {
    hide Postfix;
    var all := Print(e) + rest;
    if e.Unary? {
      ChainParses(e.operand, rest, k);
      assert all[1..] == Print(e.operand) + rest;
    } else {
      PostfixParses(e, rest, k);
      PostfixStart(e);
      assert NeedUnary(e) == 1 + NeedPostfix(e);
    }
  }

  lemma UnaryTry(ts: seq<Token>, k: nat, e: Expr, rest: seq<Token>, fits: bool)
    requires k > 0 ==> UnaryExpr(ts, k - 1) == if fits then Some((e, rest)) else None
    ensures UnaryExpr([Try] + ts, k) == if k > 0 && fits then Some((TryExpr(e), rest)) else None
  {
    hide Chain;
    assert ([Try] + ts)[1..] == ts;
  }

  lemma UnaryChain(ts: seq<Token>, k: nat)
    requires ts != [] && !ts[0].Try?
    ensures UnaryExpr(ts, k) == if k > 0 then Chain(ts, k - 1) else None
  {
    hide Chain;
  }

  lemma TryParts(e: Expr)
    requires WellFormed(e) && e.TryExpr?
    ensures WellFormed(e.operand) && Level(e.operand) == TIGHT && Print(e) == [Try] + Print(e.operand)
    ensures NeedUnary(e) == 1 + NeedUnary(e.operand) && Last(e) == Last(e.operand)
  {
    hide Precedence;
  }

  lemma {:induction false} UnaryParses(e: Expr, rest: seq<Token>, k: nat)
    requires WellFormed(e) && Level(e) == TIGHT && Ends(e, rest)
    ensures UnaryExpr(Print(e) + rest, k) == if NeedUnary(e) <= k then Some((e, rest)) else None
    decreases e, 3
  {
    hide UnaryExpr, Chain, Precedence, WellFormed, Level, Print, NeedUnary, Last;
    if e.TryExpr? {
      TryParts(e);
      if k > 0 {
        UnaryParses(e.operand, rest, k - 1);
      }
      UnaryTry(Print(e.operand) + rest, k, e.operand, rest, NeedUnary(e.operand) <= k - 1);
      assert Print(e) + rest == [Try] + (Print(e.operand) + rest);
      NeedsOne(e.operand);
    } else {
      BinaryIsLooser(e);
      ChainParses(e, rest, 0);
      if k > 0 {
        ChainParses(e, rest, k - 1);
      }
      UnaryChain(Print(e) + rest, k);
      NeedsOne(e);
    }
  }

  lemma BinaryIsLooser(e: Expr)
    requires WellFormed(e) && Level(e) == TIGHT
    ensures IsPostfixForm(e) || e.Unary? || e.TryExpr?
  {
    if e.Binary? {
      StrongestOperator(e.op);
    }
  }

  lemma {:induction false} NeedsOne(e: Expr)
    ensures NeedUnary(e) >= 1
  {
    if e.Unary? {
      NeedsOne(e.operand);
    }
  }

  /** No tree's text starts with the bar that opens an error capture. */
  lemma {:induction false} PrintStart(e: Expr)
    requires WellFormed(e)
    ensures Print(e) != [] && !Print(e)[0].Pipe?
  {
    match e
    case Atom(_) =>
    case Paren(_) =>
    case Member(b, _) => PrintStart(b);
    case Deref(b) => PrintStart(b);
    case Unary(_, _) =>
    case TryExpr(_) =>
    case Binary(_, l, _) => PrintStart(l);
    case Merge(l, _) => PrintStart(l);
    case Range(l, _, _) => PrintStart(l);
    case OrelseExpr(l, _) => PrintStart(l);
    case CatchExpr(l, _, _) => PrintStart(l);
    case Assign(_, l, _) => PrintStart(l);
  }

  /** Trees whose root the operator loop builds. */
  predicate Looped(e: Expr) {
    e.Binary? || e.Merge? || e.Range? || e.OrelseExpr? || e.CatchExpr?
  }

  function OpOf(e: Expr): Token
    requires Looped(e)
  {
    match e
    case Binary(op, _, _) => op
    case Merge(_, _) => PipePipe
    case Range(_, _, incl) => if incl then Ellipsis else RangeDots
    case OrelseExpr(_, _) => Orelse
    case CatchExpr(_, _, _) => Catch
  }

  function CaptureOf(e: Expr): Option<string> {
    if e.CatchExpr? then e.capture else None
  }

  lemma LoopedParts(e: Expr)
    requires WellFormed(e) && Looped(e)
    ensures e == Node(OpOf(e), e.left, CaptureOf(e), e.right)
    ensures WellFormed(e.left) && WellFormed(e.right) && Precedence(OpOf(e)) >= 1
    ensures NeedBinary(e) == Max(NeedBinary(e.left), 1 + NeedBinary(e.right))
  {
    hide Precedence, Max, NeedUnary, WellFormed;
    StrongestOperator(OpOf(e));
    LoopedForms(OpOf(e), e.left, CaptureOf(e), e.right);
  }

  lemma {:induction false} OperandParses(e: Expr, rest: seq<Token>, k: nat)
    requires WellFormed(e) && Looped(e) && Ends(e, rest) && Below(rest, Closing(e) + 1)
    ensures var ts := [OpOf(e)] + (PrintCapture(CaptureOf(e)) + Print(e.right)) + rest;
            Precedence(ts[0]) >= 1
            && Operand(ts, k) == if NeedBinary(e.right) <= k then Some((CaptureOf(e), e.right, rest)) else None
    decreases e, 0
  {
    hide Prec, Print, NeedBinary, Precedence, WellFormed;
    LoopedParts(e);
    StrongestOperator(OpOf(e));
    var (op, cap, r) := (OpOf(e), CaptureOf(e), e.right);
    NodeObeys(op, e.left, cap, r);
    PrintStart(r);
    var min := OperandMin(op);
    PrecParses(r, min, rest, k);
    var body := Print(r) + rest;
    var ts := [op] + (PrintCapture(cap) + Print(r)) + rest;
    assert ts[0] == op;
    if cap.Some? {
      assert ts == [op] + [Pipe, TIdentifier(cap.value), Pipe] + body;
      assert ts[4..] == body;
    } else {
      assert ts == [op] + body;
      assert ts[1..] == body && ts[1] == Print(r)[0];
    }
    NeedsLevel(r);
    LoopStops(r, rest, min, k);
  }

  lemma LoopStops(e: Expr, rest: seq<Token>, min: int, k: nat)
    requires min >= 1 && Below(rest, min)
    ensures k > 0 ==> Loop(e, rest, min, k - 1) == Some((e, rest))
  {
  }

  lemma {:induction false} NeedsLevel(e: Expr)
    ensures NeedBinary(e) >= 1
  {
    if Looped(e) {
      NeedsLevel(e.right);
    }
  }

  /** Reading the text of a tree leaves the operator loop with that tree in hand. */
  lemma {:induction false} PrecParses(e: Expr, min: int, rest: seq<Token>, k: nat)
    requires WellFormed(e) && 1 <= min <= Level(e) && Ends(e, rest) && Below(rest, Closing(e) + 1)
    ensures Prec(Print(e) + rest, min, k) == if k > 0 && NeedBinary(e) <= k then Loop(e, rest, min, k - 1) else None
    decreases e, 4
  {
    hide UnaryExpr, Print, Loop, Prec, NeedBinary, Precedence, WellFormed, Node, Last;
    if Looped(e) {
      LoopedParts(e);
      var (op, l, cap, r) := (OpOf(e), e.left, CaptureOf(e), e.right);
      NodeObeys(op, l, cap, r);
      PrintNode(op, l, cap, r);
      var ts := [op] + (PrintCapture(cap) + Print(r)) + rest;
      assert Print(e) + rest == Print(l) + ts;
      OperatorEnds(l, op);
      PrecParses(l, min, ts, k);
      if k > 0 {
        OperandParses(e, rest, k - 1);
        LoopStep(l, ts, min, k - 1);
      }
    } else {
      if k > 0 {
        UnaryParses(e, rest, k - 1);
      }
      PrecStep(e, Print(e) + rest, rest, min, k);
    }
  }

  lemma OperatorEnds(l: Expr, op: Token)
    requires Precedence(op) >= 1
    ensures !Continues(Last(l), op)
  {
  }

  lemma LoopStep(l: Expr, ts: seq<Token>, min: int, k: nat)
    requires min >= 1 && ts != [] && Precedence(ts[0]) >= min
    ensures Loop(l, ts, min, k) ==
            if Operand(ts, k).None? then None
            else Loop(Node(ts[0], l, Operand(ts, k).value.0, Operand(ts, k).value.1), Operand(ts, k).value.2, min, k)
  {
    hide Operand;
  }

  lemma PrecStep(e: Expr, ts: seq<Token>, rest: seq<Token>, min: int, k: nat)
    requires min >= 1 && !Looped(e)
    requires k > 0 ==> UnaryExpr(ts, k - 1) == if NeedUnary(e) <= k - 1 then Some((e, rest)) else None
    ensures Prec(ts, min, k) == if k > 0 && NeedBinary(e) <= k then Loop(e, rest, min, k - 1) else None
  {
    hide UnaryExpr, Loop, NeedUnary;
  }

  lemma {:induction false} AssignmentParses(e: Expr, rest: seq<Token>, k: nat)
    requires WellFormed(e) && Ends(e, rest) && Below(rest, 1) && (rest == [] || !IsAssignOp(rest[0]))
    ensures Assignment(Print(e) + rest, k) == if NeedAssign(e) <= k then Some((e, rest)) else None
    decreases e, 5
  {
    hide Prec, Print, NeedBinary, Loop, Precedence, Last, WellFormed, IsAssignOp;
    if k > 0 {
      if e.Assign? {
        var ts := [e.op] + Print(e.right) + rest;
        PrintAssign(e.op, e.left, e.right);
        assert Print(e) + rest == Print(e.left) + ts;
        AssignOpEnds(e.left, e.op);
        PrecParses(e.left, 1, ts, k - 1);
        LoopStops(e.left, ts, 1, k - 1);
        NeedsLevel(e.left);
        AssignmentParses(e.right, rest, k - 1);
        assert ts[1..] == Print(e.right) + rest;
      } else {
        LevelOfRest(e);
        PrecParses(e, 1, rest, k - 1);
        LoopStops(e, rest, 1, k - 1);
        NeedsLevel(e);
      }
    }
  }

  lemma AssignOpEnds(l: Expr, op: Token)
    requires IsAssignOp(op)
    ensures Precedence(op) == -1 && !Continues(Last(l), op)
  {
  }

  lemma LevelOfRest(e: Expr)
    requires WellFormed(e) && !e.Assign?
    ensures Level(e) >= 1
  {
  }

  // ----- Parsing and printing undo each other -----

  lemma ParsesByRules(ts: seq<Token>, k: nat, e: Expr, rest: seq<Token>)
    ensures Assignment(ts, k) == Some((e, rest))
       <==> Spells(ts, e, rest) && Below(rest, 1) && (rest == [] || !IsAssignOp(rest[0])) && NeedAssign(e) <= k
  {
    hide Assignment, Print, NeedAssign;
    if Spells(ts, e, rest) && Below(rest, 1) && (rest == [] || !IsAssignOp(rest[0])) {
      AssignmentParses(e, rest, k);
    }
    if Assignment(ts, k) == Some((e, rest)) {
      AssignmentSound(ts, k);
    }
  }

  /**
   The parser returns `e` and `rest` exactly when the layered grammar derives `e`, its text is what was consumed,
   `rest` does not go on with it, and the recursion limit allows its depth.
   */
  lemma ParsesIff(ts: seq<Token>, k: nat, e: Expr, rest: seq<Token>)
    ensures Assignment(ts, k) == Some((e, rest))
       <==> AssignmentL(e) && ts == Print(e) + rest && (rest == [] || !GoesOn(e, rest[0])) && NeedAssign(e) <= k
  {
    hide Assignment, Print, NeedAssign, AssignmentL, WellFormed, Precedence, Continues, Last, IsAssignOp, GoesOn;
    ParsesByRules(ts, k, e, rest);
    AssignmentLayer(e);
    if rest != [] {
      GoesOnIff(e, rest[0]);
    }
  }

  /** Printing is injective on the trees of the grammar. */
  lemma PrintedOnce(e: Expr, f: Expr)
    requires AssignmentL(e) && AssignmentL(f) && Print(e) == Print(f)
    ensures e == f
  {
    hide Print, AssignmentL, NeedAssign, Assignment;
    var k := Max(NeedAssign(e), NeedAssign(f));
    assert Print(e) == Print(e) + [] && Print(f) == Print(f) + [];
    ParsesIff(Print(e), k, e, []);
    ParsesIff(Print(e), k, f, []);
  }

  // ----- Two operators in a row -----

  /** The two trees `a o1 b o2 c` could stand for. */
  function LeftFirst(a: Token, o1: Token, b: Token, o2: Token, c: Token): Expr {
    Node(o2, Node(o1, Atom(a), None, Atom(b)), None, Atom(c))
  }

  function RightFirst(a: Token, o1: Token, b: Token, o2: Token, c: Token): Expr {
    Node(o1, Atom(a), None, Node(o2, Atom(b), None, Atom(c)))
  }

  lemma NodeRules(op: Token, l: Expr, r: Expr)
    requires Infix(op) && WellFormed(l) && WellFormed(r)
    ensures var e := Node(op, l, None, r);
            && Print(e) == Print(l) + ([op] + Print(r))
            && Level(e) == Precedence(op) && !e.Assign?
            && (WellFormed(e) <==> Precedence(op) <= Closing(l) && Level(r) >= OperandMin(op))
            && NeedBinary(e) == Max(NeedBinary(l), 1 + NeedBinary(r))
  {
    hide Print, Level, WellFormed, NeedBinary, Node, Precedence, Closing, OperandMin, Max;
    InfixIff(op);
    PrintNode(op, l, None, r);
    NodeObeys(op, l, None, r);
    NodeDepth(op, l, r);
    assert PrintCapture(None) + Print(r) == Print(r);
  }

  lemma NodeDepth(op: Token, l: Expr, r: Expr)
    ensures var e := Node(op, l, None, r);
            NeedBinary(e) == Max(NeedBinary(l), 1 + NeedBinary(r)) && !e.Assign?
  {
    hide NeedBinary, Max;
    DepthForms(op, l, r);
  }

  lemma DepthForms(op: Token, l: Expr, r: Expr)
    ensures var n := Max(NeedBinary(l), 1 + NeedBinary(r));
            && NeedBinary(Binary(op, l, r)) == NeedBinary(Merge(l, r)) == n
            && NeedBinary(Range(l, r, false)) == NeedBinary(Range(l, r, true)) == n
            && NeedBinary(OrelseExpr(l, r)) == NeedBinary(CatchExpr(l, None, r)) == n
  {
    hide NeedUnary, Max;
  }

  /** For every two operators between three literals the grammar derives one of the two trees, and that one is read. */
  lemma PairGroups(a: Token, o1: Token, b: Token, o2: Token, c: Token)
    requires LiteralToken(a) && LiteralToken(b) && LiteralToken(c) && Infix(o1) && Infix(o2)
    ensures AssignmentL(RightFirst(a, o1, b, o2, c)) <==> !AssignmentL(LeftFirst(a, o1, b, o2, c))
    ensures Assignment([a, o1, b, o2, c], 1000) == Some((
      if AssignmentL(RightFirst(a, o1, b, o2, c)) then RightFirst(a, o1, b, o2, c) else LeftFirst(a, o1, b, o2, c), []))
  {
    hide Print, AssignmentL, NeedAssign, NeedBinary, Assignment, Node, WellFormed, Level, Precedence;
    var (l, r) := (LeftFirst(a, o1, b, o2, c), RightFirst(a, o1, b, o2, c));
    AtomRules(a);
    AtomRules(b);
    AtomRules(c);
    InfixIff(o1);
    InfixIff(o2);
    OperatorRules(o1, Atom(a), Atom(b));
    OperatorRules(o2, Atom(b), Atom(c));
    NodeRules(o1, Atom(a), Atom(b));
    NodeRules(o2, Node(o1, Atom(a), None, Atom(b)), Atom(c));
    NodeRules(o2, Atom(b), Atom(c));
    NodeRules(o1, Atom(a), Node(o2, Atom(b), None, Atom(c)));
    AssignmentLayer(l);
    AssignmentLayer(r);
    NeedsNoAssign(l);
    NeedsNoAssign(r);
    assert Print(l) + [] == [a, o1, b, o2, c] && Print(r) + [] == [a, o1, b, o2, c];
    ParsesIff([a, o1, b, o2, c], 1000, l, []);
    ParsesIff([a, o1, b, o2, c], 1000, r, []);
  }

  lemma AtomRules(t: Token)
    requires LiteralToken(t)
    ensures WellFormed(Atom(t)) && Print(Atom(t)) == [t] && Level(Atom(t)) == TIGHT && NeedBinary(Atom(t)) == 3
  {
  }

  lemma OperatorRules(op: Token, l: Expr, r: Expr)
    requires Infix(op)
    ensures var e := Node(op, l, None, r);
            Closing(e) == (if op.Orelse? || op.Catch? then 0 else Level(e))
    ensures OperandMin(op) == (if op.Orelse? || op.Catch? then 1 else Precedence(op) + 1)
    ensures 1 <= Precedence(op) < TIGHT && (op.Orelse? || op.Catch? ==> Precedence(op) == 1)
    ensures forall t: Token :: Closing(Atom(t)) == TIGHT
  {
    hide Precedence, Level;
    InfixIff(op);
    StrongestOperator(op);
    assert forall t: Token :: Level(Atom(t)) == TIGHT by {
      AtomLevel();
    }
  }

  lemma AtomLevel()
    ensures forall t: Token :: Level(Atom(t)) == TIGHT
  {
  }

  lemma NeedsNoAssign(e: Expr)
    requires !e.Assign?
    ensures NeedAssign(e) == 1 + NeedBinary(e)
  {
    hide NeedBinary;
  }
}
