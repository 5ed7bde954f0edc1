/**
 Expression trees, the trees that obey the precedence rules, their printed tokens, and the
 recursion depth the parser needs for them.
 */
module Expressions {
  import opened Options

  datatype Token =
    | TNull | TUndefined | TTrue | TFalse | TUnreachable
    | TInteger(n: nat) | TFloat(text: string) | TChar(c: nat) | TString(s: string) | TIdentifier(x: string)
    | LParen | RParen | LBracket | LBrace | Dot | DotAsterisk
    | Try | Orelse | Catch | PipePipe | RangeDots | Ellipsis
    | Star | StarPercent | Slash | Percent | Plus | PlusPercent | Minus | MinusPercent
    | LArrow2 | RArrow2 | Ampersand | Caret | Pipe
    | EqualEqual | BangEqual | Less | Greater | LessEqual | GreaterEqual | And | Or
    | Bang | Tilde
    | Equal | PlusEqual | MinusEqual | StarEqual | SlashEqual | PercentEqual
    | AmpersandEqual | PipeEqual | CaretEqual | LArrow2Equal | RArrow2Equal
    | Other

  datatype Expr =
    | Atom(t: Token)
    | Paren(inner: Expr)
    | Member(base: Expr, field: Token)
    | Deref(base: Expr)
    | Unary(op: Token, operand: Expr)
    | TryExpr(operand: Expr)
    | Binary(op: Token, left: Expr, right: Expr)
    | Merge(left: Expr, right: Expr)
    | Range(left: Expr, right: Expr, inclusive: bool)
    | OrelseExpr(left: Expr, right: Expr)
    | CatchExpr(left: Expr, capture: Option<string>, right: Expr)
    | Assign(op: Token, left: Expr, right: Expr)

  /** Binding strength of a binary operator, -1 for every other token. */
  function Precedence(t: Token): int {
    match t
    case Star | StarPercent | Slash | Percent => 10
    case Plus | PlusPercent | Minus | MinusPercent => 9
    case LArrow2 | RArrow2 => 8
    case Ampersand => 7
    case Caret => 6
    case Pipe => 5
    case EqualEqual | BangEqual | Less | Greater | LessEqual | GreaterEqual => 4
    case And => 3
    case Or => 2
    case Orelse | Catch | PipePipe | RangeDots | Ellipsis => 1
    case _ => -1
  }

  predicate IsUnaryOp(t: Token) {
    t.Minus? || t.Plus? || t.Bang? || t.Tilde? || t.Ampersand?
  }

  predicate IsAssignOp(t: Token) {
    t.Equal? || t.PlusEqual? || t.MinusEqual? || t.StarEqual? || t.SlashEqual? || t.PercentEqual?
    || t.AmpersandEqual? || t.PipeEqual? || t.CaretEqual? || t.LArrow2Equal? || t.RArrow2Equal?
  }

  predicate IsAtom(t: Token) {
    t.TNull? || t.TUndefined? || t.TTrue? || t.TFalse? || t.TUnreachable?
    || t.TInteger? || t.TFloat? || t.TChar? || t.TString? || t.TIdentifier?
  }

  predicate IsField(t: Token) {
    t.TIdentifier? || t.TInteger?
  }

  /** Does `t` continue the postfix expression `e`?  A brace does only where `e` can name a type. */
  predicate Continues(e: Expr, t: Token) {
    t.LParen? || t.LBracket? || t.Dot? || t.DotAsterisk?
    || (t.LBrace? && (e.Member? || (e.Atom? && e.t.TIdentifier?)))
  }

  /** The postfix expression `e` ends with. */
  function Last(e: Expr): Expr {
    match e
    case Atom(_) => e
    case Paren(_) => e
    case Member(_, _) => e
    case Deref(_) => e
    case Unary(_, x) => Last(x)
    case TryExpr(x) => Last(x)
    case Binary(_, _, r) => Last(r)
    case Merge(_, r) => Last(r)
    case Range(_, r, _) => Last(r)
    case OrelseExpr(_, r) => Last(r)
    case CatchExpr(_, _, r) => Last(r)
    case Assign(_, _, r) => Last(r)
  }

  // ----- The precedence rules, stated on trees -----

  const TIGHT := 11

  function Level(e: Expr): int {
    match e
    case Binary(op, _, _) => Precedence(op)
    case Merge(_, _) => 1
    case Range(_, _, _) => 1
    case OrelseExpr(_, _) => 1
    case CatchExpr(_, _, _) => 1
    case Assign(_, _, _) => 0
    case _ => TIGHT
  }

  predicate IsPostfixForm(e: Expr) {
    e.Atom? || e.Paren? || e.Member? || e.Deref?
  }

  /** May `e` stand unparenthesised to the left of an operator of precedence `p`? */
  predicate FitsLeft(e: Expr, p: int) {
    Level(e) >= p && !e.OrelseExpr? && !e.CatchExpr?
  }

  predicate WellFormed(e: Expr) {
    match e
    case Atom(t) => IsAtom(t)
    case Paren(x) => WellFormed(x)
    case Member(b, f) => WellFormed(b) && IsPostfixForm(b) && IsField(f)
    case Deref(b) => WellFormed(b) && IsPostfixForm(b)
    case Unary(op, x) => IsUnaryOp(op) && WellFormed(x) && (IsPostfixForm(x) || x.Unary?)
    case TryExpr(x) => WellFormed(x) && Level(x) == TIGHT
    case Binary(op, l, r) =>
      Precedence(op) >= 2 && WellFormed(l) && WellFormed(r)
      && FitsLeft(l, Precedence(op)) && Level(r) > Precedence(op)
    case Merge(l, r) => WellFormed(l) && WellFormed(r) && FitsLeft(l, 1) && Level(r) > 1
    case Range(l, r, _) => WellFormed(l) && WellFormed(r) && FitsLeft(l, 1) && Level(r) > 1
    case OrelseExpr(l, r) => WellFormed(l) && WellFormed(r) && FitsLeft(l, 1) && Level(r) >= 1
    case CatchExpr(l, _, r) => WellFormed(l) && WellFormed(r) && FitsLeft(l, 1) && Level(r) >= 1
    case Assign(op, l, r) => IsAssignOp(op) && WellFormed(l) && WellFormed(r) && Level(l) >= 1
  }

  // ----- Printing -----

  function Print(e: Expr): seq<Token> {
    match e
    case Atom(t) => [t]
    case Paren(x) => [LParen] + (Print(x) + [RParen])
    case Member(b, f) => Print(b) + [Dot, f]
    case Deref(b) => Print(b) + [DotAsterisk]
    case Unary(op, x) => [op] + Print(x)
    case TryExpr(x) => [Try] + Print(x)
    case Binary(op, l, r) => Print(l) + ([op] + Print(r))
    case Merge(l, r) => Print(l) + ([PipePipe] + Print(r))
    case Range(l, r, incl) => Print(l) + ([if incl then Ellipsis else RangeDots] + Print(r))
    case OrelseExpr(l, r) => Print(l) + ([Orelse] + Print(r))
    case CatchExpr(l, c, r) => Print(l) + ([Catch] + (PrintCapture(c) + Print(r)))
    case Assign(op, l, r) => Print(l) + ([op] + Print(r))
  }

  function PrintCapture(c: Option<string>): seq<Token> {
    if c.Some? then [Pipe, TIdentifier(c.value), Pipe] else []
  }

  // ----- Recursion depth -----

  function Max(a: nat, b: nat): nat {
    if a > b then a else b
  }

  /** Levels of recursion below and including the assignment parser. */
  function NeedAssign(e: Expr): nat
    decreases e, 3
  {
    match e
    case Assign(_, l, r) => 1 + Max(NeedBinary(l), NeedAssign(r))
    case _ => 1 + NeedBinary(e)
  }

  /** Levels below and including the precedence parser: left operands are looped over, right ones recursed into. */
  function NeedBinary(e: Expr): nat
    decreases e, 2
  {
    match e
    case Binary(_, l, r) => Max(NeedBinary(l), 1 + NeedBinary(r))
    case Merge(l, r) => Max(NeedBinary(l), 1 + NeedBinary(r))
    case Range(l, r, _) => Max(NeedBinary(l), 1 + NeedBinary(r))
    case OrelseExpr(l, r) => Max(NeedBinary(l), 1 + NeedBinary(r))
    case CatchExpr(l, _, r) => Max(NeedBinary(l), 1 + NeedBinary(r))
    case _ => 1 + NeedUnary(e)
  }

  function NeedUnary(e: Expr): nat
    decreases e, 1
  {
    match e
    case TryExpr(x) => 1 + NeedUnary(x)
    case Unary(_, x) => NeedUnary(x)
    case _ => 1 + NeedPostfix(e)
  }

  function NeedPostfix(e: Expr): nat
    decreases e, 0
  {
    match e
    case Paren(x) => 1 + NeedAssign(x)
    case Member(b, _) => NeedPostfix(b)
    case Deref(b) => NeedPostfix(b)
    case _ => 1
  }
}
