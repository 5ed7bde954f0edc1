/**
 The expression grammar in layers, one nonterminal for each level of binding, with its own lists of tokens.  It knows
 no numbers: `1 + 2 * 3` is a sum because a product may stand to the right of `+`, and no product can have the sum on
 its left.
 */
module LayeredGrammar {
  import opened Expressions

  predicate LiteralToken(t: Token) {
    match t
    case TNull | TUndefined | TTrue | TFalse | TUnreachable => true
    case TInteger(_) | TFloat(_) | TChar(_) | TString(_) | TIdentifier(_) => true
    case _ => false
  }

  /** postfix = literal | "(" assignment ")" | postfix "." field | postfix ".*" */
  predicate PostfixL(e: Expr)
    decreases e, 0
  {
    match e
    case Atom(t) => LiteralToken(t)
    case Paren(x) => AssignmentL(x)
    case Member(b, f) => PostfixL(b) && (f.TIdentifier? || f.TInteger?)
    case Deref(b) => PostfixL(b)
    case _ => false
  }

  /** prefixed = ("-" | "+" | "!" | "~" | "&") prefixed | postfix */
  predicate PrefixedL(e: Expr)
    decreases e, 1
  {
    if e.Unary? then e.op in {Minus, Plus, Bang, Tilde, Ampersand} && PrefixedL(e.operand) else PostfixL(e)
  }

  /** unary = "try" unary | prefixed */
  predicate UnaryL(e: Expr)
    decreases e, 2
  {
    if e.TryExpr? then UnaryL(e.operand) else PrefixedL(e)
  }

  /** product = product ("*" | "*%" | "/" | "%") unary | unary */
  predicate ProductL(e: Expr)
    decreases e, 3
  {
    if e.Binary? && e.op in {Star, StarPercent, Slash, Percent} then ProductL(e.left) && UnaryL(e.right) else UnaryL(e)
  }

  /** sum = sum ("+" | "+%" | "-" | "-%") product | product */
  predicate SumL(e: Expr)
    decreases e, 4
  {
    if e.Binary? && e.op in {Plus, PlusPercent, Minus, MinusPercent} then SumL(e.left) && ProductL(e.right)
    else ProductL(e)
  }

  /** shift = shift ("<<" | ">>") sum | sum */
  predicate ShiftL(e: Expr)
    decreases e, 5
  {
    if e.Binary? && e.op in {LArrow2, RArrow2} then ShiftL(e.left) && SumL(e.right) else SumL(e)
  }

  /** bitAnd = bitAnd "&" shift | shift */
  predicate BitAndL(e: Expr)
    decreases e, 6
  {
    if e.Binary? && e.op in {Ampersand} then BitAndL(e.left) && ShiftL(e.right) else ShiftL(e)
  }

  /** bitXor = bitXor "^" bitAnd | bitAnd */
  predicate BitXorL(e: Expr)
    decreases e, 7
  {
    if e.Binary? && e.op in {Caret} then BitXorL(e.left) && BitAndL(e.right) else BitAndL(e)
  }

  /** bitOr = bitOr "|" bitXor | bitXor */
  predicate BitOrL(e: Expr)
    decreases e, 8
  {
    if e.Binary? && e.op in {Pipe} then BitOrL(e.left) && BitXorL(e.right) else BitXorL(e)
  }

  /** comparison = comparison ("==" | "!=" | "<" | ">" | "<=" | ">=") bitOr | bitOr */
  predicate ComparisonL(e: Expr)
    decreases e, 9
  {
    if e.Binary? && e.op in {EqualEqual, BangEqual, Less, Greater, LessEqual, GreaterEqual} then
      ComparisonL(e.left) && BitOrL(e.right)
    else BitOrL(e)
  }

  /** conjunction = conjunction "and" comparison | comparison */
  predicate ConjunctionL(e: Expr)
    decreases e, 10
  {
    if e.Binary? && e.op in {And} then ConjunctionL(e.left) && ComparisonL(e.right) else ComparisonL(e)
  }

  /** disjunction = disjunction "or" conjunction | conjunction */
  predicate DisjunctionL(e: Expr)
    decreases e, 11
  {
    if e.Binary? && e.op in {Or} then DisjunctionL(e.left) && ConjunctionL(e.right) else ConjunctionL(e)
  }

  /** chain = chain ("||" | ".." | "...") disjunction | disjunction */
  predicate ChainL(e: Expr)
    decreases e, 12
  {
    if e.Merge? || e.Range? then ChainL(e.left) && DisjunctionL(e.right) else DisjunctionL(e)
  }

  /** fallback = chain ("orelse" | "catch" ["|" name "|"]) fallback | chain */
  predicate FallbackL(e: Expr)
    decreases e, 13
  {
    if e.OrelseExpr? || e.CatchExpr? then ChainL(e.left) && FallbackL(e.right) else ChainL(e)
  }

  /** assignment = fallback ("=" | "+=" | ...) assignment | fallback */
  predicate AssignmentL(e: Expr)
    decreases e, 14
  {
    if e.Assign? then
      e.op in {Equal, PlusEqual, MinusEqual, StarEqual, SlashEqual, PercentEqual, AmpersandEqual, PipeEqual,
               CaretEqual, LArrow2Equal, RArrow2Equal}
      && FallbackL(e.left) && AssignmentL(e.right)
    else FallbackL(e)
  }

  /** The operators between two operands, from product to fallback. */
  predicate Infix(t: Token) {
    || t in {Star, StarPercent, Slash, Percent, Plus, PlusPercent, Minus, MinusPercent, LArrow2, RArrow2, Ampersand,
             Caret, Pipe, EqualEqual, BangEqual, Less, Greater, LessEqual, GreaterEqual, And, Or}
    || t in {Orelse, Catch, PipePipe, RangeDots, Ellipsis}
  }

  /** A token that goes on with the expression `e`. */
  predicate GoesOn(e: Expr, t: Token) {
    || Infix(t)
    || t in {Equal, PlusEqual, MinusEqual, StarEqual, SlashEqual, PercentEqual, AmpersandEqual, PipeEqual, CaretEqual,
             LArrow2Equal, RArrow2Equal}
    || t in {LParen, LBracket, Dot, DotAsterisk}
    || (t == LBrace && NamesType(Last(e)))
  }

  /** A brace starts an initializer only behind a name. */
  predicate NamesType(e: Expr) {
    match e
    case Atom(t) => t.TIdentifier?
    case Member(_, _) => true
    case _ => false
  }

  // ----- The layers are the precedence rules -----

  lemma {:induction false} PostfixLayer(e: Expr)
    ensures PostfixL(e) <==> WellFormed(e) && IsPostfixForm(e)
    decreases e, 0
  {
    hide AssignmentL, Precedence, Level, FitsLeft;
    match e
    case Paren(x) => AssignmentLayer(x);
    case Member(b, _) => PostfixLayer(b);
    case Deref(b) => PostfixLayer(b);
    case _ =>
  }

  lemma {:induction false} PrefixedLayer(e: Expr)
    ensures PrefixedL(e) <==> WellFormed(e) && (IsPostfixForm(e) || e.Unary?)
    decreases e, 1
  {
    hide PostfixL, Precedence, Level, FitsLeft;
    if e.Unary? {
      PrefixedLayer(e.operand);
    } else {
      PostfixLayer(e);
    }
  }

  lemma {:induction false} UnaryLayer(e: Expr)
    ensures UnaryL(e) <==> WellFormed(e) && Level(e) >= TIGHT
    decreases e, 2
  {
    hide PrefixedL;
    if e.TryExpr? {
      UnaryLayer(e.operand);
    } else {
      PrefixedLayer(e);
    }
  }

  lemma BinaryRules(e: Expr)
    ensures e.Binary? ==>
      Level(e) == Precedence(e.op)
      && (WellFormed(e) <==> Precedence(e.op) >= 2 && WellFormed(e.left) && WellFormed(e.right)
                             && FitsLeft(e.left, Precedence(e.op)) && Level(e.right) > Precedence(e.op))
    ensures !e.Binary? ==> Level(e) <= 1 || Level(e) == TIGHT
  {
    hide Precedence, FitsLeft, IsAtom, IsField, IsUnaryOp, IsAssignOp;
  }

  /** From one layer to the next looser one, whose operators have precedence `p`. */
  lemma LayerStep(e: Expr, p: int, inner: bool, mine: bool, left: bool, right: bool)
    requires 2 <= p <= 10 && (inner <==> WellFormed(e) && Level(e) >= p + 1)
    requires mine <==> e.Binary? && Precedence(e.op) == p
    requires e.Binary? ==> (left <==> WellFormed(e.left) && Level(e.left) >= p)
    requires e.Binary? ==> (right <==> WellFormed(e.right) && Level(e.right) >= p + 1)
    ensures (if mine then left && right else inner) <==> WellFormed(e) && Level(e) >= p
  {
    hide Precedence, WellFormed;
    BinaryRules(e);
    if mine && !e.left.Binary? {
      BinaryRules(e.left);
    }
  }

  lemma {:induction false} ProductLayer(e: Expr)
    ensures ProductL(e) <==> WellFormed(e) && Level(e) >= 10
    decreases e, 3
  {
    hide UnaryL, WellFormed, Level, Precedence;
    UnaryLayer(e);
    if e.Binary? {
      ProductLayer(e.left);
      UnaryLayer(e.right);
      ProductTokens(e.op);
      LayerStep(e, 10, UnaryL(e), e.op in {Star, StarPercent, Slash, Percent}, ProductL(e.left), UnaryL(e.right));
    } else {
      LayerStep(e, 10, UnaryL(e), false, false, false);
    }
  }

  lemma ProductTokens(op: Token)
    ensures op in {Star, StarPercent, Slash, Percent} <==> Precedence(op) == 10
  {
  }

  lemma {:induction false} SumLayer(e: Expr)
    ensures SumL(e) <==> WellFormed(e) && Level(e) >= 9
    decreases e, 4
  {
    hide ProductL, WellFormed, Level, Precedence;
    ProductLayer(e);
    if e.Binary? {
      SumLayer(e.left);
      ProductLayer(e.right);
      SumTokens(e.op);
      LayerStep(e, 9, ProductL(e), e.op in {Plus, PlusPercent, Minus, MinusPercent}, SumL(e.left), ProductL(e.right));
    } else {
      LayerStep(e, 9, ProductL(e), false, false, false);
    }
  }

  lemma SumTokens(op: Token)
    ensures op in {Plus, PlusPercent, Minus, MinusPercent} <==> Precedence(op) == 9
  {
  }

  lemma {:induction false} ShiftLayer(e: Expr)
    ensures ShiftL(e) <==> WellFormed(e) && Level(e) >= 8
    decreases e, 5
  {
    hide SumL, WellFormed, Level, Precedence;
    SumLayer(e);
    if e.Binary? {
      ShiftLayer(e.left);
      SumLayer(e.right);
      ShiftTokens(e.op);
      LayerStep(e, 8, SumL(e), e.op in {LArrow2, RArrow2}, ShiftL(e.left), SumL(e.right));
    } else {
      LayerStep(e, 8, SumL(e), false, false, false);
    }
  }

  lemma ShiftTokens(op: Token)
    ensures op in {LArrow2, RArrow2} <==> Precedence(op) == 8
  {
  }

  lemma {:induction false} BitAndLayer(e: Expr)
    ensures BitAndL(e) <==> WellFormed(e) && Level(e) >= 7
    decreases e, 6
  {
    hide ShiftL, WellFormed, Level, Precedence;
    ShiftLayer(e);
    if e.Binary? {
      BitAndLayer(e.left);
      ShiftLayer(e.right);
      BitAndTokens(e.op);
      LayerStep(e, 7, ShiftL(e), e.op in {Ampersand}, BitAndL(e.left), ShiftL(e.right));
    } else {
      LayerStep(e, 7, ShiftL(e), false, false, false);
    }
  }

  lemma BitAndTokens(op: Token)
    ensures op in {Ampersand} <==> Precedence(op) == 7
  {
  }

  lemma {:induction false} BitXorLayer(e: Expr)
    ensures BitXorL(e) <==> WellFormed(e) && Level(e) >= 6
    decreases e, 7
  {
    hide BitAndL, WellFormed, Level, Precedence;
    BitAndLayer(e);
    if e.Binary? {
      BitXorLayer(e.left);
      BitAndLayer(e.right);
      BitXorTokens(e.op);
      LayerStep(e, 6, BitAndL(e), e.op in {Caret}, BitXorL(e.left), BitAndL(e.right));
    } else {
      LayerStep(e, 6, BitAndL(e), false, false, false);
    }
  }

  lemma BitXorTokens(op: Token)
    ensures op in {Caret} <==> Precedence(op) == 6
  {
  }

  lemma {:induction false} BitOrLayer(e: Expr)
    ensures BitOrL(e) <==> WellFormed(e) && Level(e) >= 5
    decreases e, 8
  {
    hide BitXorL, WellFormed, Level, Precedence;
    BitXorLayer(e);
    if e.Binary? {
      BitOrLayer(e.left);
      BitXorLayer(e.right);
      BitOrTokens(e.op);
      LayerStep(e, 5, BitXorL(e), e.op in {Pipe}, BitOrL(e.left), BitXorL(e.right));
    } else {
      LayerStep(e, 5, BitXorL(e), false, false, false);
    }
  }

  lemma BitOrTokens(op: Token)
    ensures op in {Pipe} <==> Precedence(op) == 5
  {
  }

  lemma {:induction false} ComparisonLayer(e: Expr)
    ensures ComparisonL(e) <==> WellFormed(e) && Level(e) >= 4
    decreases e, 9
  {
    hide BitOrL, WellFormed, Level, Precedence;
    BitOrLayer(e);
    if e.Binary? {
      ComparisonLayer(e.left);
      BitOrLayer(e.right);
      ComparisonTokens(e.op);
      LayerStep(e, 4, BitOrL(e), e.op in {EqualEqual, BangEqual, Less, Greater, LessEqual, GreaterEqual},
                ComparisonL(e.left), BitOrL(e.right));
    } else {
      LayerStep(e, 4, BitOrL(e), false, false, false);
    }
  }

  lemma ComparisonTokens(op: Token)
    ensures op in {EqualEqual, BangEqual, Less, Greater, LessEqual, GreaterEqual} <==> Precedence(op) == 4
  {
  }

  lemma {:induction false} ConjunctionLayer(e: Expr)
    ensures ConjunctionL(e) <==> WellFormed(e) && Level(e) >= 3
    decreases e, 10
  {
    hide ComparisonL, WellFormed, Level, Precedence;
    ComparisonLayer(e);
    if e.Binary? {
      ConjunctionLayer(e.left);
      ComparisonLayer(e.right);
      ConjunctionTokens(e.op);
      LayerStep(e, 3, ComparisonL(e), e.op in {And}, ConjunctionL(e.left), ComparisonL(e.right));
    } else {
      LayerStep(e, 3, ComparisonL(e), false, false, false);
    }
  }

  lemma ConjunctionTokens(op: Token)
    ensures op in {And} <==> Precedence(op) == 3
  {
  }

  lemma {:induction false} DisjunctionLayer(e: Expr)
    ensures DisjunctionL(e) <==> WellFormed(e) && Level(e) >= 2
    decreases e, 11
  {
    hide ConjunctionL, WellFormed, Level, Precedence;
    ConjunctionLayer(e);
    if e.Binary? {
      DisjunctionLayer(e.left);
      ConjunctionLayer(e.right);
      DisjunctionTokens(e.op);
      LayerStep(e, 2, ConjunctionL(e), e.op in {Or}, DisjunctionL(e.left), ConjunctionL(e.right));
    } else {
      LayerStep(e, 2, ConjunctionL(e), false, false, false);
    }
  }

  lemma DisjunctionTokens(op: Token)
    ensures op in {Or} <==> Precedence(op) == 2
  {
  }

  lemma FitsIff(e: Expr)
    ensures FitsLeft(e, 1) <==> Level(e) >= 1 && !e.OrelseExpr? && !e.CatchExpr?
  {
    hide Level;
  }

  lemma LooseLevels(e: Expr)
    ensures e.Merge? || e.Range? || e.OrelseExpr? || e.CatchExpr? ==> Level(e) == 1
    ensures e.Assign? ==> Level(e) == 0
  {
    hide Precedence;
  }

  lemma LooseRules(e: Expr)
    ensures e.Merge? || e.Range? ==>
      (WellFormed(e) <==> WellFormed(e.left) && WellFormed(e.right) && FitsLeft(e.left, 1) && Level(e.right) > 1)
    ensures e.OrelseExpr? || e.CatchExpr? ==>
      (WellFormed(e) <==> WellFormed(e.left) && WellFormed(e.right) && FitsLeft(e.left, 1) && Level(e.right) >= 1)
    ensures e.Assign? ==>
      (WellFormed(e) <==> IsAssignOp(e.op) && WellFormed(e.left) && WellFormed(e.right) && Level(e.left) >= 1)
  {
    hide Precedence, FitsLeft, Level, IsAtom, IsField, IsUnaryOp, IsAssignOp;
  }

  /** Every other tree that obeys the rules binds at least as tightly as `or`. */
  lemma TightEnough(e: Expr)
    requires WellFormed(e) && !e.Merge? && !e.Range? && !e.OrelseExpr? && !e.CatchExpr? && !e.Assign?
    ensures Level(e) >= 2
  {
    hide Precedence;
    BinaryRules(e);
    if !e.Binary? {
      OtherLevels(e);
    }
  }

  lemma OtherLevels(e: Expr)
    requires !e.Binary? && !e.Merge? && !e.Range? && !e.OrelseExpr? && !e.CatchExpr? && !e.Assign?
    ensures Level(e) == TIGHT
  {
    hide Precedence;
  }

  lemma {:induction false} ChainLayer(e: Expr)
    ensures ChainL(e) <==> WellFormed(e) && FitsLeft(e, 1)
    decreases e, 12
  {
    hide DisjunctionL, WellFormed, Level, FitsLeft;
    FitsIff(e);
    LooseLevels(e);
    if e.Merge? || e.Range? {
      LooseRules(e);
      ChainLayer(e.left);
      DisjunctionLayer(e.right);
    } else {
      DisjunctionLayer(e);
      if WellFormed(e) && !e.OrelseExpr? && !e.CatchExpr? && !e.Assign? {
        TightEnough(e);
      }
    }
  }

  lemma {:induction false} FallbackLayer(e: Expr)
    ensures FallbackL(e) <==> WellFormed(e) && Level(e) >= 1
    decreases e, 13
  {
    hide ChainL, WellFormed, Level, FitsLeft;
    FitsIff(e);
    LooseLevels(e);
    if e.OrelseExpr? || e.CatchExpr? {
      LooseRules(e);
      ChainLayer(e.left);
      FallbackLayer(e.right);
    } else {
      ChainLayer(e);
    }
  }

  /** The trees of the grammar are those that obey the parser's table of precedences. */
  lemma {:induction false} AssignmentLayer(e: Expr)
    ensures AssignmentL(e) <==> WellFormed(e)
    decreases e, 14
  {
    hide FallbackL, WellFormed, Level, FitsLeft, IsAssignOp;
    LooseLevels(e);
    if e.Assign? {
      LooseRules(e);
      AssignTokens(e.op);
      FallbackLayer(e.left);
      AssignmentLayer(e.right);
    } else {
      FallbackLayer(e);
      if WellFormed(e) && !e.Merge? && !e.Range? && !e.OrelseExpr? && !e.CatchExpr? {
        TightEnough(e);
      }
    }
  }

  lemma AssignTokens(op: Token)
    ensures op in {Equal, PlusEqual, MinusEqual, StarEqual, SlashEqual, PercentEqual, AmpersandEqual, PipeEqual,
                   CaretEqual, LArrow2Equal, RArrow2Equal}
      <==> IsAssignOp(op)
  {
  }

  lemma InfixIff(t: Token)
    ensures Infix(t) <==> Precedence(t) >= 1
  {
  }

  lemma GoesOnIff(e: Expr, t: Token)
    ensures GoesOn(e, t) <==> Precedence(t) >= 1 || IsAssignOp(t) || Continues(Last(e), t)
  {
    hide Last, Infix, Precedence;
    InfixIff(t);
  }
}
