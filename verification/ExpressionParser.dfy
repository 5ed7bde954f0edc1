/**
 The expression parser itself: a cursor, a recursion counter, and the loops that rebuild the
 left operand.  Every method computes what `ExpressionGrammar` says; `None` is the error exit.
 */
module ExpressionParser {
  import opened Options
  import opened Expressions
  import opened ExpressionGrammar

  const MAX_PARSER_RECURSION_DEPTH: nat := 1000

  class Parser {
    const tokens: seq<Token>
    var current: nat
    var depth: nat

    ghost predicate Valid()
      reads this
    {
      current <= |tokens| && depth <= MAX_PARSER_RECURSION_DEPTH
    }

    ghost function Ahead(): seq<Token>
      requires Valid()
      reads this
    {
      tokens[current..]
    }

    ghost function Room(): nat
      requires Valid()
      reads this
    {
      MAX_PARSER_RECURSION_DEPTH - depth
    }

    /** `r` and the cursor are what the grammar function returned. */
    ghost predicate Returned(r: Option<Expr>, p: Parsed)
      reads this
    {
      if p.None? then r.None? else Valid() && p == Some((p.value.0, Ahead())) && r == Some(p.value.0)
    }

    constructor (ts: seq<Token>)
      ensures Valid() && tokens == ts && Ahead() == ts && depth == 0
    {
      tokens := ts;
      current := 0;
      depth := 0;
    }

    /** The next token, if any. */
    predicate NextIs(t: Token)
      requires current <= |tokens|
      reads this
    {
      current < |tokens| && tokens[current] == t
    }

    method ParseExpression() returns (r: Option<Expr>)
      requires Valid()
      modifies this
      ensures Returned(r, Assignment(old(Ahead()), old(Room())))
      ensures r.Some? ==> depth == old(depth)
      decreases |tokens| - current, 11
    {
      r := ParseAssignmentExpression();
    }

    method ParseAssignmentExpression() returns (r: Option<Expr>)
      requires Valid()
      modifies this
      ensures Returned(r, Assignment(old(Ahead()), old(Room())))
      ensures r.Some? ==> depth == old(depth)
      decreases |tokens| - current, 10
    {
      hide Prec;
      if depth + 1 > MAX_PARSER_RECURSION_DEPTH {
        return None;
      }
      depth := depth + 1;
      var left := ParsePrecedenceExpr(1);
      if left.None? {
        return None;
      }
      if current < |tokens| && IsAssignOp(tokens[current]) {
        var op := tokens[current];
        assert tokens[current..][1..] == tokens[current + 1..];
        current := current + 1;
        var right := ParseAssignmentExpression();
        if right.None? {
          return None;
        }
        depth := depth - 1;
        return Some(Assign(op, left.value, right.value));
      }
      depth := depth - 1;
      return left;
    }

    method ParsePrecedenceExpr(min: int) returns (r: Option<Expr>)
      requires Valid() && min >= 1
      modifies this
      ensures Returned(r, Prec(old(Ahead()), min, old(Room())))
      ensures r.Some? ==> depth == old(depth) && current > old(current)
      decreases |tokens| - current, 9
    {
      hide UnaryExpr, Operand, Precedence;
      if depth + 1 > MAX_PARSER_RECURSION_DEPTH {
        return None;
      }
      depth := depth + 1;
      r := ParseUnaryExpr();
      if r.None? {
        return None;
      }
      var left := r.value;
      while current < |tokens| && Precedence(tokens[current]) >= min
        invariant Valid() && depth == old(depth) + 1 && current > old(current)
        invariant Loop(left, Ahead(), min, Room()) == Prec(old(Ahead()), min, old(Room()))
        decreases |tokens| - current
      {
        var op := tokens[current];
        var precedence := Precedence(op);
        LoopStep(left, Ahead(), min, Room());
        var cap, right := ParseOperand(op, if op.Catch? || op.Orelse? then precedence else precedence + 1);
        if right.None? {
          return None;
        }
        match op
        case Catch => left := CatchExpr(left, cap, right.value);
        case Orelse => left := OrelseExpr(left, right.value);
        case PipePipe => left := Merge(left, right.value);
        case RangeDots => left := Range(left, right.value, false);
        case Ellipsis => left := Range(left, right.value, true);
        case _ => left := Binary(op, left, right.value);
      }
      LoopEnds(left, Ahead(), min, Room());
      depth := depth - 1;
      return Some(left);
    }

    /** Consumes the operator, a capture after `catch`, and the right operand. */
    method ParseOperand(op: Token, min: int) returns (cap: Option<string>, r: Option<Expr>)
      requires Valid() && NextIs(op) && Precedence(op) >= 1
      requires min == if op.Catch? || op.Orelse? then Precedence(op) else Precedence(op) + 1
      modifies this
      ensures var p := Operand(old(Ahead()), old(Room()));
              if p.None? then r.None?
              else Valid() && p == Some((cap, p.value.1, Ahead())) && r == Some(p.value.1)
      ensures r.Some? ==> depth == old(depth) && current > old(current)
      decreases |tokens| - current, 7
    {
      hide Prec, Precedence;
      ghost var ts := Ahead();
      current := current + 1;
      cap := None;
      if op.Catch? && NextIs(Pipe) {
        current := current + 1;
        if !(current < |tokens| && tokens[current].TIdentifier?) {
          return None, None;
        }
        cap := Some(tokens[current].x);
        current := current + 1;
        if !NextIs(Pipe) {
          return None, None;
        }
        current := current + 1;
        assert Ahead() == ts[4..];
      } else {
        assert Ahead() == ts[1..];
      }
      r := ParsePrecedenceExpr(min);
    }

    method ParseUnaryExpr() returns (r: Option<Expr>)
      requires Valid()
      modifies this
      ensures Returned(r, UnaryExpr(old(Ahead()), old(Room())))
      ensures r.Some? ==> depth == old(depth) && current > old(current)
      decreases |tokens| - current, 6
    {
      hide Postfix, IsUnaryOp;
      if depth + 1 > MAX_PARSER_RECURSION_DEPTH {
        return None;
      }
      depth := depth + 1;
      if NextIs(Try) {
        assert tokens[current..][1..] == tokens[current + 1..];
        current := current + 1;
        r := ParseUnaryExpr();
        if r.Some? {
          depth := depth - 1;
          r := Some(TryExpr(r.value));
        }
        return r;
      }
      ghost var start, k := Ahead(), Room();
      var operators: seq<Token> := [];
      while current < |tokens| && IsUnaryOp(tokens[current])
        invariant Valid() && depth == old(depth) + 1 && current >= old(current)
        invariant Chain(start, k) == Prefixed(operators, Chain(Ahead(), k))
      {
        ghost var ts := Ahead();
        ChainStep(operators, ts, k);
        operators := operators + [tokens[current]];
        current := current + 1;
        assert ts[1..] == Ahead();
      }
      ChainEnds(Ahead(), k);
      r := ParsePostfixExpression();
      if r.None? {
        PrefixedNone(operators);
        return None;
      }
      var expr := r.value;
      var i := |operators|;
      assert operators[..i] == operators;
      while i > 0
        invariant 0 <= i <= |operators|
        invariant Prefixed(operators[..i], Some((expr, Ahead()))) == Chain(start, k)
      {
        i := i - 1;
        assert operators[..i + 1][..i] == operators[..i];
        expr := Unary(operators[i], expr);
      }
      depth := depth - 1;
      return Some(expr);
    }

    method ParsePostfixExpression() returns (r: Option<Expr>)
      requires Valid()
      modifies this
      ensures Returned(r, Postfix(old(Ahead()), old(Room())))
      ensures r.Some? ==> depth == old(depth) && current > old(current)
      decreases |tokens| - current, 4
    {
      hide Primary;
      if depth + 1 > MAX_PARSER_RECURSION_DEPTH {
        return None;
      }
      depth := depth + 1;
      r := ParsePrimaryExpr();
      if r.None? {
        return None;
      }
      var expr := r.value;
      while current < |tokens| && Continues(expr, tokens[current])
        invariant Valid() && depth == old(depth) + 1 && current > old(current)
        invariant PostfixLoop(expr, Ahead()) == Postfix(old(Ahead()), old(Room()))
      {
        ghost var ts := Ahead();
        if tokens[current] == DotAsterisk {
          expr := Deref(expr);
          current := current + 1;
          assert Ahead() == ts[1..];
        } else if tokens[current] == Dot && current + 1 < |tokens| && IsField(tokens[current + 1]) {
          expr := Member(expr, tokens[current + 1]);
          current := current + 2;
          assert Ahead() == ts[2..];
        } else {
          return None;
        }
      }
      depth := depth - 1;
      return Some(expr);
    }

    method ParsePrimaryExpr() returns (r: Option<Expr>)
      requires Valid()
      modifies this
      ensures Returned(r, Primary(old(Ahead()), old(Room())))
      ensures r.Some? ==> depth == old(depth) && current > old(current)
      decreases |tokens| - current, 3
    {
      hide Assignment;
      ghost var ts := Ahead();
      if current == |tokens| {
        return None;
      }
      var token := tokens[current];
      if IsAtom(token) {
        current := current + 1;
        assert Ahead() == ts[1..];
        return Some(Atom(token));
      }
      if token != LParen {
        return None;
      }
      current := current + 1;
      assert Ahead() == ts[1..];
      var inner := ParseExpression();
      if inner.None? || !NextIs(RParen) {
        return None;
      }
      ghost var rest := Ahead();
      current := current + 1;
      assert Ahead() == rest[1..];
      return Some(Paren(inner.value));
    }
  }

  /** The result of a postfix expression with the prefix operators collected before it. */
  function Prefixed(ops: seq<Token>, p: Parsed): Parsed {
    if ops == [] then p else Prefixed(ops[..|ops| - 1], WithPrefix(ops[|ops| - 1], p))
  }

  function WithPrefix(op: Token, p: Parsed): Parsed {
    match p
    case None => None
    case Some((e, rest)) => Some((Unary(op, e), rest))
  }

  lemma PrefixedNone(ops: seq<Token>)
    ensures Prefixed(ops, None) == None
  {
  }

  lemma ChainStep(ops: seq<Token>, ts: seq<Token>, k: nat)
    requires ts != [] && IsUnaryOp(ts[0])
    ensures Prefixed(ops, Chain(ts, k)) == Prefixed(ops + [ts[0]], Chain(ts[1..], k))
  {
    hide Postfix;
    assert (ops + [ts[0]])[..|ops|] == ops;
  }

  lemma ChainEnds(ts: seq<Token>, k: nat)
    requires ts == [] || !IsUnaryOp(ts[0])
    ensures Chain(ts, k) == Postfix(ts, k)
  {
  }

  lemma LoopEnds(left: Expr, ts: seq<Token>, min: int, k: nat)
    requires min >= 1 && (ts == [] || Precedence(ts[0]) < min)
    ensures Loop(left, ts, min, k) == Some((left, ts))
  {
  }
}
