/** The expression parser as it runs over its tokens. */
module Parser {
  import opened Syntax
  import opened Surface
  import opened Reader

  class Parser {
    const tokens: seq<Token>
    var pos: nat

    constructor (tokens: seq<Token>)
      ensures this.tokens == tokens && pos == 0
    {
      this.tokens, pos := tokens, 0;
    }

    ghost predicate Valid()
      reads this
    {
      pos <= |tokens|
    }

    ghost function Rest(): seq<Token>
      requires Valid()
      reads this
    {
      tokens[pos..]
    }

    /** The parser has returned what the reader says, and stands where the reader stops. */
    ghost predicate Agrees(r: Option<Expr>, s: Reading)
      reads this
    {
      Valid() && if s.Failed? then r.None? else r == Some(s.expr) && Rest() == s.rest
    }

    predicate At(t: Token)
      requires Valid()
      reads this
      ensures At(t) <==> StartsWith(Rest(), t)
    {
      pos < |tokens| && tokens[pos] == t
    }

    method ParseExpressionWithPrecedence(min: nat) returns (r: Option<Expr>)
      requires Valid()
      modifies this`pos
      ensures Agrees(r, ReadExpr(Yps, old(Rest()), min))
      ensures pos >= old(pos)
      decreases |tokens| - pos, 3
    {
      var first := ParsePrefix();
      if first.None? {
        return None;
      }
      var lhs := first.value;
      while true
        invariant Valid() && pos > old(pos)
        invariant ReadExpr(Yps, old(Rest()), min) == Climb(Yps, lhs, Rest(), min)
        decreases |tokens| - pos
      {
        hide *;
        if At(Question) && min <= TERNARY {
          var conditional := ParseConditional(lhs, min);
          if conditional.None? {
            return None;
          }
          lhs := conditional.value;
        } else {
          var op := TryParseBinaryOp();
          if op.None? {
            ClimbEnds(lhs, Rest(), min);
            break;
          }
          var precedence := Level(op.value);
          if precedence < min {
            ClimbEnds(lhs, Rest(), min);
            break;
          }
          var binary := ParseBinary(lhs, op.value, min);
          if binary.None? {
            return None;
          }
          lhs := binary.value;
        }
      }
      r := Some(lhs);
    }

    method ParseConditional(condition: Expr, ghost min: nat) returns (r: Option<Expr>)
      requires Valid() && At(Question) && min <= TERNARY
      modifies this`pos
      ensures Valid() && pos > old(pos)
      ensures Climb(Yps, condition, old(Rest()), min) == if r.None? then Failed else Climb(Yps, r.value, Rest(), min)
      decreases |tokens| - pos, 2
    {
      pos := pos + 1;
      var thenExpr := ParseExpressionWithPrecedence(0);
      if thenExpr.None? || !At(Colon) {
        return None;
      }
      pos := pos + 1;
      var elseExpr := ParseExpressionWithPrecedence(TERNARY);
      if elseExpr.None? {
        return None;
      }
      r := Some(Conditional(condition, thenExpr.value, elseExpr.value));
    }

    method ParseBinary(lhs: Expr, op: BinaryOp, ghost min: nat) returns (r: Option<Expr>)
      requires Valid() && pos < |tokens| && AsBinary(tokens[pos]) == Some(op) && min <= Level(op)
      modifies this`pos
      ensures Valid() && pos > old(pos)
      ensures Climb(Yps, lhs, old(Rest()), min) == if r.None? then Failed else Climb(Yps, r.value, Rest(), min)
      decreases |tokens| - pos, 2
    {
      hide ReadExpr, ReadPrefix, Operand, Level;
      pos := pos + 1;
      var next := if RightAssoc(op) then Level(op) else Level(op) + 1;
      var rhs := ParseExpressionWithPrecedence(next);
      if rhs.None? {
        return None;
      }
      r := Some(Binary(op, lhs, rhs.value));
    }

    method TryParseBinaryOp() returns (op: Option<BinaryOp>)
      requires Valid()
      ensures op == if pos < |tokens| then AsBinary(tokens[pos]) else None
    {
      op := if pos < |tokens| then AsBinary(tokens[pos]) else None;
    }

    method ParsePrefix() returns (r: Option<Expr>)
      requires Valid()
      modifies this`pos
      ensures Agrees(r, ReadPrefix(Yps, old(Rest())))
      ensures pos >= old(pos) && (r.Some? ==> pos > old(pos))
      decreases |tokens| - pos, 1
    {
      hide ReadExpr, Climb;
      if pos == |tokens| {
        return None;
      }
      var t := tokens[pos];
      var e: Expr;
      if AsUnary(t).Some? {
        pos := pos + 1;
        var operand := ParseExpressionWithPrecedence(UNARY);
        if operand.None? {
          return None;
        }
        e := Unary(AsUnary(t).value, operand.value);
      } else {
        var primary := ParsePrimary();
        if primary.None? {
          return None;
        }
        e := primary.value;
      }
      ghost var start, after := e, Rest();
      while pos < |tokens| && AsPostfix(tokens[pos]).Some?
        invariant Valid() && pos > old(pos)
        invariant Operand(start, after) == Operand(e, Rest())
      {
        e := Postfix(AsPostfix(tokens[pos]).value, e);
        pos := pos + 1;
      }
      r := if At(Open) then None else Some(e);
    }

    /** A name, a literal, or an expression in brackets. */
    method ParsePrimary() returns (r: Option<Expr>)
      requires Valid() && pos < |tokens| && AsUnary(tokens[pos]).None?
      modifies this`pos
      ensures Valid() && pos >= old(pos) && (r.Some? ==> pos > old(pos))
      ensures ReadPrefix(Yps, old(Rest())) == if r.None? then Failed else Operand(r.value, Rest())
      decreases |tokens| - pos, 0
    {
      var t := tokens[pos];
      match t {
        case Word(name) =>
          pos := pos + 1;
          r := Some(Identifier(name));
        case Constant(literal) =>
          pos := pos + 1;
          r := Some(Lit(literal));
        case Open =>
          pos := pos + 1;
          var e := ParseExpressionWithPrecedence(0);
          if e.None? || !At(Close) {
            return None;
          }
          pos := pos + 1;
          r := Some(Grouping(e.value));
        case _ => r := None;
      }
    }
  }

  lemma ClimbEnds(lhs: Expr, ts: seq<Token>, min: nat)
    requires !(StartsWith(ts, Question) && min <= TERNARY)
    requires ts != [] ==> AsBinary(ts[0]).None? || Level(AsBinary(ts[0]).value) < min
    ensures Climb(Yps, lhs, ts, min) == Read(lhs, ts)
  {
  }
}
