/** Operator expressions as trees and as tokens: the operator table, and trees up to brackets. */
module Surface {
  import opened Syntax

  // ---- The table ----

  const ASSIGN := 1
  const TERNARY := 2
  const POSTFIX := 13
  const EXPONENT := 15
  const UNARY := 16
  /** Above every operator: names, literals, brackets and what is built from them by postfix operators. */
  const PRIMARY := 17

  function Level(op: BinaryOp): nat {
    match op
    case Or => 3
    case NullishCoalescing => 4
    case And => 5
    case BitOr => 6
    case BitXor => 7
    case BitAnd => 8
    case Equals | StrictEquals | NotEquals | StrictNotEquals => 9
    case Less | Greater | LessOrEqual | GreaterOrEqual | Instanceof | In => 10
    case Pipeline => 11
    case LeftShift | RightShift | UnsignedRightShift => 12
    case Add | Sub => 13
    case Mul | Div | Mod => 14
    case Exp => EXPONENT
    case _ => ASSIGN
  }

  predicate RightAssoc(op: BinaryOp) {
    match op
    case Exp | Assign | PlusAssign | MinusAssign | MulAssign | DivAssign | ExpAssign | NullishAssign | AndAssign
       | OrAssign | ModAssign | BitAndAssign | BitOrAssign | BitXorAssign | ShlAssign | ShrAssign | UshrAssign => true
    case _ => false
  }

  /** Operators of one level associate to the same side, and no binary operator shares the level of `? :`. */
  lemma SidesByLevel(op: BinaryOp)
    ensures RightAssoc(op) <==> Level(op) == ASSIGN || Level(op) == EXPONENT
    ensures ASSIGN <= Level(op) < UNARY && Level(op) != TERNARY
  {
  }

  // ---- Tokens ----

  /** Operator tokens. Plus and minus serve as prefix and as binary operators. */
  datatype Symbol = PlusSign | MinusSign | Prefix(unary: UnaryOp) | Infix(op: BinaryOp) | Suffix(postfix: PostfixOp)

  datatype Token = Word(name: Name) | Constant(literal: Literal) | Open | Close | Question | Colon
    | Sign(symbol: Symbol)

  function UnarySign(op: UnaryOp): Token {
    match op
    case Plus => Sign(PlusSign)
    case Minus => Sign(MinusSign)
    case _ => Sign(Prefix(op))
  }

  function BinarySign(op: BinaryOp): Token {
    match op
    case Add => Sign(PlusSign)
    case Sub => Sign(MinusSign)
    case _ => Sign(Infix(op))
  }

  function PostfixSign(op: PostfixOp): Token {
    Sign(Suffix(op))
  }

  function AsUnary(t: Token): Option<UnaryOp> {
    match t
    case Sign(PlusSign) => Some(Plus)
    case Sign(MinusSign) => Some(Minus)
    case Sign(Prefix(op)) => Some(op)
    case _ => None
  }

  function AsBinary(t: Token): Option<BinaryOp> {
    match t
    case Sign(PlusSign) => Some(Add)
    case Sign(MinusSign) => Some(Sub)
    case Sign(Infix(op)) => Some(op)
    case _ => None
  }

  function AsPostfix(t: Token): Option<PostfixOp> {
    match t
    case Sign(Suffix(op)) => Some(op)
    case _ => None
  }

  lemma SignsReadBack(op: BinaryOp, u: UnaryOp)
    ensures AsBinary(BinarySign(op)) == Some(op) && AsUnary(UnarySign(u)) == Some(u)
    ensures AsPostfix(BinarySign(op)) == None && BinarySign(op).Sign? && UnarySign(u).Sign?
  {
  }

  /** The tokens of a tree whose brackets are all explicit. */
  function Yield(t: Expr): (r: seq<Token>)
    ensures |r| > 0
  {
    match t
    case Identifier(name) => [Word(name)]
    case Lit(literal) => [Constant(literal)]
    case Grouping(inner) => [Open] + Yield(inner) + [Close]
    case Unary(op, operand) => [UnarySign(op)] + Yield(operand)
    case Binary(op, lhs, rhs) => Yield(lhs) + [BinarySign(op)] + Yield(rhs)
    case Assignment(target, value) => [Word(target)] + [BinarySign(Assign)] + Yield(value)
    case Postfix(op, operand) => Yield(operand) + [PostfixSign(op)]
    case Conditional(c, t, e) => Yield(c) + [Question] + Yield(t) + [Colon] + Yield(e)
  }

  function Bracket(wrap: bool, e: Expr): Expr {
    if wrap then Grouping(e) else e
  }

  // ---- Trees up to brackets ----

  function Unwrap(e: Expr): (r: Expr)
    ensures !r.Grouping? && (r == e || r < e)
    decreases e
  {
    if e.Grouping? then Unwrap(e.inner) else e
  }

  function Strip(e: Expr): Expr {
    match e
    case Grouping(inner) => Strip(inner)
    case Unary(op, operand) => Unary(op, Strip(operand))
    case Binary(op, lhs, rhs) => Binary(op, Strip(lhs), Strip(rhs))
    case Assignment(target, value) => Assignment(target, Strip(value))
    case Postfix(op, operand) => Postfix(op, Strip(operand))
    case Conditional(c, t, e) => Conditional(Strip(c), Strip(t), Strip(e))
    case _ => e
  }

  /** Equality of expressions that looks through brackets. */
  predicate ExprEq(a: Expr, b: Expr)
    decreases a
  {
    var x, y := Unwrap(a), Unwrap(b);
    match x
    case Identifier(name) => y == Identifier(name)
    case Lit(literal) => y == Lit(literal)
    case Unary(op, e) => y.Unary? && op == y.uop && ExprEq(e, y.operand)
    case Binary(op, l, r) => y.Binary? && op == y.op && ExprEq(l, y.lhs) && ExprEq(r, y.rhs)
    case Assignment(target, v) => y.Assignment? && target == y.target && ExprEq(v, y.value)
    case Postfix(op, e) => y.Postfix? && op == y.pop && ExprEq(e, y.operand)
    case Conditional(c, t, e) =>
      y.Conditional? && ExprEq(c, y.condition) && ExprEq(t, y.thenExpr) && ExprEq(e, y.elseExpr)
    case Grouping(_) => false
  }

  lemma {:induction false} StripUnwraps(e: Expr)
    ensures Strip(Unwrap(e)) == Strip(e) && !Strip(e).Grouping?
  {
    if e.Grouping? {
      StripUnwraps(e.inner);
    }
  }

  /** Two expressions are equal through brackets exactly if they are the same tree once all brackets are gone. */
  lemma {:induction false} EqIsSameStripped(a: Expr, b: Expr)
    ensures ExprEq(a, b) <==> Strip(a) == Strip(b)
    decreases a
  {
    var x, y := Unwrap(a), Unwrap(b);
    StripUnwraps(a);
    StripUnwraps(b);
    match x
    case Identifier(_) =>
    case Lit(_) =>
    case Unary(_, e) => if y.Unary? { EqIsSameStripped(e, y.operand); }
    case Assignment(_, v) => if y.Assignment? { EqIsSameStripped(v, y.value); }
    case Postfix(_, e) => if y.Postfix? { EqIsSameStripped(e, y.operand); }
    case Binary(_, l, r) =>
      if y.Binary? {
        EqIsSameStripped(l, y.lhs);
        EqIsSameStripped(r, y.rhs);
      }
    case Conditional(c, t, e) =>
      if y.Conditional? {
        EqIsSameStripped(c, y.condition);
        EqIsSameStripped(t, y.thenExpr);
        EqIsSameStripped(e, y.elseExpr);
      }
  }
}
