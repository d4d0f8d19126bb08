/** The operator part of JavaScript's expression grammar (ECMA-262, sections 13.4 to 13.15). A tree whose groupings are
    its parenthesized expressions is derivable from a nonterminal, or it is not. */
module JsGrammar {
  import opened Syntax
  import opened Surface
  import opened Reader

  datatype NonTerminal =
    | AssignmentExpression | ConditionalExpression | ShortCircuitExpression | CoalesceExpression
    | CoalesceExpressionHead | LogicalOrExpression | LogicalAndExpression | BitwiseOrExpression | BitwiseXorExpression
    | BitwiseAndExpression | EqualityExpression | RelationalExpression | ShiftExpression | AdditiveExpression
    | MultiplicativeExpression | ExponentiationExpression | UnaryExpression | UpdateExpression | PrimaryExpression

  /** The level of the operators the nonterminal introduces, in the source language's own table. */
  function NtLevel(nt: NonTerminal): nat {
    match nt
    case AssignmentExpression => ASSIGN
    case ConditionalExpression => TERNARY
    case ShortCircuitExpression => 3
    case LogicalOrExpression => 3
    case CoalesceExpression => 4
    case CoalesceExpressionHead => 4
    case LogicalAndExpression => 5
    case BitwiseOrExpression => 6
    case BitwiseXorExpression => 7
    case BitwiseAndExpression => 8
    case EqualityExpression => 9
    case RelationalExpression => 10
    case ShiftExpression => 12
    case AdditiveExpression => 13
    case MultiplicativeExpression => 14
    case ExponentiationExpression => EXPONENT
    case UnaryExpression => UNARY
    case UpdateExpression => PRIMARY
    case PrimaryExpression => PRIMARY
  }

  /** The nonterminals of the form `X : Y | X operator Y`. */
  predicate LeftRecursive(nt: NonTerminal) {
    match nt
    case LogicalOrExpression | LogicalAndExpression | BitwiseOrExpression | BitwiseXorExpression | BitwiseAndExpression
       | EqualityExpression | RelationalExpression | ShiftExpression | AdditiveExpression
         | MultiplicativeExpression => true
    case _ => false
  }

  function Tighter(nt: NonTerminal): NonTerminal
    requires LeftRecursive(nt)
  {
    match nt
    case LogicalOrExpression => LogicalAndExpression
    case LogicalAndExpression => BitwiseOrExpression
    case BitwiseOrExpression => BitwiseXorExpression
    case BitwiseXorExpression => BitwiseAndExpression
    case BitwiseAndExpression => EqualityExpression
    case EqualityExpression => RelationalExpression
    case RelationalExpression => ShiftExpression
    case ShiftExpression => AdditiveExpression
    case AdditiveExpression => MultiplicativeExpression
    case MultiplicativeExpression => ExponentiationExpression
  }

  function Rank(nt: NonTerminal): nat {
    match nt
    case AssignmentExpression => 20
    case ConditionalExpression => 19
    case ShortCircuitExpression => 18
    case CoalesceExpressionHead => 17
    case CoalesceExpression => 0
    case UpdateExpression => 1
    case PrimaryExpression => 0
    case _ => 18 - NtLevel(nt)
  }

  /** A simple assignment target: an identifier, possibly in parentheses. */
  predicate Target(t: Expr) {
    match t
    case Identifier(_) => true
    case Grouping(inner) => Target(inner)
    case _ => false
  }

  /** The nonterminal of the unit production of `nt`. */
  function Unit(nt: NonTerminal): Option<NonTerminal> {
    match nt
    case AssignmentExpression => Some(ConditionalExpression)
    case ConditionalExpression => Some(ShortCircuitExpression)
    case ShortCircuitExpression => Some(LogicalOrExpression)
    case CoalesceExpressionHead => Some(BitwiseOrExpression)
    case ExponentiationExpression => Some(UnaryExpression)
    case UnaryExpression => Some(UpdateExpression)
    case UpdateExpression => Some(PrimaryExpression)
    case PrimaryExpression => None
    case CoalesceExpression => None
    case _ => Some(Tighter(nt))
  }

  /** The nonterminals with a second unit production, to a coalesce expression. */
  predicate MayCoalesce(nt: NonTerminal) {
    nt == ShortCircuitExpression || nt == CoalesceExpressionHead
  }

  lemma UnitRank(nt: NonTerminal)
    ensures Unit(nt).Some? ==> Rank(Unit(nt).value) < Rank(nt) && NtLevel(Unit(nt).value) >= NtLevel(nt)
    ensures MayCoalesce(nt) ==> Rank(CoalesceExpression) < Rank(nt)
  {
  }

  /** The operators of each production that has an operator between two operands of the kinds of its own level. */
  predicate OperatorOf(nt: NonTerminal, op: BinaryOp) {
    match nt
    case LogicalOrExpression => op.Or?
    case LogicalAndExpression => op.And?
    case BitwiseOrExpression => op.BitOr?
    case BitwiseXorExpression => op.BitXor?
    case BitwiseAndExpression => op.BitAnd?
    case EqualityExpression => op.Equals? || op.NotEquals? || op.StrictEquals? || op.StrictNotEquals?
    case RelationalExpression =>
      op.Less? || op.Greater? || op.LessOrEqual? || op.GreaterOrEqual? || op.Instanceof? || op.In?
    case ShiftExpression => op.LeftShift? || op.RightShift? || op.UnsignedRightShift?
    case AdditiveExpression => op.Add? || op.Sub?
    case MultiplicativeExpression => op.Mul? || op.Div? || op.Mod?
    case _ => false
  }

  /** `=` and the `AssignmentOperator`s, the logical ones included. */
  predicate AssignmentOperator(op: BinaryOp) {
    || op.Assign? || op.MulAssign? || op.DivAssign? || op.ModAssign? || op.PlusAssign? || op.MinusAssign?
    || op.ShlAssign? || op.ShrAssign? || op.UshrAssign? || op.BitAndAssign? || op.BitXorAssign? || op.BitOrAssign?
    || op.ExpAssign? || op.AndAssign? || op.OrAssign? || op.NullishAssign?
  }

  /** The source language's own table has JavaScript's operators at JavaScript's levels. */
  lemma OperatorLevel(nt: NonTerminal, op: BinaryOp)
    requires OperatorOf(nt, op)
    ensures LeftRecursive(nt) && Level(op) == NtLevel(nt)
  {
  }

  lemma AssignmentLevel(op: BinaryOp)
    ensures AssignmentOperator(op) <==> Level(op) == ASSIGN
  {
  }

  lemma RootOperator(op: BinaryOp)
    requires op != Pipeline && op != NullishCoalescing && TERNARY < Level(op) < EXPONENT
    ensures OperatorOf(InfixRoot(op), op)
  {
  }

  predicate Derives(nt: NonTerminal, t: Expr)
    decreases t, Rank(nt), 1
  {
    UnitRank(nt);
    || (Unit(nt).Some? && Derives(Unit(nt).value, t))
    || (MayCoalesce(nt) && Derives(CoalesceExpression, t))
    || Produces(nt, t)
  }

  /** The production of `nt` with an operator, or the terminals of a primary expression. */
  predicate Produces(nt: NonTerminal, t: Expr)
    decreases t, Rank(nt), 0
  {
    match nt
    case AssignmentExpression =>
      t.Binary? && AssignmentOperator(t.op) && Target(t.lhs) && Derives(AssignmentExpression, t.rhs)
    case ConditionalExpression =>
      t.Conditional? && Derives(ShortCircuitExpression, t.condition)
      && Derives(AssignmentExpression, t.thenExpr) && Derives(AssignmentExpression, t.elseExpr)
    case CoalesceExpression =>
      t.Binary? && t.op == NullishCoalescing && Derives(CoalesceExpressionHead, t.lhs)
        && Derives(BitwiseOrExpression, t.rhs)
    case ExponentiationExpression =>
      t.Binary? && t.op == Exp && Derives(UpdateExpression, t.lhs) && Derives(ExponentiationExpression, t.rhs)
    case UnaryExpression => t.Unary? && Derives(UnaryExpression, t.operand)
    case UpdateExpression => t.Postfix? && Target(t.operand)
    case PrimaryExpression => t.Identifier? || t.Lit? || (t.Grouping? && Derives(AssignmentExpression, t.inner))
    case ShortCircuitExpression => false
    case CoalesceExpressionHead => false
    case _ =>
      t.Binary? && OperatorOf(nt, t.op) && Derives(nt, t.lhs) && Derives(Tighter(nt), t.rhs)
  }

  // ---- Derivable trees are read back, so the grammar is unambiguous ----

  lemma {:induction false} TargetFits(t: Expr)
    requires Target(t)
    ensures Fits(Js, t, PRIMARY)
  {
    if t.Grouping? {
      TargetFits(t.inner);
    }
  }

  lemma FitsLooser(t: Expr, p: nat, q: nat)
    requires Fits(Js, t, p) && q <= p
    ensures Fits(Js, t, q)
  {
  }

  lemma {:induction false} DerivesFits(nt: NonTerminal, t: Expr)
    requires Derives(nt, t)
    ensures Fits(Js, t, NtLevel(nt))
    decreases t, Rank(nt), 2
  {
    UnitRank(nt);
    if Unit(nt).Some? && Derives(Unit(nt).value, t) {
      DerivesFits(Unit(nt).value, t);
      FitsLooser(t, NtLevel(Unit(nt).value), NtLevel(nt));
    } else if MayCoalesce(nt) && Derives(CoalesceExpression, t) {
      DerivesFits(CoalesceExpression, t);
      FitsLooser(t, NtLevel(CoalesceExpression), NtLevel(nt));
    } else {
      ProducesFits(nt, t);
    }
  }

  lemma {:induction false} ProducesFits(nt: NonTerminal, t: Expr)
    requires Produces(nt, t)
    ensures Fits(Js, t, NtLevel(nt))
    decreases t, Rank(nt), 1
  {
    hide Derives;
    match nt
    case AssignmentExpression =>
      TargetFits(t.lhs);
      DerivesFits(AssignmentExpression, t.rhs);
      SidesByLevel(t.op);
      AssignmentLevel(t.op);
    case ConditionalExpression =>
      DerivesFits(ShortCircuitExpression, t.condition);
      DerivesFits(AssignmentExpression, t.thenExpr);
      FitsLooser(t.thenExpr, ASSIGN, 0);
      DerivesFits(AssignmentExpression, t.elseExpr);
    case CoalesceExpression =>
      DerivesFits(CoalesceExpressionHead, t.lhs);
      DerivesFits(BitwiseOrExpression, t.rhs);
      FitsLooser(t.rhs, 6, 5);
    case ExponentiationExpression =>
      DerivesFits(UpdateExpression, t.lhs);
      FitsLooser(t.lhs, PRIMARY, UNARY);
      DerivesFits(ExponentiationExpression, t.rhs);
    case UnaryExpression => DerivesFits(UnaryExpression, t.operand);
    case UpdateExpression => TargetFits(t.operand);
    case PrimaryExpression =>
      if t.Grouping? {
        DerivesFits(AssignmentExpression, t.inner);
        FitsLooser(t.inner, ASSIGN, 0);
      }
    case ShortCircuitExpression =>
    case CoalesceExpressionHead =>
    case _ => InfixFits(nt, t);
  }

  lemma {:induction false} InfixFits(nt: NonTerminal, t: Expr)
    requires LeftRecursive(nt) && t.Binary? && OperatorOf(nt, t.op)
    requires Derives(nt, t.lhs) && Derives(Tighter(nt), t.rhs)
    ensures Fits(Js, t, NtLevel(nt))
    decreases t, Rank(nt), 0
  {
    SidesByLevel(t.op);
    OperatorLevel(nt, t.op);
    DerivesFits(nt, t.lhs);
    DerivesFits(Tighter(nt), t.rhs);
    FitsLooser(t.rhs, NtLevel(Tighter(nt)), RightLevel(t.op));
  }

  /** No token sequence has two derivations. */
  lemma NoTwoDerivations(a: Expr, b: Expr)
    requires Derives(AssignmentExpression, a) && Derives(AssignmentExpression, b) && Yield(a) == Yield(b)
    ensures a == b
  {
    DerivesFits(AssignmentExpression, a);
    DerivesFits(AssignmentExpression, b);
    Unambiguous(Js, a, b, ASSIGN, ASSIGN);
  }

  // ---- Unit productions ----

  /** `b` derives `a` by unit productions. */
  predicate Within(a: NonTerminal, b: NonTerminal)
    decreases Rank(b)
  {
    UnitRank(b);
    a == b || (Unit(b).Some? && Within(a, Unit(b).value)) || (MayCoalesce(b) && a == CoalesceExpression)
  }

  lemma {:induction false} Lift(a: NonTerminal, b: NonTerminal, t: Expr)
    requires Within(a, b) && Derives(a, t)
    ensures Derives(b, t)
    decreases Rank(b)
  {
    UnitRank(b);
    if a != b && Unit(b).Some? && Within(a, Unit(b).value) {
      Lift(a, Unit(b).value, t);
    }
  }

  /** Away from `??`, a nonterminal lies within every one that binds no tighter. */
  lemma {:induction false} WithinByLevel(a: NonTerminal, b: NonTerminal)
    requires NtLevel(a) >= NtLevel(b) && b != PrimaryExpression && b != CoalesceExpression
    requires !a.CoalesceExpression? && !a.CoalesceExpressionHead? && !a.ShortCircuitExpression?
    requires b == CoalesceExpressionHead ==> NtLevel(a) >= 6
    ensures Within(a, b)
    decreases Rank(b)
  {
    UnitRank(b);
    if a != b && b != UpdateExpression {
      NextLevelUp(a, b);
      WithinByLevel(a, Unit(b).value);
    }
  }

  lemma NextLevelUp(a: NonTerminal, b: NonTerminal)
    requires NtLevel(a) >= NtLevel(b) && a != b && b != PrimaryExpression && b != CoalesceExpression
    requires b != UpdateExpression
    requires !a.CoalesceExpression? && !a.CoalesceExpressionHead? && !a.ShortCircuitExpression?
    requires b == CoalesceExpressionHead ==> NtLevel(a) >= 6
    ensures Unit(b).Some? && NtLevel(a) >= NtLevel(Unit(b).value)
    ensures Unit(b).value != PrimaryExpression && Unit(b).value != CoalesceExpression
    ensures Unit(b).value != CoalesceExpressionHead
  {
  }

  lemma CoalesceWithin(b: NonTerminal)
    requires b.CoalesceExpressionHead? || b.ShortCircuitExpression? || b.ConditionalExpression?
               || b.AssignmentExpression?
    ensures Within(CoalesceExpression, b)
  {
    assert Within(CoalesceExpression, ShortCircuitExpression);
    assert Within(CoalesceExpression, ConditionalExpression);
  }

  // ---- The nonterminal of a tree's root ----

  function InfixRoot(op: BinaryOp): NonTerminal {
    match Level(op)
    case 1 => AssignmentExpression
    case 3 => LogicalOrExpression
    case 4 => CoalesceExpression
    case 5 => LogicalAndExpression
    case 6 => BitwiseOrExpression
    case 7 => BitwiseXorExpression
    case 8 => BitwiseAndExpression
    case 9 => EqualityExpression
    case 10 => RelationalExpression
    case 12 => ShiftExpression
    case 13 => AdditiveExpression
    case 14 => MultiplicativeExpression
    case _ => ExponentiationExpression
  }

  /** The nonterminal whose own production makes the root of `t`. */
  function Root(t: Expr): NonTerminal {
    match t
    case Binary(op, _, _) => InfixRoot(op)
    case Conditional(_, _, _) => ConditionalExpression
    case Unary(_, _) => UnaryExpression
    case Postfix(_, _) => UpdateExpression
    case _ => PrimaryExpression
  }

  predicate PipelineRoot(t: Expr) {
    t.Binary? && t.op == Pipeline
  }

  lemma RootAtLevel(t: Expr)
    requires !PipelineRoot(t) && !t.Assignment?
    ensures NtLevel(Root(t)) == RootLevel(t)
    ensures !Root(t).CoalesceExpressionHead? && !Root(t).ShortCircuitExpression?
    ensures Root(t).CoalesceExpression? <==> t.Binary? && t.op == NullishCoalescing
  {
  }

  /** A tree made by its root's production may stand wherever its level allows, except that `??` and the logical
      operators do not meet. */
  lemma Place(t: Expr, b: NonTerminal)
    requires Derives(Root(t), t) && !PipelineRoot(t) && !t.Assignment?
    requires RootLevel(t) >= NtLevel(b) && b != PrimaryExpression && b != CoalesceExpression
    requires t.Binary? && t.op == NullishCoalescing ==> b != LogicalOrExpression
    requires b == CoalesceExpressionHead ==> !(t.Binary? && t.op == And)
    ensures Derives(b, t)
  {
    RootAtLevel(t);
    hide Derives, Within;
    if Root(t).CoalesceExpression? {
      CoalesceWithin(b);
    } else {
      WithinByLevel(Root(t), b);
    }
    Lift(Root(t), b, t);
  }
}
