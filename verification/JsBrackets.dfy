/** How many brackets the JavaScript printer writes: as few as JavaScript's grammar lets it, but for a pair around every
    postfix operator inside an operator binding tighter than level 13 and around every assignment after a colon. */
module JsBrackets {
  import opened Syntax
  import opened Surface
  import opened Reader
  import opened TokenSink
  import opened JsGrammar
  import opened JsPrinter

  // ---- The fewest brackets ----

  /** Brackets exactly where the grammar demands them. */
  function Lean(e: Expr, parent: nat): Expr
    decreases e, 0
  {
    match e
    case Grouping(inner) => Lean(inner, parent)
    case Unary(op, operand) => Bracket(UNARY < parent, Unary(op, Lean(operand, UNARY)))
    case Postfix(op, operand) => Postfix(op, Lean(operand, PRIMARY))
    case Binary(op, lhs, rhs) =>
      Bracket(Level(op) < parent,
        Binary(op, LeanOperand(lhs, LeftLevel(Yps, op), op, true), LeanOperand(rhs, RightLevel(op), op, false)))
    case Assignment(target, value) =>
      Bracket(ASSIGN < parent, Binary(Assign, Identifier(target), Lean(value, ASSIGN)))
    case Conditional(c, t, e) =>
      Bracket(TERNARY < parent, Conditional(Lean(c, TERNARY + 1), Lean(t, 0), Lean(e, ASSIGN)))
    case _ => e
  }

  function LeanOperand(operand: Expr, level: nat, op: BinaryOp, isLeft: bool): Expr
    decreases operand, 1
  {
    if NeedsParens(operand, op, isLeft) then Grouping(Lean(operand, 0)) else Lean(operand, level)
  }

  // ---- No derivable tree has fewer ----

  /** A derivable tree is made by the production of its root. */
  lemma {:induction false} DerivesByRoot(nt: NonTerminal, t: Expr)
    requires Derives(nt, t)
    ensures Produces(Root(t), t)
    decreases Rank(nt)
  {
    UnitRank(nt);
    if Unit(nt).Some? && Derives(Unit(nt).value, t) {
      DerivesByRoot(Unit(nt).value, t);
    } else if MayCoalesce(nt) && Derives(CoalesceExpression, t) {
      DerivesByRoot(CoalesceExpression, t);
    } else {
      ProducedByRoot(nt, t);
    }
  }

  lemma ProducedByRoot(nt: NonTerminal, t: Expr)
    requires Produces(nt, t)
    ensures nt == Root(t)
  {
    hide Derives;
    if t.Binary? {
      AssignmentLevel(t.op);
      if OperatorOf(nt, t.op) {
        OperatorLevel(nt, t.op);
      }
    }
  }

  /** `||` and `&&` are not derived at the head of a coalesce expression, nor `??` from a logical one. */
  lemma {:induction false} LogicalApart(nt: NonTerminal, t: Expr)
    requires Derives(nt, t) && t.Binary?
    ensures nt == CoalesceExpressionHead ==> t.op != And && t.op != Or
    ensures nt == LogicalOrExpression || nt == LogicalAndExpression ==> t.op != NullishCoalescing
    decreases Rank(nt)
  {
    UnitRank(nt);
    if nt == CoalesceExpressionHead {
      if Derives(BitwiseOrExpression, t) {
        DerivesFits(BitwiseOrExpression, t);
      } else {
        DerivesFits(CoalesceExpression, t);
        assert Produces(CoalesceExpression, t);
      }
    } else if nt == LogicalOrExpression && Derives(LogicalAndExpression, t) {
      LogicalApart(LogicalAndExpression, t);
    } else if nt == LogicalAndExpression {
      DerivesFits(LogicalAndExpression, t);
    }
  }

  lemma {:induction false} TargetIsOneToken(t: Expr, e: Expr, p: nat)
    requires Target(t) && Strip(t) == Plain(e)
    ensures Unwrap(e).Identifier? && |Yield(Lean(e, p))| == 1
    decreases e
  {
    NameOrNot(t);
    NameOrNot(e);
    if e.Grouping? {
      TargetIsOneToken(t, e.inner, p);
    }
  }

  lemma {:induction false} LeanUnwraps(e: Expr, p: nat)
    ensures Lean(Unwrap(e), p) == Lean(e, p) && Plain(Unwrap(e)) == Plain(e)
    decreases e
  {
    if e.Grouping? {
      LeanUnwraps(e.inner, p);
    }
  }

  /** A place costs at most one pair more than a looser one, and never less. */
  lemma {:induction false} TighterCosts(e: Expr, p: nat, q: nat)
    requires p <= q
    ensures |Yield(Lean(e, p))| <= |Yield(Lean(e, q))| <= |Yield(Lean(e, p))| + 2
    decreases e
  {
    hide Yield;
    if e.Grouping? {
      TighterCosts(e.inner, p, q);
    } else {
      assert Lean(e, q) == Lean(e, p) || Lean(e, q) == Grouping(Lean(e, p));
      BracketCosts(Lean(e, p));
    }
  }

  lemma BracketCosts(t: Expr)
    ensures |Yield(Grouping(t))| == |Yield(t)| + 2
  {
  }

  /** Plain trees have the root of the expression. */
  lemma PlainRoot(t: Expr, e: Expr)
    requires Strip(t) == Plain(e) && !t.Grouping?
    ensures var u := Unwrap(e);
            && Plain(u) == Plain(e) && !t.Assignment?
            && (t.Binary? <==> u.Binary? || u.Assignment?)
            && (u.Binary? ==> t.op == u.op && Strip(t.lhs) == Plain(u.lhs) && Strip(t.rhs) == Plain(u.rhs))
            && (u.Assignment? ==>
                  t.op == Assign && Strip(t.lhs) == Identifier(u.target) && Strip(t.rhs) == Plain(u.value))
            && (u.Unary? <==> t.Unary?) && (u.Unary? ==> u.uop == t.uop && Strip(t.operand) == Plain(u.operand))
  {
    LeanUnwraps(e, 0);
    NameOrNot(e);
  }

  /** The nonterminals of an operator's two operands. */
  function OperandOf(op: BinaryOp, isLeft: bool): NonTerminal
    requires op != Pipeline && Level(op) != ASSIGN
  {
    if op == NullishCoalescing then (if isLeft then CoalesceExpressionHead else BitwiseOrExpression)
    else if op == Exp then (if isLeft then UpdateExpression else ExponentiationExpression)
    else if isLeft then InfixRoot(op)
    else if LeftRecursive(InfixRoot(op)) then Tighter(InfixRoot(op))
    else PrimaryExpression
  }

  lemma OperandsDerive(op: BinaryOp, l: Expr, r: Expr)
    requires Produces(InfixRoot(op), Binary(op, l, r)) && op != Pipeline && Level(op) != ASSIGN
    ensures Derives(OperandOf(op, true), l) && Derives(OperandOf(op, false), r)
    ensures LeftLevel(Yps, op) <= NtLevel(OperandOf(op, true)) && RightLevel(op) <= NtLevel(OperandOf(op, false))
  {
    hide Derives;
    SidesByLevel(op);
    if op != NullishCoalescing && op != Exp {
      InfixLevels(op);
    }
  }

  /** What breaks one of JavaScript's two extra rules is not derived as an operand. */
  lemma BareIsRefused(op: BinaryOp, isLeft: bool, t: Expr)
    requires op != Pipeline && Level(op) != ASSIGN && NeedsParensBare(t, op, isLeft)
    ensures !Derives(OperandOf(op, isLeft), t)
  {
    var nt := OperandOf(op, isLeft);
    if Derives(nt, t) {
      DerivesFits(nt, t);
      if t.Binary? {
        LogicalApart(nt, t);
      }
      hide Derives;
      assert false;
    }
  }

  /** Where the printer writes brackets for JavaScript's sake, the grammar has them. */
  lemma BracketsDemanded(op: BinaryOp, isLeft: bool, t: Expr, e: Expr)
    requires op != Pipeline && Level(op) != ASSIGN && Derives(OperandOf(op, isLeft), t) && Strip(t) == Plain(e)
    requires NeedsParens(e, op, isLeft)
    ensures t.Grouping?
  {
    hide Derives, Plain, Strip, OperandOf;
    if !t.Grouping? {
      PlainRoot(t, e);
      BareIsRefused(op, isLeft, t);
    }
  }

  /** Every derivable tree of the expression has at least the tokens of the lean one. */
  lemma {:induction false} LeanIsLeast(nt: NonTerminal, t: Expr, e: Expr, p: nat)
    requires Derives(nt, t) && Strip(t) == Plain(e) && p <= NtLevel(nt) && TargetsAreNames(e) && NoPipeline(e)
    ensures |Yield(Lean(e, p))| <= |Yield(t)|
    decreases t, 1
  {
    var u := Unwrap(e);
    DerivesFits(nt, t);
    DerivesByRoot(nt, t);
    LeanUnwraps(e, p);
    UnwrapKeeps(e);
    hide Derives;
    if t.Grouping? {
      LeanIsLeast(AssignmentExpression, t.inner, e, 0);
      TighterCosts(e, 0, p);
    } else {
      PlainRoot(t, e);
      if t.Unary? {
        LeanIsLeast(UnaryExpression, t.operand, u.operand, UNARY);
      } else if t.Postfix? {
        PostfixLeast(t, u);
      } else if t.Conditional? {
        ConditionalLeast(t, u, p);
      } else if t.Binary? {
        BinaryLeast(t, u, p);
      } else {
        OneToken(t, u, p);
      }
    }
  }

  lemma UnwrapKeeps(e: Expr)
    requires TargetsAreNames(e) && NoPipeline(e)
    ensures TargetsAreNames(Unwrap(e)) && NoPipeline(Unwrap(e))
    decreases e
  {
    if e.Grouping? {
      UnwrapKeeps(e.inner);
    }
  }

  lemma OneToken(t: Expr, u: Expr, p: nat)
    requires (t.Identifier? || t.Lit?) && Strip(t) == Plain(u) && !u.Grouping?
    ensures |Yield(Lean(u, p))| == |Yield(t)|
  {
  }

  lemma PostfixLeast(t: Expr, u: Expr)
    requires t.Postfix? && Target(t.operand) && Strip(t) == Plain(u) && !u.Grouping?
    ensures forall p :: |Yield(Lean(u, p))| <= |Yield(t)|
  {
    TargetIsOneToken(t.operand, u.operand, PRIMARY);
  }

  lemma {:induction false} ConditionalLeast(t: Expr, u: Expr, p: nat)
    requires t.Conditional? && Produces(ConditionalExpression, t) && Strip(t) == Plain(u) && !u.Grouping?
    requires p <= TERNARY && TargetsAreNames(u) && NoPipeline(u)
    ensures |Yield(Lean(u, p))| <= |Yield(t)|
    decreases t, 0
  {
    hide Derives;
    LeanIsLeast(ShortCircuitExpression, t.condition, u.condition, TERNARY + 1);
    LeanIsLeast(AssignmentExpression, t.thenExpr, u.thenExpr, 0);
    LeanIsLeast(AssignmentExpression, t.elseExpr, u.elseExpr, ASSIGN);
  }

  lemma {:induction false} BinaryLeast(t: Expr, u: Expr, p: nat)
    requires t.Binary? && Produces(InfixRoot(t.op), t) && Strip(t) == Plain(u) && !u.Grouping? && p <= Level(t.op)
    requires TargetsAreNames(u) && NoPipeline(u)
    ensures |Yield(Lean(u, p))| <= |Yield(t)|
    decreases t, 0
  {
    hide Derives;
    var op := t.op;
    SidesByLevel(op);
    if Level(op) == ASSIGN {
      LeanIsLeast(AssignmentExpression, t.rhs, if u.Binary? then u.rhs else u.value, ASSIGN);
      if u.Binary? {
        TargetIsOneToken(t.lhs, u.lhs, LeftLevel(Yps, op));
      }
    } else {
      OperandsDerive(op, t.lhs, t.rhs);
      OperandLeast(op, true, t.lhs, u.lhs, LeftLevel(Yps, op));
      OperandLeast(op, false, t.rhs, u.rhs, RightLevel(op));
    }
  }

  lemma {:induction false} OperandLeast(op: BinaryOp, isLeft: bool, t: Expr, e: Expr, level: nat)
    requires op != Pipeline && Level(op) != ASSIGN && Derives(OperandOf(op, isLeft), t) && Strip(t) == Plain(e)
    requires level <= NtLevel(OperandOf(op, isLeft)) && TargetsAreNames(e) && NoPipeline(e)
    ensures |Yield(LeanOperand(e, level, op, isLeft))| <= |Yield(t)|
    decreases t, 2
  {
    if NeedsParens(e, op, isLeft) {
      BracketsDemanded(op, isLeft, t, e);
      DerivesByRoot(OperandOf(op, isLeft), t);
      hide Derives;
      LeanIsLeast(AssignmentExpression, t.inner, e, 0);
    } else {
      LeanIsLeast(OperandOf(op, isLeft), t, e, level);
    }
  }

  // ---- The lean tree is derivable ----

  lemma {:induction false} LeanMeans(e: Expr, p: nat)
    ensures Strip(Lean(e, p)) == Plain(e)
    decreases e, 0
  {
    match e
    case Grouping(inner) => LeanMeans(inner, p);
    case Unary(_, operand) => LeanMeans(operand, UNARY);
    case Postfix(_, operand) => LeanMeans(operand, PRIMARY);
    case Binary(op, lhs, rhs) =>
      LeanOperandMeans(lhs, LeftLevel(Yps, op), op, true);
      LeanOperandMeans(rhs, RightLevel(op), op, false);
    case Assignment(target, value) =>
      LeanMeans(value, ASSIGN);
      assert Strip(Identifier(target)) == Identifier(target);
    case Conditional(c, t, e) =>
      LeanMeans(c, TERNARY + 1);
      LeanMeans(t, 0);
      LeanMeans(e, ASSIGN);
    case _ =>
  }

  lemma {:induction false} LeanOperandMeans(operand: Expr, level: nat, op: BinaryOp, isLeft: bool)
    ensures Strip(LeanOperand(operand, level, op, isLeft)) == Plain(operand)
    decreases operand, 1
  {
    LeanMeans(operand, if NeedsParens(operand, op, isLeft) then 0 else level);
  }

  lemma {:induction false} LeanName(e: Expr, p: nat)
    requires Unwrap(e).Identifier?
    ensures Target(Lean(e, p))
    decreases e
  {
    if e.Grouping? {
      LeanName(e.inner, p);
    }
  }

  lemma {:induction false} LeanRoot(e: Expr, p: nat)
    requires NoPipeline(e)
    ensures var t, u := Lean(e, p), Unwrap(e);
            && (t.Binary? ==> (u.Binary? && u.op == t.op) || (u.Assignment? && t.op == Assign))
            && (t.Unary? ==> u.Unary?) && !PipelineRoot(t)
    decreases e
  {
    if e.Grouping? {
      LeanRoot(e.inner, p);
    }
  }

  lemma {:induction false} LeanStands(e: Expr, p: nat)
    requires NoPipeline(e) && TargetsAreNames(e) && p <= PRIMARY
    ensures Stands(Lean(e, p), p)
    decreases e, 1
  {
    match e
    case Grouping(inner) => LeanStands(inner, p);
    case Identifier(_) => assert Produces(PrimaryExpression, e);
    case Lit(_) => assert Produces(PrimaryExpression, e);
    case Unary(op, operand) =>
      LeanStands(operand, UNARY);
      Place(Lean(operand, UNARY), UnaryExpression);
      assert Produces(UnaryExpression, Unary(op, Lean(operand, UNARY)));
      GroupingStands(Unary(op, Lean(operand, UNARY)), UNARY < p, p);
    case Postfix(op, operand) =>
      LeanName(operand, PRIMARY);
      assert Produces(UpdateExpression, Postfix(op, Lean(operand, PRIMARY)));
    case Binary(op, lhs, rhs) => LeanBinaryStands(op, lhs, rhs, p);
    case Assignment(target, value) =>
      LeanStands(value, ASSIGN);
      Place(Lean(value, ASSIGN), AssignmentExpression);
      var t := Binary(Assign, Identifier(target), Lean(value, ASSIGN));
      assert Produces(AssignmentExpression, t);
      GroupingStands(t, ASSIGN < p, p);
    case Conditional(c, x, y) =>
      LeanStands(c, TERNARY + 1);
      LeanStands(x, 0);
      LeanStands(y, ASSIGN);
      LeanConditionalStands(Lean(c, TERNARY + 1), Lean(x, 0), Lean(y, ASSIGN), p);
  }

  lemma LeanConditionalStands(c: Expr, x: Expr, y: Expr, p: nat)
    requires Stands(c, TERNARY + 1) && Stands(x, 0) && Stands(y, ASSIGN) && p <= PRIMARY
    ensures Stands(Bracket(TERNARY < p, Conditional(c, x, y)), p)
  {
    Place(c, ShortCircuitExpression);
    RootLevels(x);
    Place(x, AssignmentExpression);
    Place(y, AssignmentExpression);
    assert Produces(ConditionalExpression, Conditional(c, x, y));
    GroupingStands(Conditional(c, x, y), TERNARY < p, p);
  }

  lemma {:induction false} LeanBinaryStands(op: BinaryOp, lhs: Expr, rhs: Expr, p: nat)
    requires NoPipeline(Binary(op, lhs, rhs)) && TargetsAreNames(Binary(op, lhs, rhs)) && p <= PRIMARY
    ensures Stands(Lean(Binary(op, lhs, rhs), p), p)
    decreases Binary(op, lhs, rhs), 0
  {
    SidesByLevel(op);
    var l := LeanOperand(lhs, LeftLevel(Yps, op), op, true);
    var r := LeanOperand(rhs, RightLevel(op), op, false);
    hide Derives;
    LeanOperandStands(lhs, LeftLevel(Yps, op), op, true);
    LeanOperandStands(rhs, RightLevel(op), op, false);
    if Level(op) == ASSIGN {
      LeanName(lhs, LeftLevel(Yps, op));
    }
    BinaryProduces(op, l, r);
    GroupingStands(Binary(op, l, r), Level(op) < p, p);
  }

  lemma {:induction false} LeanOperandStands(operand: Expr, level: nat, op: BinaryOp, isLeft: bool)
    requires NoPipeline(operand) && TargetsAreNames(operand) && level <= PRIMARY
    ensures Stands(LeanOperand(operand, level, op, isLeft), level)
    ensures !NeedsParensBare(LeanOperand(operand, level, op, isLeft), op, isLeft)
    decreases operand, 2
  {
    if NeedsParens(operand, op, isLeft) {
      LeanStands(operand, 0);
      GroupingStands(Lean(operand, 0), true, level);
    } else {
      LeanStands(operand, level);
      LeanRoot(operand, level);
    }
  }

  // ---- What the printer adds ----

  predicate Assigns(e: Expr) {
    var u := Unwrap(e);
    u.Assignment? || (u.Binary? && Level(u.op) == ASSIGN)
  }

  /** Postfix operators in places above their level, and assignments after the colon of `? :`. */
  function Superfluous(e: Expr, parent: nat): nat
    decreases e, 0
  {
    match e
    case Grouping(inner) => Superfluous(inner, parent)
    case Unary(_, operand) => Superfluous(operand, UNARY)
    case Postfix(_, _) => if POSTFIX < parent then 1 else 0
    case Binary(op, lhs, rhs) =>
      OperandSuperfluous(lhs, LeftLevel(Yps, op), op, true) + OperandSuperfluous(rhs, RightLevel(op), op, false)
    case Assignment(_, value) => Superfluous(value, ASSIGN)
    case Conditional(c, t, e) =>
      Superfluous(c, TERNARY + 1) + Superfluous(t, 0) + Superfluous(e, TERNARY) + if Assigns(e) then 1 else 0
    case _ => 0
  }

  function OperandSuperfluous(operand: Expr, level: nat, op: BinaryOp, isLeft: bool): nat
    decreases operand, 1
  {
    Superfluous(operand, if NeedsParens(operand, op, isLeft) then 0 else level)
  }

  lemma {:induction false} AfterColon(e: Expr)
    ensures |Yield(Lean(e, TERNARY))| == |Yield(Lean(e, ASSIGN))| + if Assigns(e) then 2 else 0
    decreases e
  {
    hide Yield;
    if e.Grouping? {
      AfterColon(e.inner);
    } else if Assigns(e) {
      BracketCosts(Lean(e, ASSIGN));
      assert Lean(e, TERNARY) == Grouping(Lean(e, ASSIGN));
    } else {
      if e.Binary? {
        SidesByLevel(e.op);
      }
      assert Lean(e, TERNARY) == Lean(e, ASSIGN);
    }
  }

  lemma {:induction false} NameTokens(e: Expr, p: nat)
    requires Unwrap(e).Identifier? && NoPipeline(e)
    ensures |Tokens(e, p)| == 1 == |Yield(Lean(e, PRIMARY))|
    decreases e
  {
    if e.Grouping? {
      NameTokens(e.inner, p);
    }
  }

  lemma {:induction false} TokenCount(e: Expr, parent: nat)
    requires NoPipeline(e) && TargetsAreNames(e)
    ensures |Tokens(e, parent)| == |Yield(Lean(e, parent))| + 2 * Superfluous(e, parent)
    decreases e, 1
  {
    match e
    case Grouping(inner) => TokenCount(inner, parent);
    case Unary(_, operand) => TokenCount(operand, UNARY);
    case Postfix(_, operand) => NameTokens(operand, POSTFIX);
    case Binary(_, _, _) => BinaryTokenCount(e, parent);
    case Assignment(target, value) =>
      TokenCount(value, ASSIGN);
      assert Yield(Identifier(target)) == [Word(target)];
    case Conditional(_, _, _) => ConditionalTokenCount(e, parent);
    case _ =>
  }

  lemma {:induction false} BinaryTokenCount(e: Expr, parent: nat)
    requires e.Binary? && NoPipeline(e) && TargetsAreNames(e)
    ensures |Tokens(e, parent)| == |Yield(Lean(e, parent))| + 2 * Superfluous(e, parent)
    decreases e, 0
  {
    OperandTokenCount(e.lhs, LeftLevel(Yps, e.op), e.op, true);
    OperandTokenCount(e.rhs, RightLevel(e.op), e.op, false);
  }

  lemma {:induction false} ConditionalTokenCount(e: Expr, parent: nat)
    requires e.Conditional? && NoPipeline(e) && TargetsAreNames(e)
    ensures |Tokens(e, parent)| == |Yield(Lean(e, parent))| + 2 * Superfluous(e, parent)
    decreases e, 0
  {
    TokenCount(e.condition, TERNARY + 1);
    TokenCount(e.thenExpr, 0);
    TokenCount(e.elseExpr, TERNARY);
    AfterColon(e.elseExpr);
  }

  lemma {:induction false} OperandTokenCount(operand: Expr, level: nat, op: BinaryOp, isLeft: bool)
    requires NoPipeline(operand) && TargetsAreNames(operand)
    ensures |OperandTokens(operand, level, op, isLeft)|
         == |Yield(LeanOperand(operand, level, op, isLeft))| + 2 * OperandSuperfluous(operand, level, op, isLeft)
    decreases operand, 2
  {
    TokenCount(operand, if NeedsParens(operand, op, isLeft) then 0 else level);
  }

  /** The tree is JavaScript for the expression. */
  predicate Spells(t: Expr, e: Expr) {
    Derives(AssignmentExpression, t) && Strip(t) == Plain(e)
  }

  /** Every JavaScript text of the expression is at least as long as the printer's but for the superfluous pairs, and
      some text is exactly that much shorter. */
  lemma FewestBrackets(e: Expr)
    requires NoPipeline(e) && TargetsAreNames(e)
    ensures forall t :: Spells(t, e) ==> |Tokens(e, 0)| <= |Yield(t)| + 2 * Superfluous(e, 0)
    ensures exists t :: Spells(t, e) && |Tokens(e, 0)| == |Yield(t)| + 2 * Superfluous(e, 0)
  {
    TokenCount(e, 0);
    hide Derives;
    forall t | Spells(t, e)
      ensures |Yield(Lean(e, 0))| <= |Yield(t)|
    {
      LeanIsLeast(AssignmentExpression, t, e, 0);
    }
    LeanStands(e, 0);
    RootLevels(Lean(e, 0));
    Place(Lean(e, 0), AssignmentExpression);
    LeanMeans(e, 0);
    assert Spells(Lean(e, 0), e);
  }

  /** The printer's text is the shortest JavaScript of the expression exactly if nothing in it is superfluous. */
  lemma ShortestIff(e: Expr)
    requires NoPipeline(e) && TargetsAreNames(e)
    ensures (forall t :: Spells(t, e) ==> |Tokens(e, 0)| <= |Yield(t)|) <==> Superfluous(e, 0) == 0
  {
    FewestBrackets(e);
  }
}
