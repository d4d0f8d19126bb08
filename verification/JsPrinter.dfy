/** The JavaScript printer for operator expressions: what it prints is JavaScript, and means the source's tree. */
module JsPrinter {
  import opened Syntax
  import opened Surface
  import opened Reader
  import opened TokenSink
  import opened JsGrammar

  // ---- The printer ----

  /** Where JavaScript forbids what the operator table alone would allow: a prefix operator left of `**`, and `??` next
      to `&&` or `||`. */
  predicate NeedsParens(operand: Expr, parent: BinaryOp, isLeft: bool) {
    var o := Unwrap(operand);
    if parent == Exp && isLeft && o.Unary? then true
    else if !o.Binary? then false
    else
      || (parent == NullishCoalescing && (o.op == And || o.op == Or))
      || ((parent == And || parent == Or) && o.op == NullishCoalescing)
  }

  /** A pipeline is printed as a call, which is not an operator expression. */
  predicate NoPipeline(e: Expr) {
    match e
    case Grouping(inner) => NoPipeline(inner)
    case Unary(_, operand) => NoPipeline(operand)
    case Postfix(_, operand) => NoPipeline(operand)
    case Binary(op, lhs, rhs) => op != Pipeline && NoPipeline(lhs) && NoPipeline(rhs)
    case Assignment(_, value) => NoPipeline(value)
    case Conditional(c, t, e) => NoPipeline(c) && NoPipeline(t) && NoPipeline(e)
    case _ => true
  }

  function Tokens(e: Expr, parent: nat): seq<Token>
    requires NoPipeline(e)
    decreases e, 0
  {
    match e
    case Grouping(inner) => Tokens(inner, parent)
    case Identifier(name) => [Word(name)]
    case Lit(literal) => [Constant(literal)]
    case Unary(op, operand) => Bracketed(UNARY < parent, [UnarySign(op)] + Tokens(operand, UNARY))
    case Postfix(op, operand) => Bracketed(POSTFIX < parent, Tokens(operand, POSTFIX) + [PostfixSign(op)])
    case Binary(op, lhs, rhs) =>
      Bracketed(Level(op) < parent,
        OperandTokens(lhs, LeftLevel(Yps, op), op, true) + [BinarySign(op)]
          + OperandTokens(rhs, RightLevel(op), op, false))
    case Assignment(target, value) => Bracketed(ASSIGN < parent,
                                                [Word(target)] + [BinarySign(Assign)] + Tokens(value, ASSIGN))
    case Conditional(c, t, e) =>
      Bracketed(TERNARY < parent,
        Tokens(c, TERNARY + 1) + [Question] + Tokens(t, 0) + [Colon] + Tokens(e, TERNARY))
  }

  function OperandTokens(operand: Expr, level: nat, parent: BinaryOp, isLeft: bool): seq<Token>
    requires NoPipeline(operand)
    decreases operand, 1
  {
    if NeedsParens(operand, parent, isLeft) then Bracketed(true, Tokens(operand, 0)) else Tokens(operand, level)
  }

  method PrintExpr(sink: Sink, e: Expr, parent: nat)
    requires NoPipeline(e)
    modifies sink
    ensures sink.out == old(sink.out) + Tokens(e, parent)
    decreases e, 1
  {
    hide Opened, Closed, Bracketed, RightAssoc, Level;
    match e {
      case Grouping(inner) => PrintExpr(sink, inner, parent);
      case Identifier(name) => sink.Write(Word(name));
      case Lit(literal) => sink.Write(Constant(literal));
      case Unary(op, operand) =>
        var wrap := UNARY < parent;
        sink.OpenIf(wrap);
        sink.Write(UnarySign(op));
        PrintExpr(sink, operand, UNARY);
        sink.CloseIf(wrap);
        WrittenTwo(old(sink.out), wrap, [UnarySign(op)], Tokens(operand, UNARY));
      case Postfix(op, operand) =>
        var wrap := POSTFIX < parent;
        sink.OpenIf(wrap);
        PrintExpr(sink, operand, POSTFIX);
        sink.Write(PostfixSign(op));
        sink.CloseIf(wrap);
        WrittenTwo(old(sink.out), wrap, Tokens(operand, POSTFIX), [PostfixSign(op)]);
      case Binary(op, lhs, rhs) => PrintBinary(sink, op, lhs, rhs, parent);
      case Assignment(target, value) =>
        var wrap := ASSIGN < parent;
        sink.OpenIf(wrap);
        sink.Write(Word(target));
        sink.Write(BinarySign(Assign));
        PrintExpr(sink, value, ASSIGN);
        sink.CloseIf(wrap);
        Written(old(sink.out), wrap, [Word(target)], [BinarySign(Assign)], Tokens(value, ASSIGN));
      case Conditional(c, t, e) => PrintConditional(sink, c, t, e, parent);
    }
  }

  method PrintConditional(sink: Sink, c: Expr, t: Expr, e: Expr, parent: nat)
    requires NoPipeline(Conditional(c, t, e))
    modifies sink
    ensures sink.out == old(sink.out) + Tokens(Conditional(c, t, e), parent)
    decreases Conditional(c, t, e), 0
  {
    var wrap := TERNARY < parent;
    sink.OpenIf(wrap);
    PrintExpr(sink, c, TERNARY + 1);
    sink.Write(Question);
    PrintExpr(sink, t, 0);
    sink.Write(Colon);
    PrintExpr(sink, e, TERNARY);
    sink.CloseIf(wrap);
    WrittenFive(old(sink.out), wrap, Tokens(c, TERNARY + 1), [Question], Tokens(t, 0), [Colon], Tokens(e, TERNARY));
  }

  method PrintBinary(sink: Sink, op: BinaryOp, lhs: Expr, rhs: Expr, parent: nat)
    requires NoPipeline(Binary(op, lhs, rhs))
    modifies sink
    ensures sink.out == old(sink.out) + Tokens(Binary(op, lhs, rhs), parent)
    decreases Binary(op, lhs, rhs), 0
  {
    hide Opened, Closed, Bracketed, NeedsParens;
    var wrap := Level(op) < parent;
    sink.OpenIf(wrap);
    var left := if RightAssoc(op) then Level(op) + 1 else Level(op);
    var right := if RightAssoc(op) then Level(op) else Level(op) + 1;
    PrintOperand(sink, lhs, left, op, true);
    sink.Write(BinarySign(op));
    PrintOperand(sink, rhs, right, op, false);
    sink.CloseIf(wrap);
    Written(old(sink.out), wrap, OperandTokens(lhs, left, op, true), [BinarySign(op)],
            OperandTokens(rhs, right, op, false));
  }

  method PrintOperand(sink: Sink, operand: Expr, level: nat, parent: BinaryOp, isLeft: bool)
    requires NoPipeline(operand)
    modifies sink
    ensures sink.out == old(sink.out) + OperandTokens(operand, level, parent, isLeft)
    decreases operand, 2
  {
    if NeedsParens(operand, parent, isLeft) {
      sink.Write(Open);
      PrintExpr(sink, operand, 0);
      sink.Write(Close);
    } else {
      PrintExpr(sink, operand, level);
    }
  }

  // ---- The tree those tokens spell out ----

  function Tree(e: Expr, parent: nat): Expr
    decreases e, 0
  {
    match e
    case Grouping(inner) => Tree(inner, parent)
    case Identifier(_) => e
    case Lit(_) => e
    case Unary(op, operand) => Bracket(UNARY < parent, Unary(op, Tree(operand, UNARY)))
    case Postfix(op, operand) => Bracket(POSTFIX < parent, Postfix(op, Tree(operand, POSTFIX)))
    case Binary(op, lhs, rhs) =>
      Bracket(Level(op) < parent,
        Binary(op, OperandTree(lhs, LeftLevel(Yps, op), op, true), OperandTree(rhs, RightLevel(op), op, false)))
    case Assignment(target, value) =>
      Bracket(ASSIGN < parent, Binary(Assign, Identifier(target), Tree(value, ASSIGN)))
    case Conditional(c, t, e) =>
      Bracket(TERNARY < parent, Conditional(Tree(c, TERNARY + 1), Tree(t, 0), Tree(e, TERNARY)))
  }

  /** An operand as printed: bracketed if JavaScript demands it. */
  function OperandTree(operand: Expr, level: nat, op: BinaryOp, isLeft: bool): Expr
    decreases operand, 1
  {
    if NeedsParens(operand, op, isLeft) then Grouping(Tree(operand, 0)) else Tree(operand, level)
  }

  /** The expression without brackets, with every assignment written as the binary operator. */
  function Plain(e: Expr): Expr {
    match e
    case Grouping(inner) => Plain(inner)
    case Unary(op, operand) => Unary(op, Plain(operand))
    case Binary(op, lhs, rhs) => Binary(op, Plain(lhs), Plain(rhs))
    case Assignment(target, value) => Binary(Assign, Identifier(target), Plain(value))
    case Postfix(op, operand) => Postfix(op, Plain(operand))
    case Conditional(c, t, e) => Conditional(Plain(c), Plain(t), Plain(e))
    case _ => e
  }

  lemma {:induction false} TreeTokens(e: Expr, parent: nat)
    requires NoPipeline(e)
    ensures Yield(Tree(e, parent)) == Tokens(e, parent)
    decreases e, 0
  {
    match e
    case Grouping(inner) => TreeTokens(inner, parent);
    case Unary(op, operand) => TreeTokens(operand, UNARY);
    case Postfix(op, operand) => TreeTokens(operand, POSTFIX);
    case Binary(op, lhs, rhs) =>
      OperandTreeTokens(lhs, LeftLevel(Yps, op), op, true);
      OperandTreeTokens(rhs, RightLevel(op), op, false);
    case Assignment(target, value) =>
      TreeTokens(value, ASSIGN);
      assert Yield(Identifier(target)) == [Word(target)];
    case Conditional(c, t, e) =>
      TreeTokens(c, TERNARY + 1);
      TreeTokens(t, 0);
      TreeTokens(e, TERNARY);
    case _ =>
  }

  lemma {:induction false} OperandTreeTokens(operand: Expr, level: nat, op: BinaryOp, isLeft: bool)
    requires NoPipeline(operand)
    ensures Yield(OperandTree(operand, level, op, isLeft)) == OperandTokens(operand, level, op, isLeft)
    decreases operand, 1
  {
    TreeTokens(operand, if NeedsParens(operand, op, isLeft) then 0 else level);
  }

  lemma {:induction false} OperandTreeMeans(operand: Expr, level: nat, op: BinaryOp, isLeft: bool)
    ensures Strip(OperandTree(operand, level, op, isLeft)) == Plain(operand)
    decreases operand, 1
  {
    TreeMeans(operand, if NeedsParens(operand, op, isLeft) then 0 else level);
  }

  lemma {:induction false} TreeMeans(e: Expr, parent: nat)
    ensures Strip(Tree(e, parent)) == Plain(e)
    decreases e, 0
  {
    match e
    case Grouping(inner) => TreeMeans(inner, parent);
    case Unary(op, operand) => TreeMeans(operand, UNARY);
    case Postfix(op, operand) => TreeMeans(operand, POSTFIX);
    case Binary(op, lhs, rhs) =>
      OperandTreeMeans(lhs, LeftLevel(Yps, op), op, true);
      OperandTreeMeans(rhs, RightLevel(op), op, false);
    case Assignment(target, value) =>
      TreeMeans(value, ASSIGN);
      assert Strip(Identifier(target)) == Identifier(target);
    case Conditional(c, t, e) =>
      TreeMeans(c, TERNARY + 1);
      TreeMeans(t, 0);
      TreeMeans(e, TERNARY);
    case _ =>
  }

  // ---- It is derivable ----

  /** Only names are assigned to, incremented or decremented. */
  predicate TargetsAreNames(e: Expr) {
    match e
    case Grouping(inner) => TargetsAreNames(inner)
    case Unary(_, operand) => TargetsAreNames(operand)
    case Postfix(_, operand) => Unwrap(operand).Identifier?
    case Binary(op, lhs, rhs) =>
      (Level(op) == ASSIGN ==> Unwrap(lhs).Identifier?) && TargetsAreNames(lhs) && TargetsAreNames(rhs)
    case Assignment(_, value) => TargetsAreNames(value)
    case Conditional(c, t, e) => TargetsAreNames(c) && TargetsAreNames(t) && TargetsAreNames(e)
    case _ => true
  }

  /** The tree printed in a place of level `parent` is made by its root's production and may stand there by its
      level. */
  ghost predicate Stands(t: Expr, parent: nat) {
    Derives(Root(t), t) && !PipelineRoot(t) && !t.Assignment? && RootLevel(t) >= parent
  }

  lemma GroupingStands(t: Expr, wrap: bool, parent: nat)
    requires Stands(t, 0) && (!wrap ==> RootLevel(t) >= parent) && parent <= PRIMARY
    ensures Stands(Bracket(wrap, t), parent)
  {
    RootLevels(t);
    hide Derives;
    Place(t, AssignmentExpression);
    GroupingDerives(t);
  }

  lemma RootLevels(t: Expr)
    ensures RootLevel(t) >= ASSIGN
  {
    if t.Binary? {
      SidesByLevel(t.op);
    }
  }

  lemma GroupingDerives(t: Expr)
    requires Derives(AssignmentExpression, t)
    ensures Derives(PrimaryExpression, Grouping(t))
  {
    assert Produces(PrimaryExpression, Grouping(t));
  }

  /** Outside brackets a printed tree has the root of the expression. */
  lemma {:induction false} BareRoot(e: Expr, parent: nat)
    requires NoPipeline(e)
    ensures var t, u := Tree(e, parent), Unwrap(e);
            && (t.Binary? ==> (u.Binary? && u.op == t.op) || (u.Assignment? && t.op == Assign))
            && (t.Unary? ==> u.Unary?) && !PipelineRoot(t)
    decreases e
  {
    if e.Grouping? {
      BareRoot(e.inner, parent);
    }
  }

  lemma {:induction false} TreeStands(e: Expr, parent: nat)
    requires NoPipeline(e) && TargetsAreNames(e) && parent <= PRIMARY
    ensures Stands(Tree(e, parent), parent)
    decreases e, 1
  {
    match e
    case Grouping(inner) => TreeStands(inner, parent);
    case Identifier(_) => assert Produces(PrimaryExpression, e);
    case Lit(_) => assert Produces(PrimaryExpression, e);
    case Unary(op, operand) =>
      TreeStands(operand, UNARY);
      Place(Tree(operand, UNARY), UnaryExpression);
      assert Produces(UnaryExpression, Unary(op, Tree(operand, UNARY)));
      GroupingStands(Unary(op, Tree(operand, UNARY)), UNARY < parent, parent);
    case Postfix(op, operand) =>
      NamePrints(operand, POSTFIX);
      assert Produces(UpdateExpression, Postfix(op, Tree(operand, POSTFIX)));
      GroupingStands(Postfix(op, Tree(operand, POSTFIX)), POSTFIX < parent, parent);
    case Binary(op, lhs, rhs) => BinaryStands(op, lhs, rhs, parent);
    case Assignment(target, value) =>
      TreeStands(value, ASSIGN);
      Place(Tree(value, ASSIGN), AssignmentExpression);
      var t := Binary(Assign, Identifier(target), Tree(value, ASSIGN));
      assert Produces(AssignmentExpression, t);
      GroupingStands(t, ASSIGN < parent, parent);
    case Conditional(c, x, y) =>
      TreeStands(c, TERNARY + 1);
      TreeStands(x, 0);
      TreeStands(y, TERNARY);
      ConditionalStands(Tree(c, TERNARY + 1), Tree(x, 0), Tree(y, TERNARY), parent);
  }

  lemma ConditionalStands(c: Expr, x: Expr, y: Expr, parent: nat)
    requires Stands(c, TERNARY + 1) && Stands(x, 0) && Stands(y, TERNARY) && parent <= PRIMARY
    ensures Stands(Bracket(TERNARY < parent, Conditional(c, x, y)), parent)
  {
    Place(c, ShortCircuitExpression);
    RootLevels(x);
    Place(x, AssignmentExpression);
    Place(y, AssignmentExpression);
    assert Produces(ConditionalExpression, Conditional(c, x, y));
    GroupingStands(Conditional(c, x, y), TERNARY < parent, parent);
  }

  lemma {:induction false} NamePrints(e: Expr, parent: nat)
    requires Unwrap(e).Identifier?
    ensures Target(Tree(e, parent))
    decreases e
  {
    if e.Grouping? {
      NamePrints(e.inner, parent);
    }
  }

  lemma {:induction false} BinaryStands(op: BinaryOp, lhs: Expr, rhs: Expr, parent: nat)
    requires NoPipeline(Binary(op, lhs, rhs)) && TargetsAreNames(Binary(op, lhs, rhs)) && parent <= PRIMARY
    ensures Stands(Tree(Binary(op, lhs, rhs), parent), parent)
    decreases Binary(op, lhs, rhs), 0
  {
    SidesByLevel(op);
    var l := OperandTree(lhs, LeftLevel(Yps, op), op, true);
    var r := OperandTree(rhs, RightLevel(op), op, false);
    hide Derives;
    OperandStands(lhs, LeftLevel(Yps, op), op, true);
    OperandStands(rhs, RightLevel(op), op, false);
    if Level(op) == ASSIGN {
      NamePrints(lhs, LeftLevel(Yps, op));
    }
    BinaryProduces(op, l, r);
    GroupingStands(Binary(op, l, r), Level(op) < parent, parent);
  }

  lemma {:induction false} OperandStands(operand: Expr, level: nat, op: BinaryOp, isLeft: bool)
    requires NoPipeline(operand) && TargetsAreNames(operand) && level <= PRIMARY
    ensures Stands(OperandTree(operand, level, op, isLeft), level)
    ensures !NeedsParensBare(OperandTree(operand, level, op, isLeft), op, isLeft)
    decreases operand, 2
  {
    if NeedsParens(operand, op, isLeft) {
      TreeStands(operand, 0);
      GroupingStands(Tree(operand, 0), true, level);
    } else {
      TreeStands(operand, level);
      BareRoot(operand, level);
    }
  }

  /** `t` as it stands breaks one of JavaScript's two extra rules. */
  predicate NeedsParensBare(t: Expr, op: BinaryOp, isLeft: bool) {
    || (op == Exp && isLeft && t.Unary?)
    || (t.Binary? && op == NullishCoalescing && (t.op == And || t.op == Or))
    || (t.Binary? && (op == And || op == Or) && t.op == NullishCoalescing)
  }

  /** Operands that bind tightly enough and keep to the two extra rules make the operator's own production. */
  lemma BinaryProduces(op: BinaryOp, l: Expr, r: Expr)
    requires Stands(l, LeftLevel(Yps, op)) && Stands(r, RightLevel(op)) && op != Pipeline
    requires !NeedsParensBare(l, op, true) && !NeedsParensBare(r, op, false)
    requires Level(op) == ASSIGN ==> Target(l)
    ensures Stands(Binary(op, l, r), Level(op))
  {
    hide Derives;
    SidesByLevel(op);
    LevelsNameOperators(l);
    LevelsNameOperators(r);
    var t := Binary(op, l, r);
    AssignmentLevel(op);
    if Level(op) == ASSIGN {
      Place(r, AssignmentExpression);
      assert Produces(AssignmentExpression, t);
    } else if op == NullishCoalescing {
      Place(l, CoalesceExpressionHead);
      Place(r, BitwiseOrExpression);
      assert Produces(CoalesceExpression, t);
    } else if op == Exp {
      Place(l, UpdateExpression);
      Place(r, ExponentiationExpression);
      assert Produces(ExponentiationExpression, t);
    } else {
      InfixProduces(op, l, r);
    }
    ProducedDerives(Root(t), t);
  }

  lemma ProducedDerives(nt: NonTerminal, t: Expr)
    requires Produces(nt, t)
    ensures Derives(nt, t)
  {
  }

  lemma InfixProduces(op: BinaryOp, l: Expr, r: Expr)
    requires Stands(l, Level(op)) && Stands(r, Level(op) + 1)
    requires op != Pipeline && op != NullishCoalescing && TERNARY < Level(op) < EXPONENT
    requires !NeedsParensBare(l, op, true) && !NeedsParensBare(r, op, false)
    ensures Produces(InfixRoot(op), Binary(op, l, r))
  {
    hide Derives, InfixRoot, Tighter, Root, RootLevel, NtLevel, Level, Produces;
    InfixLevels(op);
    RootOperator(op);
    LevelsNameOperators(r);
    Place(l, InfixRoot(op));
    Place(r, Tighter(InfixRoot(op)));
    InfixProduced(InfixRoot(op), op, l, r);
  }

  lemma InfixProduced(nt: NonTerminal, op: BinaryOp, l: Expr, r: Expr)
    requires LeftRecursive(nt) && OperatorOf(nt, op) && Derives(nt, l) && Derives(Tighter(nt), r)
    ensures Produces(nt, Binary(op, l, r))
  {
    hide Derives;
  }

  lemma InfixLevels(op: BinaryOp)
    requires op != Pipeline && op != NullishCoalescing && TERNARY < Level(op) < EXPONENT
    ensures LeftRecursive(InfixRoot(op)) && NtLevel(InfixRoot(op)) == Level(op)
    ensures InfixRoot(op).LogicalOrExpression? <==> op == Or
    ensures var next := Tighter(InfixRoot(op));
            next != PrimaryExpression && next != CoalesceExpression && !MayCoalesce(next) && next != LogicalOrExpression
    ensures var next := NtLevel(Tighter(InfixRoot(op)));
            next == Level(op) + 1 || (next == 5 && op == Or) || (next == 12 && Level(op) == 10)
  {
    RootOfLevel(op);
    hide InfixRoot, Level;
  }

  lemma RootOfLevel(op: BinaryOp)
    requires op != Pipeline && op != NullishCoalescing && TERNARY < Level(op) < EXPONENT
    ensures LeftRecursive(InfixRoot(op)) && NtLevel(InfixRoot(op)) == Level(op)
    ensures Level(op) == 3 <==> op == Or
  {
    hide Tighter;
  }

  /** Some levels belong to a single kind of root. */
  lemma LevelsNameOperators(t: Expr)
    requires !PipelineRoot(t) && !t.Assignment?
    ensures RootLevel(t) == 4 ==> t.Binary? && t.op == NullishCoalescing
    ensures RootLevel(t) == 5 ==> t.Binary? && t.op == And
    ensures RootLevel(t) == UNARY ==> t.Unary?
    ensures RootLevel(t) != 11
  {
    if t.Binary? {
      SidesByLevel(t.op);
    }
  }

  // ---- And it has to be ----

  lemma {:induction false} NameOrNot(t: Expr)
    ensures !Plain(t).Grouping? && !Strip(t).Grouping?
    ensures Unwrap(t).Identifier? <==> Plain(t).Identifier?
    ensures Unwrap(t).Identifier? <==> Strip(t).Identifier?
    ensures Target(t) <==> Unwrap(t).Identifier?
    ensures Target(t) ==> TargetsAreNames(t)
  {
    if t.Grouping? {
      NameOrNot(t.inner);
    }
  }

  /** Derivable trees assign to names only. */
  lemma {:induction false} DerivesNames(nt: NonTerminal, t: Expr)
    requires Derives(nt, t)
    ensures TargetsAreNames(t)
    decreases t, Rank(nt), 1
  {
    UnitRank(nt);
    if Unit(nt).Some? && Derives(Unit(nt).value, t) {
      DerivesNames(Unit(nt).value, t);
    } else if MayCoalesce(nt) && Derives(CoalesceExpression, t) {
      DerivesNames(CoalesceExpression, t);
    } else {
      ProducesNames(nt, t);
    }
  }

  lemma {:induction false} ProducesNames(nt: NonTerminal, t: Expr)
    requires Produces(nt, t)
    ensures TargetsAreNames(t)
    decreases t, Rank(nt), 0
  {
    hide Derives;
    match t
    case Binary(op, l, r) =>
      NameOrNot(l);
      SidesByLevel(op);
      if nt == AssignmentExpression {
        DerivesNames(AssignmentExpression, r);
      } else if nt == CoalesceExpression {
        DerivesNames(CoalesceExpressionHead, l);
        DerivesNames(BitwiseOrExpression, r);
      } else if nt == ExponentiationExpression {
        DerivesNames(UpdateExpression, l);
        DerivesNames(ExponentiationExpression, r);
      } else {
        DerivesNames(nt, l);
        DerivesNames(Tighter(nt), r);
      }
    case Unary(_, e) => DerivesNames(UnaryExpression, e);
    case Postfix(_, e) => NameOrNot(e);
    case Grouping(e) => DerivesNames(AssignmentExpression, e);
    case Conditional(c, x, y) =>
      DerivesNames(ShortCircuitExpression, c);
      DerivesNames(AssignmentExpression, x);
      DerivesNames(AssignmentExpression, y);
    case _ =>
  }

  lemma {:induction false} StripKeepsNames(t: Expr)
    requires TargetsAreNames(t)
    ensures TargetsAreNames(Strip(t))
  {
    match t
    case Grouping(e) => StripKeepsNames(e);
    case Unary(_, e) => StripKeepsNames(e);
    case Postfix(_, e) => NameOrNot(e);
    case Binary(_, l, r) =>
      NameOrNot(l);
      StripKeepsNames(l);
      StripKeepsNames(r);
    case Assignment(_, v) => StripKeepsNames(v);
    case Conditional(c, x, y) =>
      StripKeepsNames(c);
      StripKeepsNames(x);
      StripKeepsNames(y);
    case _ =>
  }

  lemma {:induction false} PlainShowsNames(e: Expr)
    requires TargetsAreNames(Plain(e))
    ensures TargetsAreNames(e)
  {
    match e
    case Grouping(x) => PlainShowsNames(x);
    case Unary(_, x) => PlainShowsNames(x);
    case Postfix(_, x) => NameOrNot(x);
    case Binary(_, l, r) =>
      NameOrNot(l);
      PlainShowsNames(l);
      PlainShowsNames(r);
    case Assignment(_, v) => PlainShowsNames(v);
    case Conditional(c, x, y) =>
      PlainShowsNames(c);
      PlainShowsNames(x);
      PlainShowsNames(y);
    case _ =>
  }

  /** What is printed is JavaScript with the source's tree, exactly when all assignment, increment and decrement targets
      are names. */
  lemma PrintsJavaScript(e: Expr)
    requires NoPipeline(e)
    ensures TargetsAreNames(e)
       <==> exists t :: Derives(AssignmentExpression, t) && Yield(t) == Tokens(e, 0) && Strip(t) == Plain(e)
  {
    if TargetsAreNames(e) {
      TreeStands(e, 0);
      RootLevels(Tree(e, 0));
      Place(Tree(e, 0), AssignmentExpression);
      TreeTokens(e, 0);
      TreeMeans(e, 0);
    } else if exists t :: Derives(AssignmentExpression, t) && Yield(t) == Tokens(e, 0) && Strip(t) == Plain(e) {
      var t :| Derives(AssignmentExpression, t) && Yield(t) == Tokens(e, 0) && Strip(t) == Plain(e);
      DerivesNames(AssignmentExpression, t);
      StripKeepsNames(t);
      PlainShowsNames(e);
      assert false;
    }
  }

  /** JavaScript gives the printed tokens no other tree than the source's. */
  lemma NoOtherMeaning(e: Expr, t: Expr)
    requires NoPipeline(e) && TargetsAreNames(e)
    requires Derives(AssignmentExpression, t) && Yield(t) == Tokens(e, 0)
    ensures Strip(t) == Plain(e)
  {
    PrintsJavaScript(e);
    var u :| Derives(AssignmentExpression, u) && Yield(u) == Tokens(e, 0) && Strip(u) == Plain(e);
    NoTwoDerivations(t, u);
  }

  /** `(a ? b : c) = d` prints as `a ? b : c = d`, which JavaScript reads as `a ? b : (c = d)`. */
  lemma ConditionalTarget()
    ensures var cond := Conditional(Identifier("a"), Identifier("b"), Identifier("c"));
            var e := Binary(Assign, Grouping(cond), Identifier("d"));
            var t := Conditional(Identifier("a"), Identifier("b"), Binary(Assign, Identifier("c"), Identifier("d")));
            NoPipeline(e) && Derives(AssignmentExpression, t) && Yield(t) == Tokens(e, 0) && Strip(t) != Plain(e)
  {
    var a, b, c, d := Identifier("a"), Identifier("b"), Identifier("c"), Identifier("d");
    var t := Conditional(a, b, Binary(Assign, c, d));
    NameStands("a");
    NameStands("b");
    NameStands("d");
    hide Derives;
    Place(a, ShortCircuitExpression);
    Place(b, AssignmentExpression);
    Place(d, AssignmentExpression);
    ProducedDerives(AssignmentExpression, Binary(Assign, c, d));
    ProducedDerives(ConditionalExpression, t);
    Place(t, AssignmentExpression);
    ConditionalTargetTokens();
  }

  lemma NameStands(name: Name)
    ensures Stands(Identifier(name), PRIMARY)
  {
    assert Produces(PrimaryExpression, Identifier(name));
  }

  lemma ConditionalTargetTokens()
    ensures var cond := Conditional(Identifier("a"), Identifier("b"), Identifier("c"));
            var e := Binary(Assign, Grouping(cond), Identifier("d"));
            var t := Conditional(Identifier("a"), Identifier("b"), Binary(Assign, Identifier("c"), Identifier("d")));
            NoPipeline(e) && Yield(t) == Tokens(e, 0)
  {
    var a, b, c, d := Identifier("a"), Identifier("b"), Identifier("c"), Identifier("d");
    var cond := Conditional(a, b, c);
    var e := Binary(Assign, Grouping(cond), d);
    assert Tokens(cond, TERNARY) == [Word("a")] + [Question] + [Word("b")] + [Colon] + [Word("c")];
    assert Tokens(e, 0) == Tokens(cond, TERNARY) + [BinarySign(Assign)] + [Word("d")];
    assert Yield(Binary(Assign, c, d)) == [Word("c")] + [BinarySign(Assign)] + [Word("d")];
  }
}
