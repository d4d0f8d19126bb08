/** The formatter's expression printer, and what reading its tokens gives back. */
module FmtPrinter {
  import opened Syntax
  import opened Surface
  import opened Reader
  import opened TokenSink

  // ---- The printer ----

  function Tokens(e: Expr, parent: nat): seq<Token> {
    match e
    case Grouping(inner) => Tokens(inner, parent)
    case Identifier(name) => [Word(name)]
    case Lit(literal) => [Constant(literal)]
    case Unary(op, operand) => Bracketed(UNARY < parent, [UnarySign(op)] + Tokens(operand, UNARY))
    case Postfix(op, operand) => Bracketed(POSTFIX < parent, Tokens(operand, POSTFIX) + [PostfixSign(op)])
    case Binary(op, lhs, rhs) =>
      Bracketed(Level(op) < parent, Tokens(lhs, LeftLevel(Yps, op)) + [BinarySign(op)] + Tokens(rhs, RightLevel(op)))
    case Assignment(target, value) => Bracketed(ASSIGN < parent,
                                                [Word(target)] + [BinarySign(Assign)] + Tokens(value, 0))
    case Conditional(c, t, e) =>
      Bracketed(TERNARY < parent,
        Tokens(c, TERNARY + 1) + [Question] + Tokens(t, 0) + [Colon] + Tokens(e, TERNARY))
  }

  /** Appends the tokens of `e` as they must stand inside an operator of level `parent`. */
  method PrintExpr(sink: Sink, e: Expr, parent: nat)
    modifies sink
    ensures sink.out == old(sink.out) + Tokens(e, parent)
    decreases e
  {
    hide Opened, Closed, Bracketed, RightAssoc, Level;
    match e {
      case Grouping(inner) => PrintExpr(sink, inner, parent);
      case Identifier(name) => sink.Write(Word(name));
      case Lit(literal) => sink.Write(Constant(literal));
      case Unary(op, operand) =>
        var wrap := UNARY < parent;
        sink.OpenIf(wrap);
        sink.Write(UnarySign(op));
        PrintExpr(sink, operand, UNARY);
        sink.CloseIf(wrap);
        WrittenTwo(old(sink.out), wrap, [UnarySign(op)], Tokens(operand, UNARY));
      case Postfix(op, operand) =>
        var wrap := POSTFIX < parent;
        sink.OpenIf(wrap);
        PrintExpr(sink, operand, POSTFIX);
        sink.Write(PostfixSign(op));
        sink.CloseIf(wrap);
        WrittenTwo(old(sink.out), wrap, Tokens(operand, POSTFIX), [PostfixSign(op)]);
      case Binary(op, lhs, rhs) =>
        var wrap := Level(op) < parent;
        sink.OpenIf(wrap);
        var left := if RightAssoc(op) then Level(op) + 1 else Level(op);
        var right := if RightAssoc(op) then Level(op) else Level(op) + 1;
        PrintExpr(sink, lhs, left);
        sink.Write(BinarySign(op));
        PrintExpr(sink, rhs, right);
        sink.CloseIf(wrap);
        Written(old(sink.out), wrap, Tokens(lhs, left), [BinarySign(op)], Tokens(rhs, right));
      case Assignment(target, value) =>
        var wrap := ASSIGN < parent;
        sink.OpenIf(wrap);
        sink.Write(Word(target));
        sink.Write(BinarySign(Assign));
        PrintExpr(sink, value, 0);
        sink.CloseIf(wrap);
        Written(old(sink.out), wrap, [Word(target)], [BinarySign(Assign)], Tokens(value, 0));
      case Conditional(c, t, e) => PrintConditional(sink, c, t, e, parent);
    }
  }

  method PrintConditional(sink: Sink, c: Expr, t: Expr, e: Expr, parent: nat)
    modifies sink
    ensures sink.out == old(sink.out) + Tokens(Conditional(c, t, e), parent)
    decreases Conditional(c, t, e), 0
  {
    var wrap := TERNARY < parent;
    sink.OpenIf(wrap);
    PrintExpr(sink, c, TERNARY + 1);
    sink.Write(Question);
    PrintExpr(sink, t, 0);
    sink.Write(Colon);
    PrintExpr(sink, e, TERNARY);
    sink.CloseIf(wrap);
    WrittenFive(old(sink.out), wrap, Tokens(c, TERNARY + 1), [Question], Tokens(t, 0), [Colon], Tokens(e, TERNARY));
  }

  // ---- The tree those tokens denote ----

  /** A postfix operator printed after `t` goes to the last operand of `t`. */
  function Push(op: PostfixOp, t: Expr): Expr {
    match t
    case Unary(u, e) => Unary(u, Push(op, e))
    case Binary(b, l, r) => Binary(b, l, Push(op, r))
    case Conditional(c, x, y) => Conditional(c, x, Push(op, y))
    case Assignment(target, v) => Assignment(target, Push(op, v))
    case _ => Postfix(op, t)
  }

  function Reread(e: Expr, parent: nat): Expr {
    match e
    case Grouping(inner) => Reread(inner, parent)
    case Identifier(_) => e
    case Lit(_) => e
    case Unary(op, operand) => Bracket(UNARY < parent, Unary(op, Reread(operand, UNARY)))
    case Postfix(op, operand) => Bracket(POSTFIX < parent, Push(op, Reread(operand, POSTFIX)))
    case Binary(op, lhs, rhs) =>
      Bracket(Level(op) < parent, Binary(op, Reread(lhs, LeftLevel(Yps, op)), Reread(rhs, RightLevel(op))))
    case Assignment(target, value) => Bracket(ASSIGN < parent, Binary(Assign, Identifier(target), Reread(value, 0)))
    case Conditional(c, t, e) =>
      Bracket(TERNARY < parent, Conditional(Reread(c, TERNARY + 1), Reread(t, 0), Reread(e, TERNARY)))
  }

  lemma {:induction false} PushTokens(op: PostfixOp, t: Expr)
    ensures Yield(Push(op, t)) == Yield(t) + [PostfixSign(op)]
  {
    match t
    case Unary(u, e) => PushTokens(op, e);
    case Binary(b, l, r) =>
      PushTokens(op, r);
      assert Yield(l) + [BinarySign(b)] + (Yield(r) + [PostfixSign(op)])
          == Yield(l) + [BinarySign(b)] + Yield(r) + [PostfixSign(op)];
    case Conditional(c, x, y) =>
      PushTokens(op, y);
      var front := Yield(c) + [Question] + Yield(x) + [Colon];
      assert front + (Yield(y) + [PostfixSign(op)]) == front + Yield(y) + [PostfixSign(op)];
    case Assignment(target, v) => PushTokens(op, v);
    case _ =>
  }

  lemma {:induction false} PushFits(op: PostfixOp, t: Expr, p: nat)
    requires Fits(Yps, t, p)
    ensures Fits(Yps, Push(op, t), p)
  {
    match t
    case Unary(_, e) => PushFits(op, e, UNARY);
    case Binary(b, _, r) => PushFits(op, r, RightLevel(b));
    case Conditional(_, _, y) => PushFits(op, y, TERNARY);
    case _ =>
  }

  lemma {:induction false} PrintsReread(e: Expr, parent: nat)
    ensures Yield(Reread(e, parent)) == Tokens(e, parent)
    decreases e
  {
    match e
    case Grouping(inner) => PrintsReread(inner, parent);
    case Unary(op, operand) => PrintsReread(operand, UNARY);
    case Postfix(op, operand) =>
      PrintsReread(operand, POSTFIX);
      PushTokens(op, Reread(operand, POSTFIX));
    case Binary(op, lhs, rhs) =>
      PrintsReread(lhs, LeftLevel(Yps, op));
      PrintsReread(rhs, RightLevel(op));
    case Assignment(target, value) =>
      PrintsReread(value, 0);
      assert Yield(Identifier(target)) == [Word(target)];
    case Conditional(c, t, e) =>
      PrintsReread(c, TERNARY + 1);
      PrintsReread(t, 0);
      PrintsReread(e, TERNARY);
    case _ =>
  }

  lemma {:induction false} RereadFits(e: Expr, parent: nat)
    requires parent <= PRIMARY
    ensures Fits(Yps, Reread(e, parent), parent)
    decreases e
  {
    match e
    case Grouping(inner) => RereadFits(inner, parent);
    case Unary(op, operand) => RereadFits(operand, UNARY);
    case Postfix(op, operand) =>
      RereadFits(operand, POSTFIX);
      PushFits(op, Reread(operand, POSTFIX), POSTFIX);
      FitsLooser(Push(op, Reread(operand, POSTFIX)), POSTFIX, 0);
      if parent <= POSTFIX {
        FitsLooser(Push(op, Reread(operand, POSTFIX)), POSTFIX, parent);
      }
    case Binary(op, lhs, rhs) =>
      SidesByLevel(op);
      RereadFits(lhs, LeftLevel(Yps, op));
      RereadFits(rhs, RightLevel(op));
    case Assignment(target, value) =>
      RereadFits(value, 0);
      ValueFits(value);
    case Conditional(c, t, e) =>
      RereadFits(c, TERNARY + 1);
      RereadFits(t, 0);
      RereadFits(e, TERNARY);
    case _ =>
  }

  lemma FitsLooser(t: Expr, p: nat, q: nat)
    requires Fits(Yps, t, p) && q <= p
    ensures Fits(Yps, t, q)
  {
  }

  /** Nothing binds looser than an assignment. */
  lemma ValueFits(value: Expr)
    requires Fits(Yps, Reread(value, 0), 0)
    ensures Fits(Yps, Reread(value, 0), ASSIGN)
  {
    var t := Reread(value, 0);
    if t.Binary? {
      SidesByLevel(t.op);
    }
  }

  /** Whatever is printed is read to the end, and read as `Reread`. */
  lemma ReadsReread(e: Expr)
    ensures ReadExpr(Yps, Tokens(e, 0), 0) == Read(Reread(e, 0), [])
  {
    PrintsReread(e, 0);
    RereadFits(e, 0);
    ReadsWhole(Yps, Reread(e, 0), 0);
  }

  // ---- When it is the expression that was printed ----

  /** No assignment node, and no postfix operator on an operator expression that is printed bare before it. */
  predicate Faithful(e: Expr) {
    match e
    case Grouping(inner) => Faithful(inner)
    case Unary(_, operand) => Faithful(operand)
    case Postfix(_, operand) =>
      Faithful(operand) && !(POSTFIX <= RootLevel(Unwrap(operand)) < PRIMARY)
    case Binary(_, lhs, rhs) => Faithful(lhs) && Faithful(rhs)
    case Assignment(_, _) => false
    case Conditional(c, t, e) => Faithful(c) && Faithful(t) && Faithful(e)
    case _ => true
  }

  lemma {:induction false} StripBracket(wrap: bool, e: Expr)
    ensures Strip(Bracket(wrap, e)) == Strip(e)
  {
  }

  lemma {:induction false} RereadSame(e: Expr, parent: nat)
    requires parent <= PRIMARY
    ensures Strip(Reread(e, parent)) == Strip(e) <==> Faithful(e)
    decreases e, 1
  {
    match e
    case Grouping(inner) => RereadSame(inner, parent);
    case Unary(op, operand) => RereadSame(operand, UNARY);
    case Postfix(op, operand) => PostfixSame(op, operand, parent);
    case Binary(op, lhs, rhs) =>
      SidesByLevel(op);
      RereadSame(lhs, LeftLevel(Yps, op));
      RereadSame(rhs, RightLevel(op));
    case Assignment(target, value) =>
    case Conditional(c, t, e) =>
      RereadSame(c, TERNARY + 1);
      RereadSame(t, 0);
      RereadSame(e, TERNARY);
    case _ =>
  }

  lemma {:induction false} PostfixSame(op: PostfixOp, operand: Expr, parent: nat)
    requires parent <= PRIMARY
    ensures Strip(Reread(Postfix(op, operand), parent)) == Strip(Postfix(op, operand)) <==>
              Faithful(Postfix(op, operand))
    decreases Postfix(op, operand), 0
  {
    RereadSame(operand, POSTFIX);
    var t := Reread(operand, POSTFIX);
    StripBracket(POSTFIX < parent, Push(op, t));
    OperandRoot(operand);
  }

  /** What stands before a postfix operator is bare exactly if it is an operator expression that binds tightly
      enough. */
  lemma {:induction false} OperandRoot(operand: Expr)
    ensures var t := Reread(operand, POSTFIX);
            Faithful(operand) ==> (t.Unary? || t.Binary? || t.Conditional? || t.Assignment?
              <==> POSTFIX <= RootLevel(Unwrap(operand)) < PRIMARY)
    decreases operand
  {
    match operand
    case Grouping(inner) => OperandRoot(inner);
    case Postfix(op, x) => OperandRoot(x);
    case _ =>
  }

  /** Reading back what was printed gives the expression that was printed, brackets aside, exactly for faithful ones. */
  lemma RoundTrip(e: Expr)
    ensures var r := ReadExpr(Yps, Tokens(e, 0), 0);
            r.Read? && r.rest == [] && (ExprEq(r.expr, e) <==> Faithful(e))
  {
    ReadsReread(e);
    RereadSame(e, 0);
    EqIsSameStripped(Reread(e, 0), e);
  }

  /** Printing does not depend on brackets. */
  lemma {:induction false} PrintsStripped(e: Expr, parent: nat)
    ensures Tokens(Strip(e), parent) == Tokens(e, parent)
    decreases e
  {
    match e
    case Grouping(inner) => PrintsStripped(inner, parent);
    case Unary(_, operand) => PrintsStripped(operand, UNARY);
    case Postfix(_, operand) => PrintsStripped(operand, POSTFIX);
    case Binary(op, lhs, rhs) =>
      PrintsStripped(lhs, LeftLevel(Yps, op));
      PrintsStripped(rhs, RightLevel(op));
    case Assignment(_, value) => PrintsStripped(value, 0);
    case Conditional(c, t, e) =>
      PrintsStripped(c, TERNARY + 1);
      PrintsStripped(t, 0);
      PrintsStripped(e, TERNARY);
    case _ =>
  }

  /** Faithful expressions print the same tokens exactly if they are equal through brackets. */
  lemma SameTokens(a: Expr, b: Expr)
    requires Faithful(a) && Faithful(b)
    ensures Tokens(a, 0) == Tokens(b, 0) <==> ExprEq(a, b)
  {
    RoundTrip(a);
    RoundTrip(b);
    EqIsSameStripped(a, b);
    PrintsStripped(a, 0);
    PrintsStripped(b, 0);
    var r := ReadExpr(Yps, Tokens(a, 0), 0);
    EqIsSameStripped(r.expr, a);
    if Tokens(a, 0) == Tokens(b, 0) {
      EqIsSameStripped(r.expr, b);
    }
  }

  /** Formatting twice changes nothing. */
  lemma FormatsOnce(e: Expr)
    requires Faithful(e)
    ensures var r := ReadExpr(Yps, Tokens(e, 0), 0);
            r.Read? && Tokens(r.expr, 0) == Tokens(e, 0)
  {
    ReadsReread(e);
    RereadSame(e, 0);
    PrintsStripped(Reread(e, 0), 0);
    PrintsStripped(e, 0);
  }

  /** `(a * b)++` prints as `a * b++`, which reads as `a * (b++)`. */
  lemma PostfixOnProduct()
    ensures var e := Postfix(PostfixOp.Increment, Grouping(Binary(Mul, Identifier("a"), Identifier("b"))));
            var r := ReadExpr(Yps, Tokens(e, 0), 0);
            r.Read? && !ExprEq(r.expr, e)
            && r.expr == Binary(Mul, Identifier("a"), Postfix(PostfixOp.Increment, Identifier("b")))
  {
    var e := Postfix(PostfixOp.Increment, Grouping(Binary(Mul, Identifier("a"), Identifier("b"))));
    ReadsReread(e);
    RoundTrip(e);
    assert Reread(e.operand, POSTFIX) == Binary(Mul, Identifier("a"), Identifier("b"));
  }
}
