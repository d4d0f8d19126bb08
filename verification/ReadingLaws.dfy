/** What the operator table comes to for a reader of the language: which operands two operators next to each other
    take. The operators are named one by one, so the table has no say in what the laws state. */
module ReadingLaws {
  import opened Syntax
  import opened Surface
  import opened Reader
  import opened JsGrammar

  /** Operators that share a level. */
  predicate Alongside(a: BinaryOp, b: BinaryOp) {
    || a == b || (AssignmentOperator(a) && AssignmentOperator(b))
    || exists nt :: OperatorOf(nt, a) && OperatorOf(nt, b)
  }

  predicate FromTheRight(op: BinaryOp) {
    AssignmentOperator(op) || op.Exp?
  }

  /** `tight` is on the next level above `loose`. */
  predicate NextAbove(loose: BinaryOp, tight: BinaryOp) {
    || (AssignmentOperator(loose) && tight.Or?)
    || (loose.Or? && tight.NullishCoalescing?)
    || (loose.NullishCoalescing? && tight.And?)
    || (loose.And? && tight.BitOr?)
    || (loose.BitOr? && tight.BitXor?)
    || (loose.BitXor? && tight.BitAnd?)
    || (loose.BitAnd? && OperatorOf(EqualityExpression, tight))
    || (OperatorOf(EqualityExpression, loose) && OperatorOf(RelationalExpression, tight))
    || (OperatorOf(RelationalExpression, loose) && tight.Pipeline?)
    || (loose.Pipeline? && OperatorOf(ShiftExpression, tight))
    || (OperatorOf(ShiftExpression, loose) && OperatorOf(AdditiveExpression, tight))
    || (OperatorOf(AdditiveExpression, loose) && OperatorOf(MultiplicativeExpression, tight))
    || (OperatorOf(MultiplicativeExpression, loose) && tight.Exp?)
  }

  /** The tokens of `a o b p c`, with no brackets between. */
  function Row(a: Expr, o: BinaryOp, b: Expr, p: BinaryOp, c: Expr): seq<Token> {
    Yield(a) + [BinarySign(o)] + Yield(b) + [BinarySign(p)] + Yield(c)
  }

  /** Names, literals, bracketed expressions and increments of those. */
  predicate Tight(e: Expr) {
    Fits(Yps, e, PRIMARY)
  }

  lemma FiveParts(a: seq<Token>, b: seq<Token>, c: seq<Token>, d: seq<Token>, e: seq<Token>)
    ensures a + b + (c + d + e) == a + b + c + d + e
  {
  }

  lemma SevenParts(a: seq<Token>, b: seq<Token>, c: seq<Token>, d: seq<Token>, e: seq<Token>, f: seq<Token>,
                   g: seq<Token>)
    ensures a + b + (c + d + e + f + g) == a + b + c + d + e + f + g
    ensures a + b + c + d + (e + f + g) == a + b + c + d + e + f + g
  {
  }

  lemma RowYields(a: Expr, o: BinaryOp, b: Expr, p: BinaryOp, c: Expr)
    ensures Yield(Binary(p, Binary(o, a, b), c)) == Row(a, o, b, p, c)
    ensures Yield(Binary(o, a, Binary(p, b, c))) == Row(a, o, b, p, c)
  {
    FiveParts(Yield(a), [BinarySign(o)], Yield(b), [BinarySign(p)], Yield(c));
    BinaryYields(o, a, b);
    BinaryYields(p, b, c);
    BinaryYields(p, Binary(o, a, b), c);
    BinaryYields(o, a, Binary(p, b, c));
    hide Yield, BinarySign;
  }

  lemma BinaryYields(o: BinaryOp, a: Expr, b: Expr)
    ensures Yield(Binary(o, a, b)) == Yield(a) + [BinarySign(o)] + Yield(b)
  {
    hide BinarySign;
  }

  lemma ConditionalYields(a: Expr, b: Expr, c: Expr)
    ensures Yield(Conditional(a, b, c)) == Choice(a, b, c)
  {
  }

  lemma LooserFits(e: Expr, min: nat)
    requires Tight(e) && min <= PRIMARY
    ensures Fits(Yps, e, min)
  {
  }

  lemma SingleLevels(op: BinaryOp)
    ensures op.Or? ==> Level(op) == NtLevel(LogicalOrExpression)
    ensures op.NullishCoalescing? ==> Level(op) == NtLevel(CoalesceExpression)
    ensures op.Pipeline? ==> NtLevel(RelationalExpression) < Level(op) < NtLevel(ShiftExpression)
    ensures op.Exp? <==> Level(op) == NtLevel(ExponentiationExpression)
  {
  }

  lemma NamedLevels(op: BinaryOp)
    ensures forall nt :: OperatorOf(nt, op) ==> Level(op) == NtLevel(nt)
    ensures AssignmentOperator(op) <==> Level(op) == NtLevel(AssignmentExpression)
  {
    hide Level, OperatorOf, AssignmentOperator;
    AssignmentLevel(op);
    forall nt | OperatorOf(nt, op)
      ensures Level(op) == NtLevel(nt)
    {
      OperatorLevel(nt, op);
    }
  }

  /** The operators of the productions that have just one. */
  lemma OnlyOperator(op: BinaryOp)
    ensures op.Or? ==> OperatorOf(LogicalOrExpression, op)
    ensures op.And? ==> OperatorOf(LogicalAndExpression, op)
    ensures op.BitOr? ==> OperatorOf(BitwiseOrExpression, op)
    ensures op.BitXor? ==> OperatorOf(BitwiseXorExpression, op)
    ensures op.BitAnd? ==> OperatorOf(BitwiseAndExpression, op)
  {
  }

  lemma Rises(loose: BinaryOp, tight: BinaryOp)
    requires NextAbove(loose, tight)
    ensures Level(loose) < Level(tight)
  {
    SingleLevels(loose);
    SingleLevels(tight);
    NamedLevels(loose);
    NamedLevels(tight);
    OnlyOperator(loose);
    OnlyOperator(tight);
    hide Level, OperatorOf, AssignmentOperator;
  }

  /** Of two operators from neighbouring levels the tighter one takes the operand between them, on either side. */
  lemma TighterTakes(a: Expr, b: Expr, c: Expr, loose: BinaryOp, tight: BinaryOp)
    requires Tight(a) && Tight(b) && Tight(c) && NextAbove(loose, tight)
    ensures ReadExpr(Yps, Row(a, loose, b, tight, c), 0) == Read(Binary(loose, a, Binary(tight, b, c)), [])
    ensures ReadExpr(Yps, Row(a, tight, b, loose, c), 0) == Read(Binary(loose, Binary(tight, a, b), c), [])
  {
    hide NextAbove, Level, RightAssoc;
    Rises(loose, tight);
    SidesByLevel(loose);
    SidesByLevel(tight);
    forall e, min: nat | Tight(e) && min <= PRIMARY
      ensures Fits(Yps, e, min)
    {
      LooserFits(e, min);
    }
    RowYields(a, loose, b, tight, c);
    RowYields(a, tight, b, loose, c);
    ReadsWhole(Yps, Binary(loose, a, Binary(tight, b, c)), Level(loose));
    ReadsWhole(Yps, Binary(loose, Binary(tight, a, b), c), Level(loose));
  }

  lemma SameLevel(o: BinaryOp, p: BinaryOp)
    requires Alongside(o, p)
    ensures Level(o) == Level(p) && (RightAssoc(o) <==> FromTheRight(o)) && (FromTheRight(o) <==> FromTheRight(p))
  {
    NamedLevels(o);
    NamedLevels(p);
    SingleLevels(o);
    SingleLevels(p);
    SidesByLevel(o);
    hide Level, OperatorOf, AssignmentOperator, RightAssoc;
  }

  /** Of two operators on one level the left one takes it, except for assignments and `**`. */
  lemma SidesTake(a: Expr, b: Expr, c: Expr, o: BinaryOp, p: BinaryOp)
    requires Tight(a) && Tight(b) && Tight(c) && Alongside(o, p)
    ensures ReadExpr(Yps, Row(a, o, b, p, c), 0)
         == Read(if FromTheRight(o) then Binary(o, a, Binary(p, b, c)) else Binary(p, Binary(o, a, b), c), [])
  {
    SameLevel(o, p);
    SidesByLevel(o);
    SidesByLevel(p);
    hide FromTheRight, Alongside;
    LooserFits(a, LeftLevel(Yps, o));
    LooserFits(b, RightLevel(o));
    LooserFits(b, LeftLevel(Yps, p));
    LooserFits(c, RightLevel(p));
    RowYields(a, o, b, p, c);
    if FromTheRight(o) {
      ReadsWhole(Yps, Binary(o, a, Binary(p, b, c)), Level(o));
    } else {
      ReadsWhole(Yps, Binary(p, Binary(o, a, b), c), Level(o));
    }
  }

  /** A prefix operator takes its operand before any operator between two does, and a postfix operator before that. */
  lemma PrefixTakes(a: Expr, b: Expr, op: UnaryOp, o: BinaryOp, p: PostfixOp)
    requires Tight(a) && Tight(b)
    ensures ReadExpr(Yps, [UnarySign(op)] + Yield(a) + [BinarySign(o)] + Yield(b), 0)
         == Read(Binary(o, Unary(op, a), b), [])
    ensures ReadExpr(Yps, Yield(a) + [BinarySign(o)] + ([UnarySign(op)] + Yield(b)), 0)
         == Read(Binary(o, a, Unary(op, b)), [])
    ensures ReadExpr(Yps, [UnarySign(op)] + (Yield(a) + [PostfixSign(p)]), 0) == Read(Unary(op, Postfix(p, a)), [])
  {
    hide Level, RightAssoc;
    SidesByLevel(o);
    LooserFits(a, UNARY);
    LooserFits(b, UNARY);
    LooserFits(a, LeftLevel(Yps, o));
    LooserFits(b, RightLevel(o));
    assert Fits(Yps, Unary(op, a), UNARY) && Fits(Yps, Unary(op, b), UNARY);
    ReadsWhole(Yps, Binary(o, Unary(op, a), b), Level(o));
    ReadsWhole(Yps, Binary(o, a, Unary(op, b)), Level(o));
    ReadsWhole(Yps, Unary(op, Postfix(p, a)), UNARY);
  }

  /** The tokens of `a ? b : c`. */
  function Choice(a: Expr, b: Expr, c: Expr): seq<Token> {
    Yield(a) + [Question] + Yield(b) + [Colon] + Yield(c)
  }

  /** `? :` binds looser than every operator but the assignments. One that follows a conditional takes all of it, not
      only the part behind the colon; and a second `? :` belongs to that part. */
  lemma ConditionalTakes(a: Expr, b: Expr, c: Expr, d: Expr, e: Expr, o: BinaryOp)
    requires Tight(a) && Tight(b) && Tight(c) && Tight(d) && Tight(e)
    ensures !AssignmentOperator(o) ==>
              && ReadExpr(Yps, Yield(a) + [BinarySign(o)] + Choice(b, c, d), 0)
                 == Read(Conditional(Binary(o, a, b), c, d), [])
              && ReadExpr(Yps, Choice(a, b, c) + [BinarySign(o)] + Yield(d), 0)
                 == Read(Conditional(a, b, Binary(o, c, d)), [])
    ensures AssignmentOperator(o) ==>
              && ReadExpr(Yps, Yield(a) + [BinarySign(o)] + Choice(b, c, d), 0)
                 == Read(Binary(o, a, Conditional(b, c, d)), [])
              && ReadExpr(Yps, Choice(a, b, c) + [BinarySign(o)] + Yield(d), 0)
                 == Read(Binary(o, Conditional(a, b, c), d), [])
    ensures ReadExpr(Yps, Choice(a, b, c) + [Question] + Yield(d) + [Colon] + Yield(e), 0)
         == Read(Conditional(a, b, Conditional(c, d, e)), [])
  {
    AssignmentLevel(o);
    SidesByLevel(o);
    if AssignmentOperator(o) {
      AssignmentAround(a, b, c, d, o);
    } else {
      OperatorInside(a, b, c, d, o);
    }
    Chained(a, b, c, d, e);
  }

  lemma AssignmentAround(a: Expr, b: Expr, c: Expr, d: Expr, o: BinaryOp)
    requires Tight(a) && Tight(b) && Tight(c) && Tight(d) && Level(o) == ASSIGN
    ensures ReadExpr(Yps, Yield(a) + [BinarySign(o)] + Choice(b, c, d), 0)
         == Read(Binary(o, a, Conditional(b, c, d)), [])
    ensures ReadExpr(Yps, Choice(a, b, c) + [BinarySign(o)] + Yield(d), 0)
         == Read(Binary(o, Conditional(a, b, c), d), [])
  {
    SidesByLevel(o);
    ConditionalFits(b, c, d);
    ConditionalFits(a, b, c);
    LooserFits(a, LeftLevel(Yps, o));
    LooserFits(d, RightLevel(o));
    ReadsWhole(Yps, Binary(o, a, Conditional(b, c, d)), ASSIGN);
    ReadsWhole(Yps, Binary(o, Conditional(a, b, c), d), ASSIGN);
  }

  lemma ConditionalFits(a: Expr, b: Expr, c: Expr)
    requires Tight(a) && Tight(b) && Tight(c)
    ensures Fits(Yps, Conditional(a, b, c), TERNARY) && Fits(Yps, Conditional(a, b, c), ASSIGN)
  {
    LooserFits(a, TERNARY + 1);
    LooserFits(b, 0);
    LooserFits(c, TERNARY);
  }

  lemma OperatorInside(a: Expr, b: Expr, c: Expr, d: Expr, o: BinaryOp)
    requires Tight(a) && Tight(b) && Tight(c) && Tight(d) && Level(o) > TERNARY
    ensures ReadExpr(Yps, Yield(a) + [BinarySign(o)] + Choice(b, c, d), 0)
         == Read(Conditional(Binary(o, a, b), c, d), [])
    ensures ReadExpr(Yps, Choice(a, b, c) + [BinarySign(o)] + Yield(d), 0)
         == Read(Conditional(a, b, Binary(o, c, d)), [])
  {
    hide Level, RightAssoc, Yield, Choice;
    SidesByLevel(o);
    LooserFits(a, LeftLevel(Yps, o));
    LooserFits(b, RightLevel(o));
    LooserFits(c, LeftLevel(Yps, o));
    LooserFits(d, RightLevel(o));
    LooserFits(c, 0);
    LooserFits(d, TERNARY);
    LooserFits(a, TERNARY + 1);
    LooserFits(b, 0);
    OperatorInsideTokens(a, b, c, d, o);
    ReadsWhole(Yps, Conditional(Binary(o, a, b), c, d), TERNARY);
    ReadsWhole(Yps, Conditional(a, b, Binary(o, c, d)), TERNARY);
  }

  lemma OperatorInsideTokens(a: Expr, b: Expr, c: Expr, d: Expr, o: BinaryOp)
    ensures Yield(Conditional(Binary(o, a, b), c, d)) == Yield(a) + [BinarySign(o)] + Choice(b, c, d)
    ensures Yield(Conditional(a, b, Binary(o, c, d))) == Choice(a, b, c) + [BinarySign(o)] + Yield(d)
  {
    SevenParts(Yield(a), [BinarySign(o)], Yield(b), [Question], Yield(c), [Colon], Yield(d));
    SevenParts(Yield(a), [Question], Yield(b), [Colon], Yield(c), [BinarySign(o)], Yield(d));
    BinaryYields(o, a, b);
    BinaryYields(o, c, d);
    ConditionalYields(Binary(o, a, b), c, d);
    ConditionalYields(a, b, Binary(o, c, d));
    hide Yield, BinarySign;
  }

  lemma Chained(a: Expr, b: Expr, c: Expr, d: Expr, e: Expr)
    requires Tight(a) && Tight(b) && Tight(c) && Tight(d) && Tight(e)
    ensures ReadExpr(Yps, Choice(a, b, c) + [Question] + Yield(d) + [Colon] + Yield(e), 0)
         == Read(Conditional(a, b, Conditional(c, d, e)), [])
  {
    var t := Conditional(a, b, Conditional(c, d, e));
    ConditionalFits(c, d, e);
    LooserFits(a, TERNARY + 1);
    LooserFits(b, 0);
    assert Yield(t) == Choice(a, b, c) + [Question] + Yield(d) + [Colon] + Yield(e);
    ReadsWhole(Yps, t, TERNARY);
  }
}
