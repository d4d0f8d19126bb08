/** How many brackets the formatter writes: as few as the language's reader lets it, but for a pair around every postfix
    operator that stands inside an operator binding tighter than level 13. */
module Brackets {
  import opened Syntax
  import opened Surface
  import opened Reader
  import opened FmtPrinter
  import opened TokenSink

  // ---- What the reader can read ----

  /** The operator that follows may take `t` for its left operand. */
  predicate Precedes(t: Expr, ts: seq<Token>) {
    var n := NextLevel(ts);
    n >= 0 ==> RootLevel(t) >= n + if n == ASSIGN || n == TERNARY || n == EXPONENT then 1 else 0
  }

  lemma NextBelowUnary(ts: seq<Token>)
    ensures NextLevel(ts) < UNARY
  {
    if ts != [] && AsBinary(ts[0]).Some? {
      SidesByLevel(AsBinary(ts[0]).value);
    }
  }

  lemma RootOnly(t: Expr, p: nat, q: nat)
    requires Fits(Yps, t, p) && RootLevel(t) >= q
    ensures Fits(Yps, t, q)
  {
  }

  /** The reader reads fitting trees only, no token is lost or read twice, and it stops where nothing carries the
      expression on. */
  lemma {:induction false} ReadsFitting(ts: seq<Token>, min: nat)
    requires min <= UNARY && ReadExpr(Yps, ts, min).Read?
    ensures var r := ReadExpr(Yps, ts, min);
            && Fits(Yps, r.expr, min) && |ts| == |Yield(r.expr)| + |r.rest|
            && NextLevel(r.rest) < min && OperandEnds(r.rest)
    decreases |ts|, 2
  {
    hide Climb, NextLevel, Yield;
    PrefixFits(ts);
    var p := ReadPrefix(Yps, ts);
    RootOnly(p.expr, UNARY, min);
    ClimbFits(p.expr, p.rest, min);
  }

  lemma {:induction false} PrefixFits(ts: seq<Token>)
    requires ReadPrefix(Yps, ts).Read?
    ensures var r := ReadPrefix(Yps, ts);
            && Fits(Yps, r.expr, UNARY) && |ts| == |Yield(r.expr)| + |r.rest|
            && Precedes(r.expr, r.rest) && OperandEnds(r.rest)
    decreases |ts|, 1
  {
    hide ReadExpr, NextLevel;
    NextBelowUnary(ReadPrefix(Yps, ts).rest);
    if ts[0] == Open {
      var e := ReadExpr(Yps, ts[1..], 0);
      ReadsFitting(ts[1..], 0);
      OperandFits(Grouping(e.expr), e.rest[1..]);
    } else if ts[0].Sign? {
      ReadsFitting(ts[1..], UNARY);
    } else {
      OperandFits(if ts[0].Word? then Identifier(ts[0].name) else Lit(ts[0].literal), ts[1..]);
    }
  }

  lemma {:induction false} OperandFits(e: Expr, ts: seq<Token>)
    requires Fits(Yps, e, PRIMARY) && Operand(e, ts).Read?
    ensures var r := Operand(e, ts);
            Fits(Yps, r.expr, PRIMARY) && |Yield(e)| + |ts| == |Yield(r.expr)| + |r.rest| && OperandEnds(r.rest)
    decreases |ts|
  {
    if ts != [] && AsPostfix(ts[0]).Some? {
      OperandFits(Postfix(AsPostfix(ts[0]).value, e), ts[1..]);
    }
  }

  lemma {:induction false} ClimbFits(lhs: Expr, ts: seq<Token>, min: nat)
    requires min <= UNARY && Fits(Yps, lhs, min) && Precedes(lhs, ts) && OperandEnds(ts)
    requires Climb(Yps, lhs, ts, min).Read?
    ensures var r := Climb(Yps, lhs, ts, min);
            && Fits(Yps, r.expr, min) && |Yield(lhs)| + |ts| == |Yield(r.expr)| + |r.rest|
            && NextLevel(r.rest) < min && OperandEnds(r.rest)
    decreases |ts|, 0
  {
    hide ReadExpr, Fits, OperandEnds;
    if ts == [] {
    } else if ts[0] == Question && min <= TERNARY {
      var t := ReadExpr(Yps, ts[1..], 0);
      var e := ReadExpr(Yps, t.rest[1..], TERNARY);
      ReadsFitting(ts[1..], 0);
      ReadsFitting(t.rest[1..], TERNARY);
      ConditionalFits(lhs, t.expr, e.expr, e.rest, min);
      ClimbFits(Conditional(lhs, t.expr, e.expr), e.rest, min);
    } else if AsBinary(ts[0]).Some? && Level(AsBinary(ts[0]).value) >= min {
      var op := AsBinary(ts[0]).value;
      var r := ReadExpr(Yps, ts[1..], RightLevel(op));
      SidesByLevel(op);
      ReadsFitting(ts[1..], RightLevel(op));
      BinaryFits(op, lhs, r.expr, r.rest, min);
      ClimbFits(Binary(op, lhs, r.expr), r.rest, min);
    }
  }

  lemma ConditionalFits(c: Expr, t: Expr, e: Expr, rest: seq<Token>, min: nat)
    requires Fits(Yps, c, min) && RootLevel(c) > TERNARY && Fits(Yps, t, 0) && Fits(Yps, e, TERNARY)
    requires NextLevel(rest) < TERNARY && min <= TERNARY
    ensures Fits(Yps, Conditional(c, t, e), min) && Precedes(Conditional(c, t, e), rest)
  {
    RootOnly(c, min, TERNARY + 1);
  }

  lemma BinaryFits(op: BinaryOp, l: Expr, r: Expr, rest: seq<Token>, min: nat)
    requires Fits(Yps, l, min) && Fits(Yps, r, RightLevel(op)) && RootLevel(l) >= LeftLevel(Yps, op)
    requires NextLevel(rest) < RightLevel(op) && min <= Level(op)
    ensures Fits(Yps, Binary(op, l, r), min) && Precedes(Binary(op, l, r), rest)
  {
    RootOnly(l, min, LeftLevel(Yps, op));
    SidesByLevel(op);
    if NextLevel(rest) == Level(op) && rest != [] && AsBinary(rest[0]).Some? {
      SidesByLevel(AsBinary(rest[0]).value);
    }
  }

  // ---- The fewest brackets ----

  /** Brackets exactly where an operand binds looser than its place demands. */
  function Lean(e: Expr, parent: nat): Expr {
    match e
    case Grouping(inner) => Lean(inner, parent)
    case Unary(op, operand) => Bracket(UNARY < parent, Unary(op, Lean(operand, UNARY)))
    case Postfix(op, operand) => Postfix(op, Lean(operand, PRIMARY))
    case Binary(op, lhs, rhs) =>
      Bracket(Level(op) < parent, Binary(op, Lean(lhs, LeftLevel(Yps, op)), Lean(rhs, RightLevel(op))))
    case Conditional(c, t, e) =>
      Bracket(TERNARY < parent, Conditional(Lean(c, TERNARY + 1), Lean(t, 0), Lean(e, TERNARY)))
    case _ => e
  }

  lemma {:induction false} LeanFits(e: Expr, parent: nat)
    requires Faithful(e) && parent <= PRIMARY
    ensures Fits(Yps, Lean(e, parent), parent) && Strip(Lean(e, parent)) == Strip(e)
    decreases e
  {
    match e
    case Grouping(inner) => LeanFits(inner, parent);
    case Unary(_, operand) => LeanFits(operand, UNARY);
    case Postfix(_, operand) => LeanFits(operand, PRIMARY);
    case Binary(op, lhs, rhs) =>
      SidesByLevel(op);
      LeanFits(lhs, LeftLevel(Yps, op));
      LeanFits(rhs, RightLevel(op));
    case Conditional(c, t, e) =>
      LeanFits(c, TERNARY + 1);
      LeanFits(t, 0);
      LeanFits(e, TERNARY);
    case _ =>
  }

  /** A place costs at most one pair more than the loosest one. */
  lemma {:induction false} OnePairMore(e: Expr, p: nat)
    ensures |Yield(Lean(e, p))| <= |Yield(Lean(e, 0))| + 2
    decreases e
  {
    hide Yield;
    if e.Grouping? {
      OnePairMore(e.inner, p);
    } else {
      assert Lean(e, p) == Lean(e, 0) || Lean(e, p) == Grouping(Lean(e, 0));
      BracketCosts(Lean(e, 0));
    }
  }

  lemma BracketCosts(t: Expr)
    ensures |Yield(Grouping(t))| == |Yield(t)| + 2
  {
  }

  lemma {:induction false} LeanUnwraps(e: Expr, p: nat)
    ensures Lean(Unwrap(e), p) == Lean(e, p)
    decreases e
  {
    if e.Grouping? {
      LeanUnwraps(e.inner, p);
    }
  }

  /** Every fitting tree of the expression has at least the tokens of the lean one. */
  lemma {:induction false} LeanIsLeast(t: Expr, e: Expr, p: nat)
    requires Fits(Yps, t, p) && Strip(t) == Strip(e)
    ensures |Yield(Lean(e, p))| <= |Yield(t)|
    decreases t
  {
    var u := Unwrap(e);
    StripUnwraps(e);
    LeanUnwraps(e, p);
    match t
    case Grouping(x) =>
      LeanIsLeast(x, e, 0);
      OnePairMore(e, p);
    case Unary(_, x) => LeanIsLeast(x, u.operand, UNARY);
    case Postfix(_, x) => LeanIsLeast(x, u.operand, PRIMARY);
    case Binary(op, l, r) =>
      LeanIsLeast(l, u.lhs, LeftLevel(Yps, op));
      LeanIsLeast(r, u.rhs, RightLevel(op));
    case Conditional(c, x, y) =>
      LeanIsLeast(c, u.condition, TERNARY + 1);
      LeanIsLeast(x, u.thenExpr, 0);
      LeanIsLeast(y, u.elseExpr, TERNARY);
    case _ =>
  }

  // ---- What the formatter adds ----

  /** Postfix operators in places above their level: the formatter brackets them although they are operands. */
  function Superfluous(e: Expr, parent: nat): nat {
    match e
    case Grouping(inner) => Superfluous(inner, parent)
    case Unary(_, operand) => Superfluous(operand, UNARY)
    case Postfix(_, operand) => (if POSTFIX < parent then 1 else 0) + Superfluous(operand, POSTFIX)
    case Binary(op, lhs, rhs) => Superfluous(lhs, LeftLevel(Yps, op)) + Superfluous(rhs, RightLevel(op))
    case Conditional(c, t, e) => Superfluous(c, TERNARY + 1) + Superfluous(t, 0) + Superfluous(e, TERNARY)
    case _ => 0
  }

  lemma {:induction false} TokenCount(e: Expr, parent: nat)
    requires Faithful(e)
    ensures |Tokens(e, parent)| == |Yield(Lean(e, parent))| + 2 * Superfluous(e, parent)
    decreases e
  {
    match e
    case Grouping(inner) => TokenCount(inner, parent);
    case Unary(_, operand) => TokenCount(operand, UNARY);
    case Postfix(_, operand) =>
      TokenCount(operand, POSTFIX);
      SamePlace(operand);
    case Binary(op, lhs, rhs) =>
      TokenCount(lhs, LeftLevel(Yps, op));
      TokenCount(rhs, RightLevel(op));
    case Conditional(c, t, e) =>
      TokenCount(c, TERNARY + 1);
      TokenCount(t, 0);
      TokenCount(e, TERNARY);
    case _ =>
  }

  /** What a faithful postfix operator is applied to is bracketed in a place of its level or not at all. */
  lemma {:induction false} SamePlace(operand: Expr)
    requires !(POSTFIX <= RootLevel(Unwrap(operand)) < PRIMARY)
    ensures Lean(operand, POSTFIX) == Lean(operand, PRIMARY)
    decreases operand
  {
    if operand.Grouping? {
      SamePlace(operand.inner);
    }
  }

  /** Whatever text is read as the expression, brackets aside, is at least as long as the formatter's but for the
      superfluous pairs, and some text is exactly that much shorter. */
  lemma FewestBrackets(e: Expr)
    requires Faithful(e)
    ensures forall ts :: ReadsAs(ts, e) ==> |Tokens(e, 0)| <= |ts| + 2 * Superfluous(e, 0)
    ensures exists ts :: ReadsAs(ts, e) && |Tokens(e, 0)| == |ts| + 2 * Superfluous(e, 0)
  {
    TokenCount(e, 0);
    forall ts | ReadsAs(ts, e)
      ensures |Yield(Lean(e, 0))| <= |ts|
    {
      LeanIsShortest(ts, e);
    }
    LeanFits(e, 0);
    ReadsWhole(Yps, Lean(e, 0), 0);
    EqIsSameStripped(Lean(e, 0), e);
    assert ReadsAs(Yield(Lean(e, 0)), e);
  }

  /** The reader reads all of `ts`, as the expression or one that differs in brackets only. */
  ghost predicate ReadsAs(ts: seq<Token>, e: Expr) {
    var r := ReadExpr(Yps, ts, 0);
    r.Read? && r.rest == [] && ExprEq(r.expr, e)
  }

  lemma LeanIsShortest(ts: seq<Token>, e: Expr)
    requires ReadsAs(ts, e)
    ensures |Yield(Lean(e, 0))| <= |ts|
  {
    var t := ReadExpr(Yps, ts, 0).expr;
    ReadsFitting(ts, 0);
    EqIsSameStripped(t, e);
    LeanIsLeast(t, e, 0);
  }

  /** The formatter's text is the shortest exactly for expressions without such a postfix operator. */
  lemma ShortestIff(e: Expr)
    requires Faithful(e)
    ensures (forall ts :: ReadsAs(ts, e) ==> |Tokens(e, 0)| <= |ts|) <==> Superfluous(e, 0) == 0
  {
    FewestBrackets(e);
  }
}
