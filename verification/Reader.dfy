/** Reading operator expressions by precedence climbing. */
module Reader {
  import opened Syntax
  import opened Surface

  /** The reader of the language itself, and the same reader with the two places where JavaScript's grammar differs:
      what follows the colon of `? :`, and what may stand left of an assignment. */
  datatype Dialect = Yps | Js

  function ElseLevel(d: Dialect): nat {
    if d == Yps then TERNARY else ASSIGN
  }

  function LeftLevel(d: Dialect, op: BinaryOp): nat {
    if d == Js && Level(op) == ASSIGN then PRIMARY else if RightAssoc(op) then Level(op) + 1 else Level(op)
  }

  function RightLevel(op: BinaryOp): nat {
    if RightAssoc(op) then Level(op) else Level(op) + 1
  }

  datatype Reading = Read(expr: Expr, rest: seq<Token>) | Failed

  predicate StartsWith(ts: seq<Token>, t: Token) {
    ts != [] && ts[0] == t
  }

  // ---- The reader ----

  function ReadExpr(d: Dialect, ts: seq<Token>, min: nat): (r: Reading)
    ensures r.Read? ==> |r.rest| < |ts|
    decreases |ts|, 2
  {
    var p := ReadPrefix(d, ts);
    if p.Failed? then Failed else Climb(d, p.expr, p.rest, min)
  }

  function ReadPrefix(d: Dialect, ts: seq<Token>): (r: Reading)
    ensures r.Read? ==> |r.rest| < |ts|
    decreases |ts|, 1
  {
    if ts == [] then Failed
    else if ts[0].Word? then Operand(Identifier(ts[0].name), ts[1..])
    else if ts[0].Constant? then Operand(Lit(ts[0].literal), ts[1..])
    else if ts[0] == Open then
      var e := ReadExpr(d, ts[1..], 0);
      if e.Read? && StartsWith(e.rest, Close) then Operand(Grouping(e.expr), e.rest[1..]) else Failed
    else
      var op := AsUnary(ts[0]);
      if op.None? then Failed
      else
        var e := ReadExpr(d, ts[1..], UNARY);
        if e.Failed? then Failed else Operand(Unary(op.value, e.expr), e.rest)
  }

  /** The postfix operators after an operand. An opening bracket there would begin a call. */
  function Operand(e: Expr, ts: seq<Token>): (r: Reading)
    ensures r.Read? ==> |r.rest| <= |ts|
    decreases |ts|
  {
    if StartsWith(ts, Open) then Failed
    else if ts != [] && AsPostfix(ts[0]).Some? then Operand(Postfix(AsPostfix(ts[0]).value, e), ts[1..])
    else Read(e, ts)
  }

  function Climb(d: Dialect, lhs: Expr, ts: seq<Token>, min: nat): (r: Reading)
    ensures r.Read? ==> |r.rest| <= |ts|
    decreases |ts|, 0
  {
    if ts == [] then Read(lhs, ts)
    else if ts[0] == Question && min <= TERNARY then
      var t := ReadExpr(d, ts[1..], 0);
      if t.Read? && StartsWith(t.rest, Colon) then
        var e := ReadExpr(d, t.rest[1..], ElseLevel(d));
        if e.Failed? then Failed else Climb(d, Conditional(lhs, t.expr, e.expr), e.rest, min)
      else Failed
    else
      var op := AsBinary(ts[0]);
      if op.None? || Level(op.value) < min then Read(lhs, ts)
      else
        var r := ReadExpr(d, ts[1..], RightLevel(op.value));
        if r.Failed? then Failed else Climb(d, Binary(op.value, lhs, r.expr), r.rest, min)
  }

  // ---- Trees that read back ----

  function RootLevel(t: Expr): nat {
    match t
    case Unary(_, _) => UNARY
    case Binary(op, _, _) => Level(op)
    case Assignment(_, _) => ASSIGN
    case Conditional(_, _, _) => TERNARY
    case _ => PRIMARY
  }

  /** Every operand binds at least as tightly as its place demands, or is bracketed. */
  predicate Fits(d: Dialect, t: Expr, min: nat) {
    RootLevel(t) >= min &&
    match t
    case Grouping(e) => Fits(d, e, 0)
    case Unary(_, e) => Fits(d, e, UNARY)
    case Binary(op, l, r) => Fits(d, l, LeftLevel(d, op)) && Fits(d, r, RightLevel(op))
    case Assignment(_, _) => false
    case Postfix(_, e) => Fits(d, e, PRIMARY)
    case Conditional(c, t, e) => Fits(d, c, TERNARY + 1) && Fits(d, t, 0) && Fits(d, e, ElseLevel(d))
    case _ => true
  }

  /** The level at which the next token would carry an expression on; -1 if it ends it. */
  function NextLevel(ts: seq<Token>): int {
    if ts == [] then -1
    else if ts[0] == Question then TERNARY
    else if AsBinary(ts[0]).Some? then Level(AsBinary(ts[0]).value)
    else -1
  }

  /** An operand ends here. */
  predicate OperandEnds(ts: seq<Token>) {
    ts != [] ==> ts[0] != Open && AsPostfix(ts[0]).None?
  }

  /** What follows cannot be drawn into an expression that binds at `level` or tighter. */
  predicate Stops(d: Dialect, ts: seq<Token>, level: nat) {
    && OperandEnds(ts)
    && (NextLevel(ts) < level || (NextLevel(ts) == level && level != ASSIGN && level != TERNARY && level != EXPONENT))
    && (level <= TERNARY ==> NextLevel(ts) < ElseLevel(d))
  }

  lemma ClimbStops(d: Dialect, e: Expr, ts: seq<Token>, min: nat)
    requires NextLevel(ts) < min
    ensures Climb(d, e, ts, min) == Read(e, ts)
  {
  }

  /** After a right operand the reader stops. */
  lemma RightStops(d: Dialect, op: BinaryOp, e: Expr, ts: seq<Token>, p: nat)
    requires Stops(d, ts, p) && p <= Level(op)
    ensures Climb(d, e, ts, RightLevel(op)) == Read(e, ts) && Stops(d, ts, RightLevel(op))
  {
    SidesByLevel(op);
    ClimbStops(d, e, ts, RightLevel(op));
  }

  lemma OperatorStops(d: Dialect, op: BinaryOp, rest: seq<Token>)
    ensures NextLevel([BinarySign(op)] + rest) == Level(op)
    ensures Stops(d, [BinarySign(op)] + rest, LeftLevel(d, op))
  {
    SidesByLevel(op);
    SignsReadBack(op, Plus);
  }

  lemma MarkStops(d: Dialect, t: Token, rest: seq<Token>)
    requires t == Close || t == Colon || t == Question
    ensures t != Question ==> NextLevel([t] + rest) == -1 && Stops(d, [t] + rest, 0)
    ensures t == Question ==> Stops(d, [t] + rest, TERNARY + 1)
  {
  }

  // ---- The first step of the reader on each kind of token ----

  lemma ReadsOpen(d: Dialect, ts: seq<Token>, e: Expr, rest: seq<Token>)
    requires ReadExpr(d, ts, 0) == Read(e, [Close] + rest)
    ensures ReadPrefix(d, [Open] + ts) == Operand(Grouping(e), rest)
  {
    assert ([Open] + ts)[1..] == ts;
    assert ([Close] + rest)[1..] == rest;
  }

  lemma ReadsUnary(d: Dialect, op: UnaryOp, ts: seq<Token>, e: Expr, rest: seq<Token>)
    requires ReadExpr(d, ts, UNARY) == Read(e, rest)
    ensures ReadPrefix(d, [UnarySign(op)] + ts) == Operand(Unary(op, e), rest)
  {
    SignsReadBack(Add, op);
    assert ([UnarySign(op)] + ts)[1..] == ts;
  }

  lemma ReadsPostfix(e: Expr, op: PostfixOp, rest: seq<Token>)
    ensures Operand(e, [PostfixSign(op)] + rest) == Operand(Postfix(op, e), rest)
  {
    assert ([PostfixSign(op)] + rest)[1..] == rest;
  }

  lemma ReadsBinary(d: Dialect, l: Expr, op: BinaryOp, ts: seq<Token>, r: Expr, rest: seq<Token>, min: nat)
    requires min <= Level(op) && ReadExpr(d, ts, RightLevel(op)) == Read(r, rest)
    ensures Climb(d, l, [BinarySign(op)] + ts, min) == Climb(d, Binary(op, l, r), rest, min)
  {
    SignsReadBack(op, Plus);
    assert ([BinarySign(op)] + ts)[1..] == ts;
  }

  lemma ReadsConditional(d: Dialect, c: Expr, ts: seq<Token>, t: Expr, us: seq<Token>, e: Expr, rest: seq<Token>,
                         min: nat)
    requires min <= TERNARY && ReadExpr(d, ts, 0) == Read(t, [Colon] + us)
    requires ReadExpr(d, us, ElseLevel(d)) == Read(e, rest)
    ensures Climb(d, c, [Question] + ts, min) == Climb(d, Conditional(c, t, e), rest, min)
  {
    assert ([Question] + ts)[1..] == ts;
    assert ([Colon] + us)[1..] == us;
  }

  // ---- Reading back ----

  /** A tree that is a name, a literal, bracketed or postfixed is read as one operand. */
  lemma {:induction false} OperandReadsBack(d: Dialect, t: Expr, rest: seq<Token>)
    requires Fits(d, t, PRIMARY)
    ensures ReadPrefix(d, Yield(t) + rest) == Operand(t, rest)
    decreases t, 0
  {
    match t
    case Identifier(name) => assert ([Word(name)] + rest)[1..] == rest;
    case Lit(literal) => assert ([Constant(literal)] + rest)[1..] == rest;
    case Grouping(e) => BracketReadsBack(d, e, rest);
    case Postfix(op, e) => PostfixReadsBack(d, op, e, rest);
    case Binary(op, _, _) => SidesByLevel(op);
    case _ =>
  }

  lemma {:induction false} BracketReadsBack(d: Dialect, e: Expr, rest: seq<Token>)
    requires Fits(d, e, 0)
    ensures ReadPrefix(d, Yield(Grouping(e)) + rest) == Operand(Grouping(e), rest)
    decreases e, 2
  {
    hide *;
    MarkStops(d, Close, rest);
    ReadsBack(d, e, 0, 0, [Close] + rest);
    ClimbStops(d, e, [Close] + rest, 0);
    ReadsOpen(d, Yield(e) + ([Close] + rest), e, rest);
    AroundTokens(e, PostfixOp.Increment, Plus, rest);
  }

  lemma {:induction false} PostfixReadsBack(d: Dialect, op: PostfixOp, e: Expr, rest: seq<Token>)
    requires Fits(d, e, PRIMARY)
    ensures ReadPrefix(d, Yield(Postfix(op, e)) + rest) == Operand(Postfix(op, e), rest)
    decreases e, 2
  {
    hide *;
    OperandReadsBack(d, e, [PostfixSign(op)] + rest);
    ReadsPostfix(e, op, rest);
    AroundTokens(e, op, Plus, rest);
  }

  lemma AroundTokens(e: Expr, p: PostfixOp, u: UnaryOp, rest: seq<Token>)
    ensures Yield(Grouping(e)) + rest == [Open] + (Yield(e) + ([Close] + rest))
    ensures Yield(Postfix(p, e)) + rest == Yield(e) + ([PostfixSign(p)] + rest)
    ensures Yield(Unary(u, e)) + rest == [UnarySign(u)] + (Yield(e) + rest)
  {
    var y := Yield(e);
    assert [Open] + y + [Close] + rest == [Open] + (y + ([Close] + rest));
    assert y + [PostfixSign(p)] + rest == y + ([PostfixSign(p)] + rest);
    assert [UnarySign(u)] + y + rest == [UnarySign(u)] + (y + rest);
  }

  /** A fitting tree is read back whole, and the reader goes on with what follows. */
  lemma {:induction false} ReadsBack(d: Dialect, t: Expr, p: nat, min: nat, rest: seq<Token>)
    requires Fits(d, t, p) && min <= p && Stops(d, rest, p)
    ensures ReadExpr(d, Yield(t) + rest, min) == Climb(d, t, rest, min)
    decreases t, 1
  {
    match t
    case Unary(op, e) => UnaryReadsBack(d, op, e, min, p, rest);
    case Binary(op, l, r) => BinaryReadsBack(d, op, l, r, p, min, rest);
    case Conditional(c, x, y) => ConditionalReadsBack(d, c, x, y, p, min, rest);
    case Assignment(_, _) =>
    case _ => OperandReadsBack(d, t, rest);
  }

  lemma {:induction false} UnaryReadsBack(d: Dialect, op: UnaryOp, e: Expr, min: nat, p: nat, rest: seq<Token>)
    requires Fits(d, e, UNARY) && Stops(d, rest, p) && p <= UNARY
    ensures ReadExpr(d, Yield(Unary(op, e)) + rest, min) == Climb(d, Unary(op, e), rest, min)
    decreases e, 2
  {
    hide *;
    UnaryStops(d, e, Unary(op, e), rest, p, min);
    ReadsBack(d, e, UNARY, UNARY, rest);
    ReadsUnary(d, op, Yield(e) + rest, e, rest);
    AroundTokens(e, PostfixOp.Increment, op, rest);
    ReadsOn(d, Yield(Unary(op, e)) + rest, Unary(op, e), rest, min);
  }

  /** The operand of a prefix operator ends before every binary operator. */
  lemma UnaryStops(d: Dialect, e: Expr, u: Expr, ts: seq<Token>, p: nat, min: nat)
    requires Stops(d, ts, p) && p <= UNARY
    ensures Stops(d, ts, UNARY) && Climb(d, e, ts, UNARY) == Read(e, ts) && Operand(u, ts) == Read(u, ts)
  {
    ClimbStops(d, e, ts, UNARY);
  }

  lemma ReadsOn(d: Dialect, ts: seq<Token>, e: Expr, rest: seq<Token>, min: nat)
    requires ReadPrefix(d, ts) == Read(e, rest)
    ensures ReadExpr(d, ts, min) == Climb(d, e, rest, min)
  {
  }

  lemma {:induction false} BinaryReadsBack(d: Dialect, op: BinaryOp, l: Expr, r: Expr, p: nat, min: nat,
                                           rest: seq<Token>)
    requires Fits(d, l, LeftLevel(d, op)) && Fits(d, r, RightLevel(op))
    requires min <= p <= Level(op) && Stops(d, rest, p)
    ensures ReadExpr(d, Yield(Binary(op, l, r)) + rest, min) == Climb(d, Binary(op, l, r), rest, min)
    decreases Binary(op, l, r), 0
  {
    hide *;
    RightStops(d, op, r, rest, p);
    ReadsBack(d, r, RightLevel(op), RightLevel(op), rest);
    var after := Yield(r) + rest;
    OperatorStops(d, op, after);
    ReadsBack(d, l, LeftLevel(d, op), min, [BinarySign(op)] + after);
    ReadsBinary(d, l, op, after, r, rest, min);
    BinaryTokens(op, l, r, rest);
  }

  lemma BinaryTokens(op: BinaryOp, l: Expr, r: Expr, rest: seq<Token>)
    ensures Yield(Binary(op, l, r)) + rest == Yield(l) + ([BinarySign(op)] + (Yield(r) + rest))
  {
    var a, b := Yield(l), Yield(r);
    assert a + [BinarySign(op)] + b + rest == a + ([BinarySign(op)] + (b + rest));
  }

  lemma {:induction false} ConditionalReadsBack(d: Dialect, c: Expr, x: Expr, y: Expr, p: nat, min: nat,
                                                rest: seq<Token>)
    requires Fits(d, c, TERNARY + 1) && Fits(d, x, 0) && Fits(d, y, ElseLevel(d))
    requires min <= p <= TERNARY && Stops(d, rest, p)
    ensures ReadExpr(d, Yield(Conditional(c, x, y)) + rest, min) == Climb(d, Conditional(c, x, y), rest, min)
    decreases Conditional(c, x, y), 0
  {
    hide *;
    ElseStops(d, y, rest, p);
    ReadsBack(d, y, ElseLevel(d), ElseLevel(d), rest);
    var last := Yield(y) + rest;
    MarkStops(d, Colon, last);
    ReadsBack(d, x, 0, 0, [Colon] + last);
    ClimbStops(d, x, [Colon] + last, 0);
    var mid := Yield(x) + ([Colon] + last);
    MarkStops(d, Question, mid);
    ReadsBack(d, c, TERNARY + 1, min, [Question] + mid);
    ReadsConditional(d, c, mid, x, last, y, rest, min);
    ConditionalTokens(c, x, y, rest);
  }

  lemma ConditionalTokens(c: Expr, x: Expr, y: Expr, rest: seq<Token>)
    ensures Yield(Conditional(c, x, y)) + rest == Yield(c) + ([Question] + (Yield(x) + ([Colon] + (Yield(y) + rest))))
  {
    var a, b, e := Yield(c), Yield(x), Yield(y);
    assert a + [Question] + b + [Colon] + e + rest == a + ([Question] + (b + ([Colon] + (e + rest))));
  }

  lemma ElseStops(d: Dialect, e: Expr, ts: seq<Token>, p: nat)
    requires Stops(d, ts, p) && p <= TERNARY
    ensures Climb(d, e, ts, ElseLevel(d)) == Read(e, ts) && Stops(d, ts, ElseLevel(d))
  {
    ClimbStops(d, e, ts, ElseLevel(d));
  }

  /** A fitting tree is what its own tokens read as. */
  lemma ReadsWhole(d: Dialect, t: Expr, p: nat)
    requires Fits(d, t, p)
    ensures ReadExpr(d, Yield(t), 0) == Read(t, [])
  {
    assert Yield(t) + [] == Yield(t);
    ReadsBack(d, t, 0, 0, []);
  }

  /** Fitting trees with the same tokens are the same tree: the grammar is unambiguous. */
  lemma Unambiguous(d: Dialect, a: Expr, b: Expr, p: nat, q: nat)
    requires Fits(d, a, p) && Fits(d, b, q) && Yield(a) == Yield(b)
    ensures a == b
  {
    ReadsWhole(d, a, p);
    ReadsWhole(d, b, q);
  }
}
