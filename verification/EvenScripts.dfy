/** Scripts on which the backends stay even: a property of the text from which no step of any run can part them. */
module EvenScripts {
  import opened Syntax
  import opened Values
  import opened Semantics
  import opened Bytecode
  import opened Codegen
  import opened StmtShape
  import opened ScriptProof
  import opened Parity

  // ---- The property ----

  /** What is known at a place of the text: the names that some scope may hold as a constant, the names whose innermost
      variable may not be ready, and the labels around it that stand on no loop. */
  datatype Place = Place(fixed: set<Name>, unready: set<Name>, tags: set<Name>)

  /** Its value is a number whenever it has one. */
  predicate Numeric(e: Expr) {
    match e
    case Lit(l) => l.NumberLit?
    case Grouping(inner) => Numeric(inner)
    case Unary(op, operand) => op.Plus? || op.BitwiseNot? || (op.Minus? && Numeric(operand))
    case Binary(op, lhs, rhs) =>
      || op.BitAnd? || op.BitOr? || op.BitXor? || op.LeftShift? || op.RightShift? || op.UnsignedRightShift?
      || (WantsBoth(op) && CompoundBase(op).None? && Numeric(lhs) && Numeric(rhs))
    case Conditional(_, t, f) => Numeric(t) && Numeric(f)
    case _ => false
  }

  /** The operators, alone or in a compound assignment, that the interpreter gives to numbers only. */
  predicate WantsBoth(op: BinaryOp) {
    op.Sub? || op.Mul? || op.Div? || op.Mod? || op.Exp?
    || op.MinusAssign? || op.MulAssign? || op.DivAssign? || op.ModAssign? || op.ExpAssign?
  }

  predicate StoresTo(op: BinaryOp) {
    op.Assign? || op.AndAssign? || op.OrAssign? || op.NullishAssign? || CompoundBase(op).Some?
  }

  predicate Storable(p: Place, x: Name) {
    x !in p.fixed && x !in p.unready
  }

  /** No `delete`, no `typeof` of a name, no `++` or `--`, no number that reads as none; arithmetic other than `+` on
      evident numbers; and stores only to variables that are ready and constant in no scope. */
  predicate ExprEven(nm: Numerics, p: Place, e: Expr) {
    match e
    case Identifier(_) => true
    case Lit(l) => !Unreadable(nm, l)
    case Grouping(inner) => ExprEven(nm, p, inner)
    case Unary(op, operand) =>
      && ExprEven(nm, p, operand) && !op.Delete? && (op.Typeof? ==> !operand.Identifier?)
      && (op.BitwiseNot? ==> Numeric(operand))
    case Binary(op, lhs, rhs) =>
      && ExprEven(nm, p, lhs) && ExprEven(nm, p, rhs)
      && (StoresTo(op) && lhs.Identifier? ==> Storable(p, lhs.name))
      && (WantsBoth(op) ==> Numeric(lhs) && Numeric(rhs))
    case Assignment(x, value) => ExprEven(nm, p, value) && Storable(p, x)
    case Postfix(_, operand) => !operand.Identifier?
    case Conditional(c, t, f) => ExprEven(nm, p, c) && ExprEven(nm, p, t) && ExprEven(nm, p, f)
  }

  predicate OptionEven(nm: Numerics, p: Place, e: Option<Expr>) {
    e.Some? ==> ExprEven(nm, p, e.value)
  }

  /** After its declaration a variable is ready. */
  function Behind(p: Place, s: Stmt): Place {
    if s.VarDecl? then p.(unready := p.unready - {s.name}) else p
  }

  predicate StmtEven(nm: Numerics, p: Place, s: Stmt)
    decreases s
  {
    match s
    case VarDecl(x, init, isConst) => ExprEven(nm, p, init) && (isConst <==> x in p.fixed)
    case ExprStmt(e) => ExprEven(nm, p, e)
    case BlockStmt(block) => BlockEven(nm, p, block)
    case Empty => true
    case If(c, t, f) => ExprEven(nm, p, c) && StmtEven(nm, p, t) && (f.Some? ==> StmtEven(nm, p, f.value))
    case While(c, body) => ExprEven(nm, p, c) && StmtEven(nm, p, body)
    case DoWhile(body, c) => StmtEven(nm, p, body) && ExprEven(nm, p, c)
    case For(init, c, u, body) =>
      && (init.Some? ==> StmtEven(nm, p, init.value))
      && var inside := if init.Some? then Behind(p, init.value) else p;
      OptionEven(nm, inside, c) && OptionEven(nm, inside, u) && StmtEven(nm, inside, body)
    case Switch(e, cases, d) =>
      && ExprEven(nm, p, e) && (forall i :: 0 <= i < |cases| ==> CaseEven(nm, p, cases[i]))
      && (d.Some? ==> BlockEven(nm, p, d.value))
    case Labeled(l, body) => StmtEven(nm, if IsLoop(body) then p else p.(tags := p.tags + {l}), body)
    case Break(_) => true
    case Continue(l) => l.Some? ==> l.value !in p.tags
    case Return(e) => OptionEven(nm, p, e)
    case Throw(e) => ExprEven(nm, p, e)
  }

  predicate CaseEven(nm: Numerics, p: Place, c: SwitchCase)
    decreases c
  {
    ExprEven(nm, p, c.value) && BlockEven(nm, p, c.body)
  }

  function Inside(p: Place, block: Block): Place {
    p.(unready := p.unready + DeclaredNames(block.stmts))
  }

  predicate BlockEven(nm: Numerics, p: Place, block: Block)
    decreases block
  {
    ListEven(nm, Inside(p, block), block.stmts)
  }

  predicate ListEven(nm: Numerics, p: Place, stmts: seq<Stmt>)
    decreases stmts
  {
    stmts == [] || (StmtEven(nm, p, stmts[0]) && ListEven(nm, Behind(p, stmts[0]), stmts[1..]))
  }

  /** What can be checked before a run: `fixed` are the constants, those declared in the script and the global ones. */
  predicate Even(nm: Numerics, items: seq<Stmt>, fixed: set<Name>) {
    ListEven(nm, Place(fixed, {}, {}), items)
  }

  // ---- The environment at a place ----

  predicate ReadyAt(frames: seq<Frame>, x: Name) {
    var k := Holder(frames, x);
    k > 0 ==> frames[k - 1][x].ready
  }

  predicate GlobalsFit(fixed: set<Name>, g: Globals) {
    forall x :: x in g && g[x].1 ==> x in fixed
  }

  ghost predicate FramesFit(p: Place, frames: seq<Frame>) {
    && (forall k, x :: 0 <= k < |frames| && x in frames[k] && frames[k][x].isConst ==> x in p.fixed)
    && (forall x :: ReadyAt(frames, x) || x in p.unready)
  }

  ghost predicate Fits(p: Place, env: Env) {
    FramesFit(p, env.frames) && GlobalsFit(p.fixed, env.globals)
  }

  /** The same cells, up to their values. */
  ghost predicate SameShape(a: seq<Frame>, b: seq<Frame>) {
    && |a| == |b|
    && forall k :: 0 <= k < |a| ==>
         && a[k].Keys == b[k].Keys
         && forall x :: x in a[k] ==> a[k][x].ready == b[k][x].ready && a[k][x].isConst == b[k][x].isConst
  }

  lemma {:induction false} ShapeHolder(a: seq<Frame>, b: seq<Frame>, x: Name)
    requires SameShape(a, b)
    ensures Holder(a, x) == Holder(b, x)
    decreases |a|
  {
    if a != [] && x !in a[|a| - 1] {
      ShapeHolder(a[..|a| - 1], b[..|b| - 1], x);
    }
  }

  lemma ShapeReady(a: seq<Frame>, b: seq<Frame>, x: Name)
    requires SameShape(a, b)
    ensures ReadyAt(a, x) <==> ReadyAt(b, x)
  {
    ShapeHolder(a, b, x);
    hide Holder;
  }

  lemma ShapeFits(p: Place, a: seq<Frame>, b: seq<Frame>)
    requires FramesFit(p, a) && SameShape(a, b)
    ensures FramesFit(p, b)
  {
    forall x
      ensures ReadyAt(b, x) || x in p.unready
    {
      ShapeReady(a, b, x);
      assert ReadyAt(a, x) || x in p.unready;
    }
    hide ReadyAt;
  }

  lemma ShapeTwice(a: seq<Frame>, b: seq<Frame>, c: seq<Frame>)
    requires SameShape(a, b) && SameShape(b, c)
    ensures SameShape(a, c)
  {
  }

  // ---- Expressions ----

  ghost predicate Stays(p: Place, env: Env, r: Evaluation) {
    if r.Fail? then !r.error.Parts? else SameShape(env.frames, r.env.frames) && Fits(p, r.env)
  }

  lemma StaysHere(p: Place, env: Env, v: Value)
    requires Fits(p, env)
    ensures Stays(p, env, Val(v, env))
  {
  }

  lemma StaysOn(p: Place, env: Env, mid: Env, r: Evaluation)
    requires SameShape(env.frames, mid.frames) && Stays(p, mid, r)
    ensures Stays(p, env, r)
  {
    hide Fits;
    if r.Val? {
      ShapeTwice(env.frames, mid.frames, r.env.frames);
    }
  }

  lemma StoreStays(p: Place, env: Env, x: Name, v: Value)
    requires Fits(p, env) && Storable(p, x)
    ensures Stays(p, env, AssignVar(Both, env, x, v))
  {
    var k := Holder(env.frames, x);
    assert ReadyAt(env.frames, x);
    assert StoreParting(env, x).None?;
    if k > 0 {
      var r := StoreAt(env, k, x, v);
      StoredShape(env, k, x, v);
      ShapeFits(p, env.frames, r.env.frames);
    } else {
      assert SameShape(env.frames, env.frames);
    }
    hide FramesFit, SameShape, Holder;
  }

  lemma StoredShape(env: Env, k: nat, x: Name, v: Value)
    requires 0 < k <= |env.frames| && x in env.frames[k - 1]
    ensures SameShape(env.frames, StoreAt(env, k, x, v).env.frames)
  {
  }

  lemma {:induction false} NumericValue(nm: Numerics, bk: Backend, e: Expr, env: Env)
    requires Numeric(e)
    ensures var r := Eval(nm, bk, e, env);
            r.Val? ==> r.value.Number?
    decreases e, 1
  {
    match e
    case Lit(_) =>
    case Grouping(inner) => NumericValue(nm, bk, inner, env);
    case Unary(op, operand) =>
      if op.Minus? {
        NumericValue(nm, bk, operand, env);
      }
    case Binary(_, _, _) => NumericBinary(nm, bk, e, env);
    case Conditional(c, t, f) =>
      var r := Eval(nm, bk, c, env);
      if r.Val? {
        NumericValue(nm, bk, if IsTruthy(nm, r.value) then t else f, r.env);
      }
  }

  lemma {:induction false} NumericBinary(nm: Numerics, bk: Backend, e: Expr, env: Env)
    requires Numeric(e) && e.Binary?
    ensures var r := Eval(nm, bk, e, env);
            r.Val? ==> r.value.Number?
    decreases e, 0
  {
    hide AbstractEq, Compare, AddValues, AssignVar, Eval, FinishBinary;
    BinaryUnfold(nm, bk, e, env);
    var a := Eval(nm, bk, e.lhs, env);
    if a.Val? {
      var b := Eval(nm, bk, e.rhs, a.env);
      if b.Val? {
        if WantsBoth(e.op) {
          NumericValue(nm, bk, e.lhs, env);
          NumericValue(nm, bk, e.rhs, a.env);
        }
        NumericFinish(nm, bk, e.op, e.lhs, a.value, b.value, b.env);
      }
    }
  }

  lemma BinaryUnfold(nm: Numerics, bk: Backend, e: Expr, env: Env)
    requires e.Binary? && !e.op.Assign?
    ensures var r := Eval(nm, bk, e.lhs, env);
            Eval(nm, bk, e, env)
            == match r
               case Fail(err, g) => Fail(err, g)
               case Val(a, env1) =>
                 if ShortCircuits(nm, e.op, a) then Val(a, env1)
                 else
                   match Eval(nm, bk, e.rhs, env1)
                   case Fail(err, g) => Fail(err, g)
                   case Val(b, env2) => FinishBinary(nm, bk, e.op, e.lhs, a, b, env2)
  {
    hide FinishBinary, ShortCircuits, AssignVar;
  }

  lemma NumericFinish(nm: Numerics, bk: Backend, op: BinaryOp, lhs: Expr, a: Value, b: Value, env: Env)
    requires CompoundBase(op).None? && VmForm(op).Some?
    requires op.BitAnd? || op.BitOr? || op.BitXor? || op.LeftShift? || op.RightShift? || op.UnsignedRightShift?
             || (WantsBoth(op) && a.Number? && b.Number?)
    ensures var r := FinishBinary(nm, bk, op, lhs, a, b, env);
            r.Val? ==> r.value.Number?
  {
    hide AbstractEq, Compare, AddValues, AssignVar;
  }

  /** A step of an operator, on operands it is even on. */
  lemma OperatorEven(nm: Numerics, op: BinaryOp, a: Value, b: Value)
    requires VmForm(op).Some? && (WantsBoth(op) ==> a.Number? && b.Number?)
    ensures var r := Operate(nm, Both, op, a, b);
            r.Some? && (r.value.Err? ==> !r.value.error.Parts?)
  {
    hide ApplyBinary;
    OperatorError(nm, VmForm(op).value, a, b);
  }

  lemma CompoundUnfold(nm: Numerics, op: BinaryOp, lhs: Expr, a: Value, b: Value, env: Env,
                       v: Result<Value, RuntimeError>)
    requires CompoundBase(op).Some? && Operate(nm, Both, CompoundBase(op).value, a, b) == Some(v)
    ensures FinishBinary(nm, Both, op, lhs, a, b, env)
         == if v.Err? then Fail(v.error, env.globals)
            else if lhs.Identifier? then AssignVar(Both, env, lhs.name, v.value)
            else Val(v.value, env)
  {
    hide AssignVar, Operate;
  }

  lemma CompoundStays(nm: Numerics, p: Place, op: BinaryOp, lhs: Expr, a: Value, b: Value, env: Env)
    requires Fits(p, env) && CompoundBase(op).Some? && (lhs.Identifier? ==> Storable(p, lhs.name))
    requires WantsBoth(op) ==> a.Number? && b.Number?
    ensures Stays(p, env, FinishBinary(nm, Both, op, lhs, a, b, env))
  {
    hide AssignVar, Operate, Fits, SameShape, Storable, FinishBinary;
    OperatorEven(nm, CompoundBase(op).value, a, b);
    var r := Operate(nm, Both, CompoundBase(op).value, a, b).value;
    CompoundUnfold(nm, op, lhs, a, b, env, r);
    if r.Ok? {
      StaysHere(p, env, r.value);
      if lhs.Identifier? {
        StoreStays(p, env, lhs.name, r.value);
      }
    }
  }

  lemma FinishStays(nm: Numerics, p: Place, op: BinaryOp, lhs: Expr, a: Value, b: Value, env: Env)
    requires Fits(p, env) && !op.Assign? && (StoresTo(op) && lhs.Identifier? ==> Storable(p, lhs.name))
    requires WantsBoth(op) ==> a.Number? && b.Number?
    ensures Stays(p, env, FinishBinary(nm, Both, op, lhs, a, b, env))
  {
    hide AssignVar, Operate, Fits, SameShape;
    StaysHere(p, env, b);
    StaysHere(p, env, Undefined);
    if op.AndAssign? || op.OrAssign? || op.NullishAssign? {
      if lhs.Identifier? {
        StoreStays(p, env, lhs.name, b);
      }
    } else if CompoundBase(op).Some? {
      CompoundStays(nm, p, op, lhs, a, b, env);
    } else if VmForm(op).Some? {
      OperatorEven(nm, op, a, b);
      var r := Operate(nm, Both, op, a, b).value;
      if r.Ok? {
        StaysHere(p, env, r.value);
      }
    } else {
      OperateNothing(nm, Both, op, a, b);
    }
  }

  lemma UnaryEven(nm: Numerics, op: UnaryOp, v: Value)
    requires op.BitwiseNot? ==> v.Number?
    ensures var r := UnaryResult(nm, Both, op, v);
            r.Err? ==> !r.error.Parts?
  {
  }

  lemma {:induction false} ExprStays(nm: Numerics, p: Place, e: Expr, env: Env)
    requires ExprEven(nm, p, e) && Fits(p, env)
    ensures Stays(p, env, Eval(nm, Both, e, env))
    decreases e, 1
  {
    hide AssignVar, Fits, SameShape, UnaryResult;
    match e
    case Identifier(x) => ReadStays(p, env, x);
    case Lit(l) => StaysHere(p, env, LiteralValue(nm, l));
    case Grouping(inner) => ExprStays(nm, p, inner, env);
    case Unary(_, _) => UnaryStays(nm, p, e, env);
    case Binary(_, _, _) => BinaryStays(nm, p, e, env);
    case Assignment(x, value) =>
      ExprStays(nm, p, value, env);
      var r := Eval(nm, Both, value, env);
      if r.Val? {
        StoreStays(p, r.env, x, r.value);
        StaysOn(p, env, r.env, AssignVar(Both, r.env, x, r.value));
      }
    case Postfix(_, _) => StaysHere(p, env, Undefined);
    case Conditional(c, t, f) =>
      ExprStays(nm, p, c, env);
      var r := Eval(nm, Both, c, env);
      if r.Val? {
        var next := if IsTruthy(nm, r.value) then t else f;
        ExprStays(nm, p, next, r.env);
        StaysOn(p, env, r.env, Eval(nm, Both, next, r.env));
      }
  }

  lemma ReadStays(p: Place, env: Env, x: Name)
    requires Fits(p, env)
    ensures Stays(p, env, ReadVar(env, x))
  {
    hide Fits;
    StaysHere(p, env, Undefined);
  }

  lemma {:induction false} UnaryStays(nm: Numerics, p: Place, e: Expr, env: Env)
    requires ExprEven(nm, p, e) && Fits(p, env) && e.Unary?
    ensures Stays(p, env, Eval(nm, Both, e, env))
    decreases e, 0
  {
    hide Fits, SameShape, UnaryResult;
    ExprStays(nm, p, e.operand, env);
    var r := Eval(nm, Both, e.operand, env);
    if r.Val? {
      if e.uop.BitwiseNot? {
        NumericValue(nm, Both, e.operand, env);
      }
      UnaryEven(nm, e.uop, r.value);
      var u := UnaryResult(nm, Both, e.uop, r.value);
      if u.Ok? {
        StaysHere(p, r.env, u.value);
        StaysOn(p, env, r.env, Val(u.value, r.env));
      }
    }
  }

  lemma {:induction false} BinaryStays(nm: Numerics, p: Place, e: Expr, env: Env)
    requires ExprEven(nm, p, e) && Fits(p, env) && e.Binary?
    ensures Stays(p, env, Eval(nm, Both, e, env))
    decreases e, 0
  {
    hide AssignVar, Fits, SameShape, FinishBinary, ShortCircuits;
    if e.op.Assign? {
      ExprStays(nm, p, e.rhs, env);
      var r := Eval(nm, Both, e.rhs, env);
      if r.Val? && e.lhs.Identifier? {
        StoreStays(p, r.env, e.lhs.name, r.value);
        StaysOn(p, env, r.env, AssignVar(Both, r.env, e.lhs.name, r.value));
      }
    } else {
      ExprStays(nm, p, e.lhs, env);
      var a := Eval(nm, Both, e.lhs, env);
      if a.Val? && !ShortCircuits(nm, e.op, a.value) {
        ExprStays(nm, p, e.rhs, a.env);
        var b := Eval(nm, Both, e.rhs, a.env);
        StaysOn(p, env, a.env, b);
        if b.Val? {
          if WantsBoth(e.op) {
            NumericValue(nm, Both, e.lhs, env);
            NumericValue(nm, Both, e.rhs, a.env);
          }
          FinishStays(nm, p, e.op, e.lhs, a.value, b.value, b.env);
          StaysOn(p, env, b.env, FinishBinary(nm, Both, e.op, e.lhs, a.value, b.value, b.env));
        }
      }
    }
  }

  // ---- Statements ----

  /** All frames but the innermost keep their shape. */
  ghost predicate Below(a: Env, b: Env) {
    |a.frames| == |b.frames| && (a.frames != [] ==> SameShape(a.frames[..|a.frames| - 1], b.frames[..|b.frames| - 1]))
  }

  /** The statement goes on at `behind` if it ends normally, and no label without a loop catches its `continue`. */
  ghost predicate Settled(p: Place, behind: Place, env: Env, o: Outcome) {
    if o.Failed? then !o.error.Parts?
    else if o.OutOfFuel? || o.Returned? then true
    else
      && Below(env, o.env) && Fits(if o.Normal? then behind else p, o.env)
      && (o.Continued? && o.target.Some? ==> o.target.value !in p.tags)
  }

  lemma BelowTwice(a: Env, b: Env, c: Env)
    requires Below(a, b) && Below(b, c)
    ensures Below(a, c)
  {
  }

  lemma ShapeBelow(a: Env, b: Env)
    requires SameShape(a.frames, b.frames)
    ensures Below(a, b)
  {
  }

  lemma FitsLess(p: Place, q: Place, env: Env)
    requires Fits(p, env) && q.fixed == p.fixed && p.unready <= q.unready
    ensures Fits(q, env)
  {
  }

  /** What follows a part that ended in `mid`, with more known than at the start. */
  lemma SettledOn(p: Place, behind: Place, env: Env, q: Place, mid: Env, o: Outcome)
    requires Below(env, mid) && q.fixed == p.fixed && q.unready <= p.unready && p.tags <= q.tags
    requires Settled(q, q, mid, o) && behind == p
    ensures Settled(p, behind, env, o)
  {
    hide Fits, Below;
    if !o.Failed? && !o.OutOfFuel? && !o.Returned? {
      BelowTwice(env, mid, o.env);
      FitsLess(q, p, o.env);
    }
  }

  lemma {:induction false} StmtStays(nm: Numerics, p: Place, s: Stmt, tag: Option<Name>, env: Env, fuel: nat)
    requires StmtEven(nm, p, s) && Fits(p, env)
    ensures Settled(p, Behind(p, s), env, Exec(nm, Both, s, tag, env, fuel))
    decreases fuel, s, 2
  {
    hide Eval, DeclareVar, ExecBlock, ExecFor, Select, Fits, Below, BlockEven, ExprEven;
    ShapeBelowSelf(env);
    match s
    case VarDecl(_, _, _) => DeclarationStays(nm, p, s, tag, env, fuel);
    case ExprStmt(e) => EvaluatedStays(nm, p, e, env);
    case BlockStmt(block) => BlockStays(nm, p, block, env, fuel);
    case Empty =>
    case If(_, _, _) => IfStays(nm, p, s, tag, env, fuel);
    case While(_, _) => WhileStays(nm, p, s, tag, env, fuel);
    case DoWhile(_, _) => DoWhileStays(nm, p, s, tag, env, fuel);
    case For(_, _, _, _) => ForStays(nm, p, s, tag, env, fuel);
    case Switch(_, _, _) => SwitchStays(nm, p, s, tag, env, fuel);
    case Labeled(_, _) => LabeledStays(nm, p, s, tag, env, fuel);
    case Break(_) =>
    case Continue(_) =>
    case Return(v) =>
      if v.Some? {
        EvaluatedStays(nm, p, v.value, env);
      }
    case Throw(e) => EvaluatedStays(nm, p, e, env);
  }

  lemma ShapeBelowSelf(env: Env)
    ensures Below(env, env)
  {
  }

  lemma EvaluatedStays(nm: Numerics, p: Place, e: Expr, env: Env)
    requires ExprEven(nm, p, e) && Fits(p, env)
    ensures var r := Eval(nm, Both, e, env);
            if r.Fail? then !r.error.Parts? else Below(env, r.env) && Fits(p, r.env)
  {
    hide Eval, Fits, SameShape, ExprEven, Below;
    ExprStays(nm, p, e, env);
    var r := Eval(nm, Both, e, env);
    if r.Val? {
      ShapeBelow(env, r.env);
    }
  }

  lemma DeclarationStays(nm: Numerics, p: Place, s: Stmt, tag: Option<Name>, env: Env, fuel: nat)
    requires StmtEven(nm, p, s) && Fits(p, env) && s.VarDecl?
    ensures Settled(p, Behind(p, s), env, Exec(nm, Both, s, tag, env, fuel))
  {
    EvaluatedStays(nm, p, s.init, env);
    var r := Eval(nm, Both, s.init, env);
    hide Eval, ExprEven;
    if r.Val? {
      assert WasConst(r.env, s.name) ==> s.name in p.fixed;
      DeclaredFits(p, r.env, s.name, r.value, s.isConst);
      hide Fits, DeclareVar, Below;
      BelowTwice(env, r.env, DeclareVar(Both, r.env, s.name, r.value, s.isConst));
    }
  }

  lemma DeclaredFits(p: Place, env: Env, x: Name, v: Value, isConst: bool)
    requires Fits(p, env) && (isConst <==> x in p.fixed)
    ensures var e := DeclareVar(Both, env, x, v, isConst);
            Below(env, e) && Fits(p.(unready := p.unready - {x}), e)
  {
    var e := DeclareVar(Both, env, x, v, isConst);
    if env.frames == [] {
      assert e.frames == [];
    } else {
      var top := |env.frames| - 1;
      assert e.frames[..top] == env.frames[..top];
      forall y
        ensures ReadyAt(e.frames, y) || y in p.unready - {x}
      {
        assert ReadyAt(env.frames, y) || y in p.unready;
        assert y in e.frames[top] <==> y in env.frames[top] || y == x;
      }
    }
  }

  lemma {:induction false} IfStays(nm: Numerics, p: Place, s: Stmt, tag: Option<Name>, env: Env, fuel: nat)
    requires StmtEven(nm, p, s) && Fits(p, env) && s.If?
    ensures Settled(p, p, env, Exec(nm, Both, s, tag, env, fuel))
    decreases fuel, s, 1
  {
    hide Eval, Fits, Below, ExprEven, Settled;
    EvaluatedStays(nm, p, s.condition, env);
    var r := Eval(nm, Both, s.condition, env);
    if r.Fail? {
      FailedSettled(p, env, r.error, r.globals);
    } else if IsTruthy(nm, r.value) {
      StmtStays(nm, p, s.thenBranch, None, r.env, fuel);
      BranchSettled(p, s.thenBranch, env, r.env, Exec(nm, Both, s.thenBranch, None, r.env, fuel));
    } else if s.elseBranch.Some? {
      StmtStays(nm, p, s.elseBranch.value, None, r.env, fuel);
      BranchSettled(p, s.elseBranch.value, env, r.env, Exec(nm, Both, s.elseBranch.value, None, r.env, fuel));
    } else {
      NormalSettled(p, env, r.env);
    }
  }

  lemma FailedSettled(p: Place, env: Env, e: RuntimeError, g: Globals)
    requires !e.Parts?
    ensures Settled(p, p, env, Failed(e, g))
  {
  }

  lemma NormalSettled(p: Place, env: Env, mid: Env)
    requires Below(env, mid) && Fits(p, mid)
    ensures Settled(p, p, env, Normal(mid))
  {
  }

  /** What is declared in a branch is not counted on behind it. */
  lemma BranchSettled(p: Place, s: Stmt, env: Env, mid: Env, o: Outcome)
    requires Below(env, mid) && Settled(p, Behind(p, s), mid, o)
    ensures Settled(p, p, env, o)
  {
    hide Fits, Below;
    if !o.Failed? && !o.OutOfFuel? && !o.Returned? {
      BelowTwice(env, mid, o.env);
      if o.Normal? {
        FitsLess(Behind(p, s), p, o.env);
      }
    }
  }

  /** The end of a loop's body: what stops the loop settles it, and what goes on fits. */
  lemma BodyEnds(p: Place, env: Env, tag: Option<Name>, o: Outcome)
    requires Settled(p, p, env, o)
    ensures match AfterBody(o, tag)
            case Again(mid) => Below(env, mid) && Fits(p, mid)
            case Stop(o') => Settled(p, p, env, o')
  {
    hide Fits, Below;
  }

  lemma {:induction false} WhileStays(nm: Numerics, p: Place, s: Stmt, tag: Option<Name>, env: Env, fuel: nat)
    requires StmtEven(nm, p, s) && Fits(p, env) && s.While?
    ensures Settled(p, p, env, Exec(nm, Both, s, tag, env, fuel))
    decreases fuel, s, 1
  {
    if fuel > 0 {
      hide Eval, Fits, Below, ExprEven, Settled, AfterBody;
      EvaluatedStays(nm, p, s.condition, env);
      var r := Eval(nm, Both, s.condition, env);
      if r.Fail? {
        FailedSettled(p, env, r.error, r.globals);
      } else if !IsTruthy(nm, r.value) {
        NormalSettled(p, env, r.env);
      } else {
        StmtStays(nm, p, s.body, None, r.env, fuel);
        var o := Exec(nm, Both, s.body, None, r.env, fuel);
        BranchSettled(p, s.body, env, r.env, o);
        BodyEnds(p, env, tag, o);
        var again := AfterBody(o, tag);
        if again.Again? {
          WhileStays(nm, p, s, tag, again.env, fuel - 1);
          SettledOn(p, p, env, p, again.env, Exec(nm, Both, s, tag, again.env, fuel - 1));
        }
      }
    }
  }

  lemma {:induction false} DoWhileStays(nm: Numerics, p: Place, s: Stmt, tag: Option<Name>, env: Env, fuel: nat)
    requires StmtEven(nm, p, s) && Fits(p, env) && s.DoWhile?
    ensures Settled(p, p, env, Exec(nm, Both, s, tag, env, fuel))
    decreases fuel, s, 1
  {
    if fuel > 0 {
      hide Eval, Fits, Below, ExprEven, Settled, AfterBody;
      StmtStays(nm, p, s.body, None, env, fuel);
      var o := Exec(nm, Both, s.body, None, env, fuel);
      ShapeBelowSelf(env);
      BranchSettled(p, s.body, env, env, o);
      BodyEnds(p, env, tag, o);
      var again := AfterBody(o, tag);
      if again.Again? {
        EvaluatedStays(nm, p, s.condition, again.env);
        var r := Eval(nm, Both, s.condition, again.env);
        if r.Fail? {
          FailedSettled(p, env, r.error, r.globals);
        } else {
          BelowTwice(env, again.env, r.env);
          if IsTruthy(nm, r.value) {
            DoWhileStays(nm, p, s, tag, r.env, fuel - 1);
            SettledOn(p, p, env, p, r.env, Exec(nm, Both, s, tag, r.env, fuel - 1));
          } else {
            NormalSettled(p, env, r.env);
          }
        }
      }
    }
  }

  // ---- Scopes ----

  lemma ScopeEntered(p: Place, env: Env, names: set<Name>)
    requires Fits(p, env)
    ensures var inner := env.(frames := env.frames + [UnreadyCells(names)]);
            Fits(p.(unready := p.unready + names), inner)
  {
    var inner := env.(frames := env.frames + [UnreadyCells(names)]);
    assert inner.frames[..|env.frames|] == env.frames;
    forall x
      ensures ReadyAt(inner.frames, x) || x in p.unready + names
    {
      assert ReadyAt(env.frames, x) || x in p.unready;
    }
  }

  lemma EmptyScope(env: Env)
    ensures EnterScope(env) == env.(frames := env.frames + [UnreadyCells({})])
  {
    assert UnreadyCells({}) == map[];
  }

  /** Leaving a scope restores what was known around it. */
  lemma ScopeLeft(p: Place, q: Place, behind: Place, env: Env, frame: Frame, o: Outcome)
    requires Fits(p, env) && Settled(q, behind, env.(frames := env.frames + [frame]), o)
    requires q.fixed == p.fixed && behind.fixed == p.fixed && p.tags <= q.tags
    ensures Settled(p, p, env, LeaveScope(o))
  {
    if !o.Failed? && !o.OutOfFuel? && !o.Returned? {
      var inner := env.(frames := env.frames + [frame]);
      var n := |env.frames|;
      assert inner.frames[..n] == env.frames;
      assert SameShape(env.frames, o.env.frames[..n]);
      ShapeFits(p, env.frames, o.env.frames[..n]);
      ShapeBelow(env, LeaveEnv(o.env));
    }
  }

  lemma {:induction false} BlockStays(nm: Numerics, p: Place, block: Block, env: Env, fuel: nat)
    requires BlockEven(nm, p, block) && Fits(p, env)
    ensures Settled(p, p, env, ExecBlock(nm, Both, block, env, fuel))
    decreases fuel, block, 1
  {
    hide ExecList, Fits, Settled, LeaveScope, ListEven, UnreadyCells;
    var names := DeclaredNames(block.stmts);
    ScopeEntered(p, env, names);
    ListStays(nm, Inside(p, block), block.stmts, EnterBlock(env, block.stmts), fuel);
    ScopeLeft(p, Inside(p, block), Inside(p, block), env, UnreadyCells(names),
              ExecList(nm, Both, block.stmts, EnterBlock(env, block.stmts), fuel));
  }

  lemma {:induction false} ListStays(nm: Numerics, p: Place, stmts: seq<Stmt>, env: Env, fuel: nat)
    requires ListEven(nm, p, stmts) && Fits(p, env)
    ensures Settled(p, p, env, ExecList(nm, Both, stmts, env, fuel))
    decreases fuel, stmts, 0
  {
    ShapeBelowSelf(env);
    if stmts != [] {
      hide Fits, Below, Exec, StmtEven;
      var q := Behind(p, stmts[0]);
      StmtStays(nm, p, stmts[0], None, env, fuel);
      var o := Exec(nm, Both, stmts[0], None, env, fuel);
      if o.Normal? {
        ListStays(nm, q, stmts[1..], o.env, fuel);
        SettledOn(p, p, env, q, o.env, ExecList(nm, Both, stmts[1..], o.env, fuel));
      }
    }
  }

  lemma {:induction false} ForStays(nm: Numerics, p: Place, s: Stmt, tag: Option<Name>, env: Env, fuel: nat)
    requires StmtEven(nm, p, s) && Fits(p, env) && s.For?
    ensures Settled(p, p, env, Exec(nm, Both, s, tag, env, fuel))
    decreases fuel, s, 1
  {
    hide Fits, Settled, LeaveScope, ExprEven, ExecFor, UnreadyCells, Below;
    EmptyScope(env);
    ScopeEntered(p, env, {});
    assert p.(unready := p.unready + {}) == p;
    var env0 := EnterScope(env);
    var q := if s.forInit.Some? then Behind(p, s.forInit.value) else p;
    var o := if s.forInit.Some? then Exec(nm, Both, s.forInit.value, None, env0, fuel) else Normal(env0);
    if s.forInit.Some? {
      StmtStays(nm, p, s.forInit.value, None, env0, fuel);
    } else {
      ShapeBelowSelf(env0);
      NormalSettled(p, env0, env0);
    }
    if o.Normal? {
      NormalFits(p, q, env0, o);
      ForLoopStays(nm, q, s.forCondition, s.update, s.body, tag, o.env, fuel);
      var f := ExecFor(nm, Both, s.forCondition, s.update, s.body, tag, o.env, fuel);
      SettledOn(p, p, env0, q, o.env, f);
      ScopeLeft(p, p, p, env, UnreadyCells({}), f);
    } else {
      ScopeLeft(p, p, q, env, UnreadyCells({}), o);
    }
  }

  lemma NormalFits(p: Place, q: Place, env: Env, o: Outcome)
    requires Settled(p, q, env, o) && o.Normal?
    ensures Below(env, o.env) && Fits(q, o.env)
  {
  }

  lemma {:induction false} ForLoopStays(nm: Numerics, p: Place, c: Option<Expr>, u: Option<Expr>, body: Stmt,
                                        tag: Option<Name>, env: Env, fuel: nat)
    requires OptionEven(nm, p, c) && OptionEven(nm, p, u) && StmtEven(nm, p, body) && Fits(p, env)
    ensures Settled(p, p, env, ExecFor(nm, Both, c, u, body, tag, env, fuel))
    decreases fuel, body, 3
  {
    if fuel > 0 {
      hide Fits, Settled, Below, AfterBody, Exec, StmtEven, OptionEven, Optional;
      ForLoopUnfold(nm, c, u, body, tag, env, fuel);
      OptionStays(nm, p, c, Bool(true), env);
      var r := Optional(nm, Both, c, Bool(true), env);
      if r.Fail? {
        FailedSettled(p, env, r.error, r.globals);
      } else if !IsTruthy(nm, r.value) {
        NormalSettled(p, env, r.env);
      } else {
        StmtStays(nm, p, body, None, r.env, fuel);
        var o := Exec(nm, Both, body, None, r.env, fuel);
        BranchSettled(p, body, env, r.env, o);
        BodyEnds(p, env, tag, o);
        var again := AfterBody(o, tag);
        if again.Again? {
          UpdateStays(nm, p, c, u, body, tag, env, again.env, fuel);
        }
      }
    }
  }

  lemma {:induction false} UpdateStays(nm: Numerics, p: Place, c: Option<Expr>, u: Option<Expr>, body: Stmt,
                                       tag: Option<Name>, env: Env, mid: Env, fuel: nat)
    requires OptionEven(nm, p, c) && OptionEven(nm, p, u) && StmtEven(nm, p, body) && Fits(p, mid) && Below(env, mid)
    requires fuel > 0
    ensures var r := Optional(nm, Both, u, Undefined, mid);
            Settled(p, p, env, if r.Fail? then Failed(r.error, r.globals)
                               else ExecFor(nm, Both, c, u, body, tag, r.env, fuel - 1))
    decreases fuel, body, 1
  {
    hide Fits, Settled, Below, ExecFor, StmtEven, OptionEven, Optional;
    OptionStays(nm, p, u, Undefined, mid);
    var r := Optional(nm, Both, u, Undefined, mid);
    if r.Fail? {
      FailedSettled(p, env, r.error, r.globals);
    } else {
      BelowTwice(env, mid, r.env);
      ForLoopStays(nm, p, c, u, body, tag, r.env, fuel - 1);
      SettledOn(p, p, env, p, r.env, ExecFor(nm, Both, c, u, body, tag, r.env, fuel - 1));
    }
  }

  lemma ForLoopUnfold(nm: Numerics, c: Option<Expr>, u: Option<Expr>, body: Stmt, tag: Option<Name>, env: Env,
                      fuel: nat)
    requires fuel > 0
    ensures var r := Optional(nm, Both, c, Bool(true), env);
            ExecFor(nm, Both, c, u, body, tag, env, fuel)
            == if r.Fail? then Failed(r.error, r.globals)
               else if !IsTruthy(nm, r.value) then Normal(r.env)
               else
                 var again := AfterBody(Exec(nm, Both, body, None, r.env, fuel), tag);
                 if again.Stop? then again.outcome
                 else
                   var r2 := Optional(nm, Both, u, Undefined, again.env);
                   if r2.Fail? then Failed(r2.error, r2.globals)
                   else ExecFor(nm, Both, c, u, body, tag, r2.env, fuel - 1)
  {
    hide Eval, Exec, AfterBody;
  }

  lemma OptionStays(nm: Numerics, p: Place, e: Option<Expr>, otherwise: Value, env: Env)
    requires OptionEven(nm, p, e) && Fits(p, env)
    ensures var r := Optional(nm, Both, e, otherwise, env);
            if r.Fail? then !r.error.Parts? else Below(env, r.env) && Fits(p, r.env)
  {
    hide Eval, Fits, Below, ExprEven;
    if e.Some? {
      EvaluatedStays(nm, p, e.value, env);
    } else {
      ShapeBelowSelf(env);
    }
  }

  // ---- Labels and switches ----

  lemma {:induction false} LabeledStays(nm: Numerics, p: Place, s: Stmt, tag: Option<Name>, env: Env, fuel: nat)
    requires StmtEven(nm, p, s) && Fits(p, env) && s.Labeled?
    ensures Settled(p, p, env, Exec(nm, Both, s, tag, env, fuel))
    decreases fuel, s, 1
  {
    hide Fits, Below, StmtEven;
    ShapeBelowSelf(env);
    LabelUnfold(nm, p, s);
    if IsLoop(s.body) {
      StmtStays(nm, p, s.body, Some(s.tag), env, fuel);
      BranchSettled(p, s.body, env, env, Exec(nm, Both, s.body, Some(s.tag), env, fuel));
    } else {
      var q := p.(tags := p.tags + {s.tag});
      TagsFit(p, q, env);
      StmtStays(nm, q, s.body, None, env, fuel);
      var o := Exec(nm, Both, s.body, None, env, fuel);
      BranchSettled(q, s.body, env, env, o);
      if o.Normal? || o.Broke? || o.Continued? {
        TagsFit(q, p, o.env);
      }
    }
  }

  lemma LabelUnfold(nm: Numerics, p: Place, s: Stmt)
    requires StmtEven(nm, p, s) && s.Labeled?
    ensures StmtEven(nm, if IsLoop(s.body) then p else p.(tags := p.tags + {s.tag}), s.body)
  {
  }

  lemma TagsFit(p: Place, q: Place, env: Env)
    requires Fits(p, env) && q.fixed == p.fixed && q.unready == p.unready
    ensures Fits(q, env)
  {
  }

  lemma {:induction false} SelectStays(nm: Numerics, p: Place, v: Value, cases: seq<SwitchCase>, i: nat, env: Env)
    requires i <= |cases| && (forall k :: 0 <= k < |cases| ==> CaseEven(nm, p, cases[k])) && Fits(p, env)
    ensures var r := Select(nm, Both, v, cases, i, env);
            if r.Raised? then !r.error.Parts? else Below(env, r.env) && Fits(p, r.env)
    decreases |cases| - i
  {
    hide Eval, StrictEq, Fits, Below, ExprEven, BlockEven;
    ShapeBelowSelf(env);
    if i < |cases| {
      assert CaseEven(nm, p, cases[i]);
      EvaluatedStays(nm, p, cases[i].value, env);
      var r := Eval(nm, Both, cases[i].value, env);
      if r.Val? && !StrictEq(nm, v, r.value) {
        SelectStays(nm, p, v, cases, i + 1, r.env);
        var more := Select(nm, Both, v, cases, i + 1, r.env);
        if !more.Raised? {
          BelowTwice(env, r.env, more.env);
        }
      }
    }
  }

  lemma {:induction false} SwitchStays(nm: Numerics, p: Place, s: Stmt, tag: Option<Name>, env: Env, fuel: nat)
    requires StmtEven(nm, p, s) && Fits(p, env) && s.Switch?
    ensures Settled(p, p, env, Exec(nm, Both, s, tag, env, fuel))
    decreases fuel, s, 1
  {
    hide Eval, Select, ExecBlock, Fits, Below, ExprEven, BlockEven, Settled, LeaveScope, UnreadyCells;
    EvaluatedStays(nm, p, s.scrutinee, env);
    var r := Eval(nm, Both, s.scrutinee, env);
    if r.Fail? {
      FailedSettled(p, env, r.error, r.globals);
    } else {
      var env1 := EnterScope(r.env);
      EmptyScope(r.env);
      ScopeEntered(p, r.env, {});
      assert p.(unready := p.unready + {}) == p;
      SelectStays(nm, p, r.value, s.cases, 0, env1);
      var choice := Select(nm, Both, r.value, s.cases, 0, env1);
      if choice.Raised? {
        FailedSettled(p, env1, choice.error, choice.globals);
      } else if choice.Chosen? {
        assert CaseEven(nm, p, s.cases[choice.index]);
        BlockStays(nm, p, s.cases[choice.index].body, choice.env, fuel);
        SettledOn(p, p, env1, p, choice.env, ExecBlock(nm, Both, s.cases[choice.index].body, choice.env, fuel));
      } else if s.defaultBlock.Some? {
        BlockStays(nm, p, s.defaultBlock.value, choice.env, fuel);
        SettledOn(p, p, env1, p, choice.env, ExecBlock(nm, Both, s.defaultBlock.value, choice.env, fuel));
      } else {
        NormalSettled(p, env1, choice.env);
      }
      var o := Chosen(nm, s, choice, fuel);
      assert Settled(p, p, env1, o);
      ScopeLeft(p, p, p, r.env, UnreadyCells({}), o);
      ShapeBelowSelf(r.env);
      SettledOn(p, p, env, p, r.env, LeaveScope(o));
    }
  }

  /** What a `switch` does once a case is selected. */
  function Chosen(nm: Numerics, s: Stmt, choice: Selection, fuel: nat): Outcome
    requires s.Switch? && (choice.Chosen? ==> choice.index < |s.cases|)
  {
    match choice
    case Raised(err, g) => Failed(err, g)
    case Chosen(i, env) => ExecBlock(nm, Both, s.cases[i].body, env, fuel)
    case NoMatch(env) =>
      if s.defaultBlock.None? then Normal(env) else ExecBlock(nm, Both, s.defaultBlock.value, env, fuel)
  }

  // ---- Whole scripts ----

  /** No run of an even script comes to a parting step. */
  lemma EvenNeverParts(nm: Numerics, items: seq<Stmt>, g: Globals, fixed: set<Name>)
    requires Even(nm, items, fixed) && GlobalsFit(fixed, g)
    ensures NeverParts(nm, items, g)
  {
    hide ListEven, ExecList;
    forall fuel: nat
      ensures PartsAt(nm, items, g, fuel).None?
    {
      ListStays(nm, Place(fixed, {}, {}), items, Env([], g), fuel);
    }
  }

  /** The interpreter and compiled code agree on every run of an even script: same result, same error, same globals,
      after any number of loop iterations. */
  lemma EvenBackendsAgree(nm: Numerics, items: seq<Stmt>, g: Globals, fixed: set<Name>, fuel: nat)
    requires Even(nm, items, fixed) && GlobalsFit(fixed, g)
    ensures ScriptEnding(nm, Walking, items, g, fuel) == ScriptEnding(nm, Compiled, items, g, fuel)
  {
    hide *;
    EvenNeverParts(nm, items, g, fixed);
    NeverMeans(nm, items, g, fuel);
    BackendsAgree(nm, items, g, fuel);
  }

  lemma NeverMeans(nm: Numerics, items: seq<Stmt>, g: Globals, fuel: nat)
    requires NeverParts(nm, items, g)
    ensures PartsAt(nm, items, g, fuel).None?
  {
    hide PartsAt;
  }

  /** The machine halts exactly when the interpreter comes to the end of the script. */
  lemma EvenHaltsIffInterpreted(nm: Numerics, items: seq<Stmt>, P: seq<Instr>, callee: Value, g: Globals,
                                fixed: set<Name>)
    requires Even(nm, items, fixed) && GlobalsFit(fixed, g) && TidyList(items, 0) && ProgramCode(nm, items) == Ok(P)
    ensures Halts(nm, P, Boot(callee, g)) <==> Terminates(nm, Walking, items, g)
  {
    hide *;
    EvenNeverParts(nm, items, g, fixed);
    HaltsIffInterpreted(nm, items, P, callee, g);
  }
}
