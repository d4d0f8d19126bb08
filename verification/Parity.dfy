/** The two backends side by side: the tree-walking interpreter and the compiled code on the virtual machine.
    Every kind of step on which they can part is compared, and any run without such a step is the same on both. */
module Parity {
  import opened Syntax
  import opened Values
  import opened Semantics
  import opened Bytecode
  import opened Codegen
  import opened Slots
  import opened StmtShape
  import opened ScriptProof

  // ---- One step ----

  lemma {:induction false} ReadyHolderMeets(frames: seq<Frame>, x: Name)
    ensures ReadyHolder(frames, x) <= Holder(frames, x)
    ensures Holder(frames, x) > 0 && frames[Holder(frames, x) - 1][x].ready ==>
              ReadyHolder(frames, x) == Holder(frames, x)
  {
  }

  lemma NoHolderNoConst(env: Env, x: Name)
    requires Holder(env.frames, x) == 0
    ensures ConstOnChain(env, x) <==> x in env.globals && env.globals[x].1
  {
  }

  /** The backends store to `x` alike exactly when no scope holds it, or its innermost cell is ready and no scope on the
      chain has it as a constant. */
  lemma StoresAlike(env: Env, x: Name)
    ensures (forall v :: AssignVar(Walking, env, x, v) == AssignVar(Compiled, env, x, v))
              <==> StoreParting(env, x).None?
  {
    ReadyHolderMeets(env.frames, x);
    if Holder(env.frames, x) == 0 {
      NoHolderNoConst(env, x);
    }
    if StoreParting(env, x).Some? {
      var held := env.frames[Holder(env.frames, x) - 1][x].value;
      var v := if held == Null then Undefined else Null;
      StoreParts(env, x, v);
    }
  }

  lemma StoreParts(env: Env, x: Name, v: Value)
    requires StoreParting(env, x).Some? && v != env.frames[Holder(env.frames, x) - 1][x].value
    ensures AssignVar(Walking, env, x, v) != AssignVar(Compiled, env, x, v)
  {
    var k := Holder(env.frames, x);
    ReadyHolderMeets(env.frames, x);
    var w, c := AssignVar(Walking, env, x, v), AssignVar(Compiled, env, x, v);
    assert c.env.frames[k - 1][x].value == v;
    if w.Val? {
      assert !env.frames[k - 1][x].ready && ReadyHolder(env.frames, x) != k;
      assert w.env.frames[k - 1] == env.frames[k - 1];
    }
  }

  /** The same told by the compiler's own bookkeeping: a store to a slot not yet marked initialized is never alike, a
      store to an initialized one only where no outer scope has the name as a constant. */
  lemma SlotStoresAlike(locals: seq<Local>, depth: nat, stack: seq<Value>, env: Env, x: Name)
    requires Mirrors(locals, depth, stack, env.frames)
    ensures var alike := ResolveLocal(locals, x).Some? ==>
                           locals[ResolveLocal(locals, x).value].initialized && !ConstOnChain(env, x);
            StoreParting(env, x).None? <==> alike
  {
    ResolveIsHolder(locals, depth, stack, env.frames, x);
    if ResolveLocal(locals, x).Some? {
      assert CellMatches(locals, stack, env.frames, locals[ResolveLocal(locals, x).value].depth - 1, x);
    }
  }

  /** Declarations are alike unless a constant of the same scope is declared again as a variable. */
  lemma DeclarationsAlike(env: Env, x: Name, v: Value, isConst: bool)
    ensures var alike := WasConst(env, x) ==> isConst;
            DeclareVar(Walking, env, x, v, isConst) == DeclareVar(Compiled, env, x, v, isConst) <==> alike
  {
    var w, c := DeclareVar(Walking, env, x, v, isConst), DeclareVar(Compiled, env, x, v, isConst);
    if env.frames == [] {
      assert w.globals[x] == (v, isConst || WasConst(env, x)) && c.globals[x] == (v, isConst);
    } else {
      var top := |env.frames| - 1;
      assert w.frames[top][x] == Cell(v, true, isConst || WasConst(env, x))
        && c.frames[top][x] == Cell(v, true, isConst);
    }
  }

  lemma TypeofAlike(nm: Numerics, x: Name, env: Env)
    ensures var e := Unary(Typeof, Identifier(x));
            Eval(nm, Walking, e, env) == Eval(nm, Compiled, e, env) <==> Holder(env.frames, x) > 0 || x in env.globals
  {
    var e := Unary(Typeof, Identifier(x));
    assert Eval(nm, Compiled, Identifier(x), env) == Eval(nm, Walking, Identifier(x), env) == ReadVar(env, x);
  }

  lemma DeleteAlike(nm: Numerics, operand: Expr, env: Env)
    ensures var e := Unary(Delete, operand);
            var r := Eval(nm, Compiled, operand, env);
            Eval(nm, Walking, e, env) == Eval(nm, Compiled, e, env) <==> r.Val? && r.env == env
  {
  }

  /** `-`, `*`, `/`, `%` and `**` are alike on two numbers and whenever a big integer is involved, and on nothing else;
      all the other operators are alike on everything. */
  lemma OperatorsAlike(nm: Numerics, op: VmBinary, a: Value, b: Value)
    ensures BinaryStep(nm, Walking, op, a, b) == BinaryStep(nm, Compiled, op, a, b) <==> !WantsNumbers(op, a, b)
  {
    hide AbstractEq, Compare, AddValues;
  }

  lemma ComplementsAlike(nm: Numerics, v: Value)
    ensures UnaryResult(nm, Walking, BitwiseNot, v) == UnaryResult(nm, Compiled, BitwiseNot, v) <==> v.Number?
  {
  }

  lemma LiteralsAlike(nm: Numerics, l: Literal, env: Env)
    ensures LiteralStep(nm, Walking, l, env) == LiteralStep(nm, Compiled, l, env) <==> !Unreadable(nm, l)
  {
  }

  /** `x++` is alike exactly when `x` is missing, or is readable, holds a number and no store to it would part. */
  predicate StepsAlike(env: Env, x: Name) {
    var k := Holder(env.frames, x);
    if k == 0 then x in env.globals ==> env.globals[x].0.Number?
    else env.frames[k - 1][x].ready && env.frames[k - 1][x].value.Number? && !ConstOnChain(env, x)
  }

  lemma PostfixAlike(nm: Numerics, op: PostfixOp, x: Name, env: Env)
    ensures var e := Postfix(op, Identifier(x));
            Eval(nm, Walking, e, env) == Eval(nm, Compiled, e, env) <==> StepsAlike(env, x)
  {
    hide Step, AssignVar;
    var e := Postfix(op, Identifier(x));
    var k := Holder(env.frames, x);
    ReadyHolderMeets(env.frames, x);
    if k > 0 && !env.frames[k - 1][x].ready {
      PostfixNeverUnready(nm, op, x, env);
    } else if k > 0 || x in env.globals {
      var v := if k > 0 then env.frames[k - 1][x].value else env.globals[x].0;
      assert ReadForStep(Walking, env, x) == ReadForStep(Compiled, env, x) == Val(v, env);
      StepAlike(nm, op, x, v, env);
    }
  }

  lemma PostfixNeverUnready(nm: Numerics, op: PostfixOp, x: Name, env: Env)
    ensures var r := Eval(nm, Walking, Postfix(op, Identifier(x)), env);
            r.Fail? ==> !r.error.ReadBeforeInit?
  {
    hide AbstractEq, Compare;
  }

  /** Once both have read the same value. */
  lemma StepAlike(nm: Numerics, op: PostfixOp, x: Name, v: Value, env: Env)
    requires var k := Holder(env.frames, x); k > 0 ==> env.frames[k - 1][x].ready
    ensures var alike := v.Number? && (Holder(env.frames, x) > 0 ==> !ConstOnChain(env, x));
            Step(nm, Walking, op, x, v, env) == Step(nm, Compiled, op, x, v, env) <==> alike
  {
    hide AssignVar, AbstractEq, Compare;
    if v.Number? {
      var after := ApplyBinary(nm, if op.Increment? then AddOp else SubOp, v, Number(nm.one)).value;
      StoresAlike(env, x);
      if Holder(env.frames, x) > 0 && ConstOnChain(env, x) {
        StoreOverConstant(env, x, after);
      } else {
        assert AssignVar(Walking, env, x, after) == AssignVar(Compiled, env, x, after);
      }
    } else {
      StepNeverAsks(nm, op, x, v, env);
    }
  }

  lemma StepNeverAsks(nm: Numerics, op: PostfixOp, x: Name, v: Value, env: Env)
    ensures var r := Step(nm, Compiled, op, x, v, env);
            r.Fail? ==> !r.error.NeedsNumber?
  {
    hide AbstractEq, Compare;
  }

  lemma StoreOverConstant(env: Env, x: Name, v: Value)
    requires Holder(env.frames, x) > 0 && ConstOnChain(env, x)
    ensures AssignVar(Walking, env, x, v).Fail? && AssignVar(Compiled, env, x, v).Val?
  {
  }

  // ---- Whole runs ----

  /** The error with which backend `bk` ends at a parting step, where it does end there. */
  function EndsAt(bk: Backend, p: Parting): Option<RuntimeError> {
    match p
    case TypeofMissing(x) => if bk.Compiled? then Some(NotDefined(x)) else None
    case StepUnready(x) => if bk.Compiled? then Some(ReadBeforeInit(x)) else None
    case BadLiteral(raw) => if bk.Walking? then Some(InvalidNumber(raw)) else None
    case OperandsOf(_) => if bk.Walking? then Some(NeedsNumbers) else None
    case ComplementOf(_) => if bk.Walking? then Some(NeedsNumber) else None
    case StepOf(_) => if bk.Walking? then Some(NeedsNumber) else None
    case StoreOverConst(x) => if bk.Walking? then Some(ConstAssignment(x)) else None
    case _ => None
  }

  /** `r` is what backend `bk` makes of a run that both together make into `both`: the same, as long as they have not
      parted; and where they have, the error of the step they part at, if `bk` ends there. */
  predicate Follows(bk: Backend, both: Evaluation, r: Evaluation) {
    if both.Fail? && both.error.Parts? then
      EndsAt(bk, both.error.step).Some? ==> r == Fail(EndsAt(bk, both.error.step).value, both.globals)
    else r == both
  }

  predicate FollowsOut(bk: Backend, both: Outcome, o: Outcome) {
    if both.Failed? && both.error.Parts? then
      EndsAt(bk, both.error.step).Some? ==> o == Failed(EndsAt(bk, both.error.step).value, both.globals)
    else o == both
  }

  lemma StoreFollows(bk: Backend, env: Env, x: Name, v: Value)
    requires !bk.Both?
    ensures Follows(bk, AssignVar(Both, env, x, v), AssignVar(bk, env, x, v))
  {
    StoresAlike(env, x);
  }

  lemma ReadFollows(bk: Backend, env: Env, x: Name)
    requires !bk.Both?
    ensures Follows(bk, ReadForStep(Both, env, x), ReadForStep(bk, env, x))
  {
    ReadyHolderMeets(env.frames, x);
  }

  lemma StepFollows(nm: Numerics, bk: Backend, op: PostfixOp, x: Name, v: Value, env: Env)
    requires !bk.Both?
    ensures Follows(bk, Step(nm, Both, op, x, v, env), Step(nm, bk, op, x, v, env))
  {
    if v.Number? {
      hide AssignVar, AbstractEq, Compare;
      var after := ApplyBinary(nm, if op.Increment? then AddOp else SubOp, v, Number(nm.one));
      StoreFollows(bk, env, x, after.value);
    }
  }

  lemma PostfixFollows(nm: Numerics, bk: Backend, e: Expr, env: Env)
    requires !bk.Both? && e.Postfix?
    ensures Follows(bk, Eval(nm, Both, e, env), Eval(nm, bk, e, env))
  {
    if e.operand.Identifier? {
      var x := e.operand.name;
      hide AssignVar, Step, ReadForStep;
      ReadFollows(bk, env, x);
      var r := ReadForStep(Both, env, x);
      if r.Val? {
        StepFollows(nm, bk, e.pop, x, r.value, r.env);
      }
    }
  }

  lemma OperateFollows(nm: Numerics, bk: Backend, op: BinaryOp, a: Value, b: Value, env: Env)
    requires !bk.Both? && VmForm(op).Some?
    ensures Operate(nm, Both, op, a, b).Some? && Operate(nm, bk, op, a, b).Some?
    ensures Follows(bk, OfResult(Operate(nm, Both, op, a, b).value, env),
                    OfResult(Operate(nm, bk, op, a, b).value, env))
  {
    hide ApplyBinary;
    var vop := VmForm(op).value;
    OperatorError(nm, vop, a, b);
  }

  lemma OperatorError(nm: Numerics, op: VmBinary, a: Value, b: Value)
    ensures ApplyBinary(nm, op, a, b).Err? ==> !ApplyBinary(nm, op, a, b).error.Parts?
  {
    hide AbstractEq, Compare, AddValues, Power;
  }

  lemma FinishFollows(nm: Numerics, bk: Backend, op: BinaryOp, lhs: Expr, a: Value, b: Value, env: Env)
    requires !bk.Both?
    ensures Follows(bk, FinishBinary(nm, Both, op, lhs, a, b, env), FinishBinary(nm, bk, op, lhs, a, b, env))
  {
    hide AssignVar, Operate;
    if op.AndAssign? || op.OrAssign? || op.NullishAssign? {
      if lhs.Identifier? {
        StoreFollows(bk, env, lhs.name, b);
      }
    } else if CompoundBase(op).Some? {
      CompoundFollows(nm, bk, op, lhs, a, b, env);
    } else if VmForm(op).Some? {
      OperateFollows(nm, bk, op, a, b, env);
    } else {
      OperateNothing(nm, bk, op, a, b);
    }
  }

  lemma CompoundFollows(nm: Numerics, bk: Backend, op: BinaryOp, lhs: Expr, a: Value, b: Value, env: Env)
    requires !bk.Both? && CompoundBase(op).Some?
    ensures Follows(bk, FinishBinary(nm, Both, op, lhs, a, b, env), FinishBinary(nm, bk, op, lhs, a, b, env))
  {
    hide AssignVar, Operate;
    var base := CompoundBase(op).value;
    OperateFollows(nm, bk, base, a, b, env);
    var r := Operate(nm, Both, base, a, b).value;
    if r.Ok? && lhs.Identifier? {
      StoreFollows(bk, env, lhs.name, r.value);
    }
  }

  lemma OperateNothing(nm: Numerics, bk: Backend, op: BinaryOp, a: Value, b: Value)
    requires VmForm(op).None?
    ensures Operate(nm, Both, op, a, b).None? && Operate(nm, bk, op, a, b).None?
  {
  }

  lemma {:induction false} BinaryFollows(nm: Numerics, bk: Backend, e: Expr, env: Env)
    requires !bk.Both? && e.Binary?
    ensures Follows(bk, Eval(nm, Both, e, env), Eval(nm, bk, e, env))
    decreases e, 0
  {
    hide AssignVar, FinishBinary, ShortCircuits;
    if e.op == Assign {
      ExprFollows(nm, bk, e.rhs, env);
      var r := Eval(nm, Both, e.rhs, env);
      if r.Val? && e.lhs.Identifier? {
        StoreFollows(bk, r.env, e.lhs.name, r.value);
      }
    } else {
      ExprFollows(nm, bk, e.lhs, env);
      var r := Eval(nm, Both, e.lhs, env);
      if r.Val? && !ShortCircuits(nm, e.op, r.value) {
        ExprFollows(nm, bk, e.rhs, r.env);
        var r2 := Eval(nm, Both, e.rhs, r.env);
        if r2.Val? {
          FinishFollows(nm, bk, e.op, e.lhs, r.value, r2.value, r2.env);
        }
      }
    }
  }

  lemma {:induction false} ExprFollows(nm: Numerics, bk: Backend, e: Expr, env: Env)
    requires !bk.Both?
    ensures Follows(bk, Eval(nm, Both, e, env), Eval(nm, bk, e, env))
    decreases e, 1
  {
    hide AssignVar;
    match e
    case Identifier(_) =>
    case Lit(_) =>
    case Grouping(inner) => ExprFollows(nm, bk, inner, env);
    case Unary(_, operand) => ExprFollows(nm, bk, operand, env);
    case Binary(_, _, _) => BinaryFollows(nm, bk, e, env);
    case Assignment(x, value) =>
      ExprFollows(nm, bk, value, env);
      var r := Eval(nm, Both, value, env);
      if r.Val? {
        StoreFollows(bk, r.env, x, r.value);
      }
    case Postfix(_, _) => PostfixFollows(nm, bk, e, env);
    case Conditional(c, t, f) =>
      ExprFollows(nm, bk, c, env);
      var r := Eval(nm, Both, c, env);
      if r.Val? {
        ExprFollows(nm, bk, if IsTruthy(nm, r.value) then t else f, r.env);
      }
  }

  lemma {:induction false} StmtFollows(nm: Numerics, bk: Backend, s: Stmt, tag: Option<Name>, env: Env, fuel: nat)
    requires !bk.Both?
    ensures FollowsOut(bk, Exec(nm, Both, s, tag, env, fuel), Exec(nm, bk, s, tag, env, fuel))
    decreases fuel, s, 1
  {
    hide Eval, DeclareVar, ExecBlock, ExecFor, Select;
    match s
    case VarDecl(_, _, _) => DeclarationFollows(nm, bk, s, env, fuel);
    case ExprStmt(e) => ExprFollows(nm, bk, e, env);
    case BlockStmt(block) => BlockFollows(nm, bk, block, env, fuel);
    case Empty =>
    case If(c, t, f) =>
      ExprFollows(nm, bk, c, env);
      var r := Eval(nm, Both, c, env);
      if r.Val? && IsTruthy(nm, r.value) {
        StmtFollows(nm, bk, t, None, r.env, fuel);
      } else if r.Val? && f.Some? {
        StmtFollows(nm, bk, f.value, None, r.env, fuel);
      }
    case While(_, _) => WhileFollows(nm, bk, s, tag, env, fuel);
    case DoWhile(_, _) => DoWhileFollows(nm, bk, s, tag, env, fuel);
    case For(init, c, u, body) =>
      if init.Some? {
        StmtFollows(nm, bk, init.value, None, EnterScope(env), fuel);
      }
      var o := if init.Some? then Exec(nm, Both, init.value, None, EnterScope(env), fuel) else Normal(EnterScope(env));
      if o.Normal? {
        ForFollows(nm, bk, c, u, body, tag, o.env, fuel);
      }
    case Switch(_, _, _) => SwitchFollows(nm, bk, s, env, fuel);
    case Labeled(_, _) => LabeledFollows(nm, bk, s, env, fuel);
    case Break(_) =>
    case Continue(_) =>
    case Return(v) =>
      if v.Some? {
        ExprFollows(nm, bk, v.value, env);
      }
    case Throw(e) => ExprFollows(nm, bk, e, env);
  }

  lemma {:induction false} LabeledFollows(nm: Numerics, bk: Backend, s: Stmt, env: Env, fuel: nat)
    requires !bk.Both? && s.Labeled?
    ensures FollowsOut(bk, Exec(nm, Both, s, None, env, fuel), Exec(nm, bk, s, None, env, fuel))
    decreases fuel, s, 0
  {
    hide Eval;
    StmtFollows(nm, bk, s.body, if IsLoop(s.body) then Some(s.tag) else None, env, fuel);
  }

  lemma DeclarationFollows(nm: Numerics, bk: Backend, s: Stmt, env: Env, fuel: nat)
    requires !bk.Both? && s.VarDecl?
    ensures FollowsOut(bk, Exec(nm, Both, s, None, env, fuel), Exec(nm, bk, s, None, env, fuel))
  {
    hide Eval, DeclareVar;
    ExprFollows(nm, bk, s.init, env);
    var r := Eval(nm, Both, s.init, env);
    if r.Val? {
      if WasConst(r.env, s.name) ==> s.isConst {
        DeclaresWith(bk, r.env, s.name, r.value, s.isConst);
      }
    }
  }

  lemma {:induction false} WhileFollows(nm: Numerics, bk: Backend, s: Stmt, tag: Option<Name>, env: Env, fuel: nat)
    requires !bk.Both? && s.While?
    ensures FollowsOut(bk, Exec(nm, Both, s, tag, env, fuel), Exec(nm, bk, s, tag, env, fuel))
    decreases fuel, s, 0
  {
    hide Eval;
    if fuel > 0 {
      ExprFollows(nm, bk, s.condition, env);
      var r := Eval(nm, Both, s.condition, env);
      if r.Val? && IsTruthy(nm, r.value) {
        StmtFollows(nm, bk, s.body, None, r.env, fuel);
        var again := AfterBody(Exec(nm, Both, s.body, None, r.env, fuel), tag);
        if again.Again? {
          StmtFollows(nm, bk, s, tag, again.env, fuel - 1);
        }
      }
    }
  }

  lemma {:induction false} DoWhileFollows(nm: Numerics, bk: Backend, s: Stmt, tag: Option<Name>, env: Env, fuel: nat)
    requires !bk.Both? && s.DoWhile?
    ensures FollowsOut(bk, Exec(nm, Both, s, tag, env, fuel), Exec(nm, bk, s, tag, env, fuel))
    decreases fuel, s, 0
  {
    hide Eval;
    if fuel > 0 {
      StmtFollows(nm, bk, s.body, None, env, fuel);
      var again := AfterBody(Exec(nm, Both, s.body, None, env, fuel), tag);
      if again.Again? {
        ExprFollows(nm, bk, s.condition, again.env);
        var r := Eval(nm, Both, s.condition, again.env);
        if r.Val? && IsTruthy(nm, r.value) {
          StmtFollows(nm, bk, s, tag, r.env, fuel - 1);
        }
      }
    }
  }

  lemma {:induction false} ForFollows(nm: Numerics, bk: Backend, c: Option<Expr>, u: Option<Expr>, body: Stmt,
                                      tag: Option<Name>, env: Env, fuel: nat)
    requires !bk.Both?
    ensures FollowsOut(bk, ExecFor(nm, Both, c, u, body, tag, env, fuel), ExecFor(nm, bk, c, u, body, tag, env, fuel))
    decreases fuel, body, 2
  {
    hide Eval, Exec;
    if fuel > 0 {
      OptionalFollows(nm, bk, c, Bool(true), env);
      var r := Optional(nm, Both, c, Bool(true), env);
      if r.Val? && IsTruthy(nm, r.value) {
        StmtFollows(nm, bk, body, None, r.env, fuel);
        var again := AfterBody(Exec(nm, Both, body, None, r.env, fuel), tag);
        if again.Again? {
          OptionalFollows(nm, bk, u, Undefined, again.env);
          var r2 := Optional(nm, Both, u, Undefined, again.env);
          if r2.Val? {
            ForFollows(nm, bk, c, u, body, tag, r2.env, fuel - 1);
          }
        }
      }
    }
  }

  /** The test or the update of a `for`, or a fixed value where there is none. */
  function Optional(nm: Numerics, bk: Backend, e: Option<Expr>, otherwise: Value, env: Env): Evaluation {
    if e.Some? then Eval(nm, bk, e.value, env) else Val(otherwise, env)
  }

  lemma OptionalFollows(nm: Numerics, bk: Backend, e: Option<Expr>, otherwise: Value, env: Env)
    requires !bk.Both?
    ensures Follows(bk, Optional(nm, Both, e, otherwise, env), Optional(nm, bk, e, otherwise, env))
  {
    hide Eval;
    if e.Some? {
      ExprFollows(nm, bk, e.value, env);
    }
  }

  predicate FollowsChoice(bk: Backend, both: Selection, r: Selection) {
    if both.Raised? && both.error.Parts? then
      EndsAt(bk, both.error.step).Some? ==> r == Selection.Raised(EndsAt(bk, both.error.step).value, both.globals)
    else r == both
  }

  lemma {:induction false} SelectFollows(nm: Numerics, bk: Backend, v: Value, cases: seq<SwitchCase>, i: nat, env: Env)
    requires !bk.Both? && i <= |cases|
    ensures FollowsChoice(bk, Select(nm, Both, v, cases, i, env), Select(nm, bk, v, cases, i, env))
    decreases |cases| - i
  {
    hide Eval, StrictEq;
    if i < |cases| {
      ExprFollows(nm, bk, cases[i].value, env);
      var r := Eval(nm, Both, cases[i].value, env);
      if r.Val? && !StrictEq(nm, v, r.value) {
        SelectFollows(nm, bk, v, cases, i + 1, r.env);
      }
    }
  }

  lemma {:induction false} SwitchFollows(nm: Numerics, bk: Backend, s: Stmt, env: Env, fuel: nat)
    requires !bk.Both? && s.Switch?
    ensures FollowsOut(bk, Exec(nm, Both, s, None, env, fuel), Exec(nm, bk, s, None, env, fuel))
    decreases fuel, s, 0
  {
    hide Eval, Select, ExecBlock;
    ExprFollows(nm, bk, s.scrutinee, env);
    var r := Eval(nm, Both, s.scrutinee, env);
    if r.Val? {
      SelectFollows(nm, bk, r.value, s.cases, 0, EnterScope(r.env));
      var choice := Select(nm, Both, r.value, s.cases, 0, EnterScope(r.env));
      if choice.Chosen? {
        BlockFollows(nm, bk, s.cases[choice.index].body, choice.env, fuel);
      } else if choice.NoMatch? && s.defaultBlock.Some? {
        BlockFollows(nm, bk, s.defaultBlock.value, choice.env, fuel);
      }
    }
  }

  lemma DeclaresWith(bk: Backend, env: Env, x: Name, v: Value, isConst: bool)
    requires !bk.Both? && (WasConst(env, x) ==> isConst)
    ensures DeclareVar(Both, env, x, v, isConst) == DeclareVar(bk, env, x, v, isConst)
  {
  }

  lemma {:induction false} BlockFollows(nm: Numerics, bk: Backend, block: Block, env: Env, fuel: nat)
    requires !bk.Both?
    ensures FollowsOut(bk, ExecBlock(nm, Both, block, env, fuel), ExecBlock(nm, bk, block, env, fuel))
    decreases fuel, block, 1
  {
    hide ExecList;
    ListFollows(nm, bk, block.stmts, EnterBlock(env, block.stmts), fuel);
  }

  lemma {:induction false} ListFollows(nm: Numerics, bk: Backend, stmts: seq<Stmt>, env: Env, fuel: nat)
    requires !bk.Both?
    ensures FollowsOut(bk, ExecList(nm, Both, stmts, env, fuel), ExecList(nm, bk, stmts, env, fuel))
    decreases fuel, stmts, 0
  {
    if stmts != [] {
      StmtFollows(nm, bk, stmts[0], None, env, fuel);
      var o := Exec(nm, Both, stmts[0], None, env, fuel);
      if o.Normal? {
        ListFollows(nm, bk, stmts[1..], o.env, fuel);
      }
    }
  }

  // ---- Whole scripts ----

  /** The step at which the backends part on this script, if its run comes to one. */
  function PartsAt(nm: Numerics, items: seq<Stmt>, g: Globals, fuel: nat): Option<Parting> {
    match ScriptEnding(nm, Both, items, g, fuel)
    case Some(Raised(Parts(step), _)) => Some(step)
    case _ => None
  }

  /** A run with no parting step ends alike on both backends: same result, same error, same globals. */
  lemma BackendsAgree(nm: Numerics, items: seq<Stmt>, g: Globals, fuel: nat)
    requires PartsAt(nm, items, g, fuel).None?
    ensures ScriptEnding(nm, Walking, items, g, fuel) == ScriptEnding(nm, Compiled, items, g, fuel)
  {
    hide ExecList;
    ListFollows(nm, Walking, items, Env([], g), fuel);
    ListFollows(nm, Compiled, items, Env([], g), fuel);
  }

  /** A backend that ends at the parting step ends there with that step's error. */
  lemma PartedEnding(nm: Numerics, bk: Backend, items: seq<Stmt>, g: Globals, fuel: nat)
    requires !bk.Both? && PartsAt(nm, items, g, fuel).Some?
    requires EndsAt(bk, PartsAt(nm, items, g, fuel).value).Some?
    ensures var at := ScriptEnding(nm, Both, items, g, fuel).value.globals;
            ScriptEnding(nm, bk, items, g, fuel)
              == Some(Ending.Raised(EndsAt(bk, PartsAt(nm, items, g, fuel).value).value, at))
  {
    hide ExecList;
    ListFollows(nm, bk, items, Env([], g), fuel);
  }

  /** The compiled script does what the interpreter does with it, on every run without a parting step. */
  lemma CompiledAsInterpreted(nm: Numerics, items: seq<Stmt>, P: seq<Instr>, callee: Value, g: Globals, fuel: nat)
      returns (n: nat)
    requires TidyList(items, 0) && ProgramCode(nm, items) == Ok(P)
    requires PartsAt(nm, items, g, fuel).None?
    ensures ScriptEnding(nm, Walking, items, g, fuel).Some?
    ensures Reaches(RunN(nm, P, Boot(callee, g), n), n, ScriptEnding(nm, Walking, items, g, fuel).value, fuel)
  {
    hide RunN, ScriptEnding, ProgramCode, TidyList, PartsAt;
    BackendsAgree(nm, items, g, fuel);
    n := ScriptRuns(nm, items, P, callee, g, fuel);
  }

  ghost predicate NeverParts(nm: Numerics, items: seq<Stmt>, g: Globals) {
    forall fuel: nat :: PartsAt(nm, items, g, fuel).None?
  }

  /** The machine halts exactly for the scripts the interpreter comes to the end of. */
  lemma HaltsIffInterpreted(nm: Numerics, items: seq<Stmt>, P: seq<Instr>, callee: Value, g: Globals)
    requires TidyList(items, 0) && ProgramCode(nm, items) == Ok(P) && NeverParts(nm, items, g)
    ensures Halts(nm, P, Boot(callee, g)) <==> Terminates(nm, Walking, items, g)
  {
    hide RunN, ScriptEnding, ProgramCode, TidyList, PartsAt;
    HaltsIffTerminates(nm, items, P, callee, g);
    forall fuel: nat
      ensures Settles(nm, Walking, items, g, fuel) <==> Settles(nm, Compiled, items, g, fuel)
    {
      BackendsAgree(nm, items, g, fuel);
    }
  }

  /** The steps the interpreter answers with an error of its own, which compiled code never raises. */
  predicate OnlyInterpreted(p: Parting) {
    p.BadLiteral? || p.OperandsOf? || p.ComplementOf? || p.StepOf?
  }

  /** A run that parts at such a step ends differently, whatever follows. */
  lemma PartedForGood(nm: Numerics, items: seq<Stmt>, g: Globals, fuel: nat)
    requires TidyList(items, 0) && ProgramCode(nm, items).Ok?
    requires PartsAt(nm, items, g, fuel).Some? && OnlyInterpreted(PartsAt(nm, items, g, fuel).value)
    ensures ScriptEnding(nm, Walking, items, g, fuel) != ScriptEnding(nm, Compiled, items, g, fuel)
  {
    hide RunN, ScriptEnding, ProgramCode, TidyList, PartsAt;
    var P := ProgramCode(nm, items).value;
    PartedEnding(nm, Walking, items, g, fuel);
    var n := ScriptRuns(nm, items, P, Undefined, g, fuel);
    MachineErrors(nm, P, Boot(Undefined, g), n);
  }
}
