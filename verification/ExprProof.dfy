/** Running the code of an expression computes what the expression means. */
module ExprProof {
  import opened Syntax
  import opened Values
  import opened Semantics
  import opened Bytecode
  import opened Folding
  import opened Codegen
  import opened ExprParts
  import opened Slots

  ghost predicate CodeAt(P: seq<Instr>, at: nat, c: seq<Instr>) {
    at + |c| <= |P| && P[at..at + |c|] == c
  }

  lemma CodeAtSplit(P: seq<Instr>, at: nat, a: seq<Instr>, b: seq<Instr>)
    requires CodeAt(P, at, a + b)
    ensures CodeAt(P, at, a) && CodeAt(P, at + |a|, b)
  {
    var c := a + b;
    assert P[at..at + |c|][..|a|] == a;
    assert P[at..at + |c|][|a|..] == b;
  }

  lemma CodeAtSplit3(P: seq<Instr>, at: nat, a: seq<Instr>, b: seq<Instr>, c: seq<Instr>)
    requires CodeAt(P, at, a + b + c)
    ensures CodeAt(P, at, a) && CodeAt(P, at + |a|, b) && CodeAt(P, at + |a| + |b|, c)
  {
    CodeAtSplit(P, at, a + b, c);
    CodeAtSplit(P, at, a, b);
  }

  lemma CodeAtSplit4(P: seq<Instr>, at: nat, a: seq<Instr>, b: seq<Instr>, c: seq<Instr>, d: seq<Instr>)
    requires CodeAt(P, at, a + b + c + d)
    ensures CodeAt(P, at, a) && CodeAt(P, at + |a|, b) && CodeAt(P, at + |a| + |b|, c)
    ensures CodeAt(P, at + |a| + |b| + |c|, d)
  {
    CodeAtSplit(P, at, a + b + c, d);
    CodeAtSplit3(P, at, a, b, c);
  }

  lemma CodeAtSplit5(P: seq<Instr>, at: nat, a: seq<Instr>, b: seq<Instr>, c: seq<Instr>, d: seq<Instr>, e: seq<Instr>)
    requires CodeAt(P, at, a + b + c + d + e)
    ensures CodeAt(P, at, a) && CodeAt(P, at + |a|, b) && CodeAt(P, at + |a| + |b|, c)
    ensures CodeAt(P, at + |a| + |b| + |c|, d) && CodeAt(P, at + |a| + |b| + |c| + |d|, e)
  {
    CodeAtSplit(P, at, a + b + c + d, e);
    CodeAtSplit4(P, at, a, b, c, d);
  }

  /** One instruction of placed code. */
  lemma CodeAtStep(nm: Numerics, P: seq<Instr>, at: nat, i: Instr, m: Machine)
    requires CodeAt(P, at, [i]) && m.Running? && m.ip == at
    ensures RunN(nm, P, m, 1) == StepTo(nm, i, m)
  {
    assert P[at] == P[at..at + 1][0];
    assert RunN(nm, P, m, 1) == RunN(nm, P, StepOnce(nm, P, m), 0);
  }

  lemma Chain(nm: Numerics, P: seq<Instr>, m0: Machine, a: nat, m1: Machine, b: nat, m2: Machine)
    requires RunN(nm, P, m0, a) == m1 && RunN(nm, P, m1, b) == m2
    ensures RunN(nm, P, m0, a + b) == m2
  {
    hide RunN;
    RunAdd(nm, P, m0, a, b);
  }

  /** Where an expression is run: its code, the slots the compiler knows, and the operands already on the stack. */
  datatype Site = Site(nm: Numerics, P: seq<Instr>, locals: seq<Local>, depth: nat, temps: seq<Value>,
                       pins: map<nat, Value>)

  /** The named slots mirror the scopes; the nameless slots in `pins` hold what was put there. */
  ghost predicate Fits(s: Site, base: seq<Value>, frames: seq<Frame>) {
    && Mirrors(s.locals, s.depth, base, frames)
    && forall i :: i in s.pins ==> i < |base| && s.locals[i].name.None? && base[i] == s.pins[i]
  }

  function At(s: Site, ip: int, base: seq<Value>, g: Globals): Machine {
    Running(ip, base + s.temps, g)
  }

  /** After `n` steps from `from`: on success the value is on top of the same operands and the slots mirror the new
      environment; on failure the machine has crashed with the same error and globals. */
  ghost predicate Computes(s: Site, from: Machine, n: nat, to: int, base: seq<Value>, r: Evaluation) {
    match r
    case Val(v, env) =>
      && RunN(s.nm, s.P, from, n) == Running(to, base + s.temps + [v], env.globals)
      && Fits(s, base, env.frames)
    case Fail(err, g) => RunN(s.nm, s.P, from, n) == Crashed(err, g)
  }

  lemma ComputesAfter(s: Site, m0: Machine, a: nat, m1: Machine, b: nat, to: int, base: seq<Value>, r: Evaluation)
    requires RunN(s.nm, s.P, m0, a) == m1 && Computes(s, m1, b, to, base, r)
    ensures Computes(s, m0, a + b, to, base, r)
  {
    hide RunN;
    RunAdd(s.nm, s.P, m0, a, b);
  }

  /** One instruction that leaves a value: pushes, operators and reads. */
  lemma OneStep(s: Site, at: nat, i: Instr, m: Machine, to: Machine)
    requires CodeAt(s.P, at, [i]) && m.Running? && m.ip == at && StepTo(s.nm, i, m) == to
    ensures RunN(s.nm, s.P, m, 1) == to
  {
    hide RunN;
    CodeAtStep(s.nm, s.P, at, i, m);
  }

  lemma RunPush(s: Site, at: nat, v: Value, base: seq<Value>, env: Env)
    requires CodeAt(s.P, at, [IPush(v)])
    requires Fits(s, base, env.frames)
    ensures Computes(s, At(s, at, base, env.globals), 1, at + 1, base, Val(v, env))
  {
    hide RunN;
    OneStep(s, at, IPush(v), At(s, at, base, env.globals), Running(at + 1, base + s.temps + [v], env.globals));
  }

  lemma RunGet(s: Site, at: nat, x: Name, base: seq<Value>, env: Env)
    requires GetCode(s.locals, x).Ok? && CodeAt(s.P, at, GetCode(s.locals, x).value)
    requires Fits(s, base, env.frames)
    ensures Computes(s, At(s, at, base, env.globals), 1, at + 1, base, ReadVar(env, x))
  {
    hide RunN;
    MirrorsRead(s.locals, s.depth, base, env, x);
    var m := At(s, at, base, env.globals);
    match ResolveLocal(s.locals, x)
    case Some(i) =>
      assert (base + s.temps)[i] == base[i];
      OneStep(s, at, IGetLocal(i), m, Running(at + 1, base + s.temps + [base[i]], env.globals));
    case None =>
      OneStep(s, at, IGetGlobal(x), m, StepTo(s.nm, IGetGlobal(x), m));
  }

  /** A store leaves the stored value on the stack. */
  lemma RunSet(s: Site, at: nat, x: Name, v: Value, base: seq<Value>, env: Env) returns (base': seq<Value>)
    requires SetCode(s.locals, x).Ok? && CodeAt(s.P, at, SetCode(s.locals, x).value)
    requires Fits(s, base, env.frames)
    ensures Computes(s, Running(at, base + s.temps + [v], env.globals), 1, at + 1, base',
                     AssignVar(Compiled, env, x, v))
  {
    hide RunN;
    var m := Running(at, base + s.temps + [v], env.globals);
    ResolveIsHolder(s.locals, s.depth, base, env.frames, x);
    match ResolveLocal(s.locals, x)
    case Some(i) =>
      MirrorsWrite(s.locals, s.depth, base, env, x, v);
      base' := base[i := v];
      assert (base + s.temps + [v])[i := v] == base' + s.temps + [v];
      OneStep(s, at, ISetLocal(i), m, Running(at + 1, base' + s.temps + [v], env.globals));
    case None =>
      base' := base;
      OneStep(s, at, ISetGlobal(x), m, StepTo(s.nm, ISetGlobal(x), m));
  }

  lemma RunUnary(s: Site, at: nat, op: VmUnary, v: Value, base: seq<Value>, env: Env)
    requires CodeAt(s.P, at, [IUnary(op)])
    requires Fits(s, base, env.frames)
    ensures Computes(s, Running(at, base + s.temps + [v], env.globals), 1, at + 1, base,
                     OfResult(ApplyUnary(s.nm, op, v), env))
  {
    hide RunN;
    var m := Running(at, base + s.temps + [v], env.globals);
    assert m.stack[..|m.stack| - 1] == base + s.temps;
    OneStep(s, at, IUnary(op), m, StepTo(s.nm, IUnary(op), m));
  }

  lemma RunBinary(s: Site, at: nat, op: VmBinary, a: Value, b: Value, base: seq<Value>, env: Env)
    requires CodeAt(s.P, at, [IBinary(op)])
    requires Fits(s, base, env.frames)
    ensures Computes(s, Running(at, base + (s.temps + [a]) + [b], env.globals), 1, at + 1, base,
                     OfResult(ApplyBinary(s.nm, op, a, b), env))
  {
    hide RunN;
    var m := Running(at, base + (s.temps + [a]) + [b], env.globals);
    assert m.stack[..|m.stack| - 2] == base + s.temps;
    OneStep(s, at, IBinary(op), m, StepTo(s.nm, IBinary(op), m));
  }

  lemma RunPop(s: Site, at: nat, v: Value, base: seq<Value>, g: Globals)
    requires CodeAt(s.P, at, [IPop])
    ensures RunN(s.nm, s.P, Running(at, base + s.temps + [v], g), 1) == At(s, at + 1, base, g)
  {
    hide RunN;
    var m := Running(at, base + s.temps + [v], g);
    assert m.stack[..|m.stack| - 1] == base + s.temps;
    OneStep(s, at, IPop, m, At(s, at + 1, base, g));
  }

  /** A jump looks at the top value; only `JumpIfFalse` takes it off. */
  lemma RunJump(s: Site, at: nat, kind: JumpKind, delta: int, v: Value, base: seq<Value>, g: Globals)
    requires CodeAt(s.P, at, [J(kind, delta)]) && !kind.Always?
    ensures var to := if JumpTaken(s.nm, kind, v) then at + delta else at + 1;
            RunN(s.nm, s.P, Running(at, base + s.temps + [v], g), 1)
              == if kind.IfFalse? then At(s, to, base, g) else Running(to, base + s.temps + [v], g)
  {
    hide RunN;
    var m := Running(at, base + s.temps + [v], g);
    assert m.stack[..|m.stack| - 1] == base + s.temps;
    OneStep(s, at, J(kind, delta), m, StepTo(s.nm, J(kind, delta), m));
  }

  lemma RunGoto(s: Site, at: nat, delta: int, st: seq<Value>, g: Globals)
    requires CodeAt(s.P, at, [J(Always, delta)])
    ensures RunN(s.nm, s.P, Running(at, st, g), 1) == Running(at + delta, st, g)
  {
    hide RunN;
    OneStep(s, at, J(Always, delta), Running(at, st, g), Running(at + delta, st, g));
  }

  // ---- Putting runs together ----

  /** Two operands and an operator. */
  lemma JoinBinary(s: Site, at: nat, l: seq<Instr>, r: seq<Instr>, op: VmBinary, m0: Machine,
                   n1: nat, base1: seq<Value>, a: Value, env1: Env, n2: nat, base2: seq<Value>, second: Evaluation)
      returns (n: nat)
    requires CodeAt(s.P, at, l + r + [IBinary(op)])
    requires Computes(s, m0, n1, at + |l|, base1, Val(a, env1))
    requires Computes(s.(temps := s.temps + [a]), Running(at + |l|, base1 + s.temps + [a], env1.globals), n2,
                      at + |l| + |r|, base2, second)
    ensures n >= n1
    ensures Computes(s, m0, n, at + |l| + |r| + 1, base2,
                     OperateOn(s.nm, op, a, second))
  {
    hide RunN;
    var s1 := s.(temps := s.temps + [a]);
    CodeAtSplit(s.P, at, l + r, [IBinary(op)]);
    ComputesAfter(s1, m0, n1, Running(at + |l|, base1 + s.temps + [a], env1.globals), n2, at + |l| + |r|, base2,
                  second);
    n := n1 + n2;
    match second
    case Fail(_, _) =>
    case Val(b, env2) =>
      RunBinary(s, at + |l| + |r|, op, a, b, base2, env2);
      ComputesAfter(s, m0, n, Running(at + |l| + |r|, base2 + (s.temps + [a]) + [b], env2.globals), 1,
                    at + |l| + |r| + 1, base2, OfResult(ApplyBinary(s.nm, op, a, b), env2));
      n := n + 1;
  }

  /** A store after the value to be stored. */
  lemma JoinStore(s: Site, at: nat, x: Name, m0: Machine, n1: nat, base1: seq<Value>, r: Evaluation)
      returns (n: nat, base': seq<Value>)
    requires SetCode(s.locals, x).Ok? && CodeAt(s.P, at, SetCode(s.locals, x).value)
    requires Computes(s, m0, n1, at, base1, r)
    ensures n >= n1
    ensures Computes(s, m0, n, at + 1, base',
                     StoreTo(x, r))
  {
    hide RunN;
    n, base' := n1, base1;
    if r.Val? {
      base' := RunSet(s, at, x, r.value, base1, r.env);
      ComputesAfter(s, m0, n1, Running(at, base1 + s.temps + [r.value], r.env.globals), 1, at + 1, base',
                    AssignVar(Compiled, r.env, x, r.value));
      n := n1 + 1;
    }
  }

  /** The jump of a short-circuiting operator is taken: the left value is the result. */
  lemma JoinTaken(s: Site, at: nat, kind: JumpKind, delta: int, m0: Machine, n1: nat, base1: seq<Value>, a: Value,
                  env1: Env)
    requires CodeAt(s.P, at, [J(kind, delta)]) && !kind.Always? && !kind.IfFalse?
    requires Computes(s, m0, n1, at, base1, Val(a, env1)) && JumpTaken(s.nm, kind, a)
    ensures Computes(s, m0, n1 + 1, at + delta, base1, Val(a, env1))
  {
    hide RunN;
    RunJump(s, at, kind, delta, a, base1, env1.globals);
    Chain(s.nm, s.P, m0, n1, Running(at, base1 + s.temps + [a], env1.globals), 1,
          Running(at + delta, base1 + s.temps + [a], env1.globals));
  }

  /** The jump goes to a `Pop` (or falls into it): the left value is dropped and the right operand starts at `next`. */
  lemma JoinDropped(s: Site, at: nat, kind: JumpKind, delta: int, drop: nat, m0: Machine, n1: nat, base1: seq<Value>,
                    a: Value, env1: Env)
    requires CodeAt(s.P, at, [J(kind, delta)]) && !kind.Always? && !kind.IfFalse?
    requires Computes(s, m0, n1, at, base1, Val(a, env1))
    requires drop == if JumpTaken(s.nm, kind, a) then at + delta else at + 1
    requires CodeAt(s.P, drop, [IPop])
    ensures RunN(s.nm, s.P, m0, n1 + 2) == At(s, drop + 1, base1, env1.globals)
  {
    hide RunN;
    var m1 := Running(at, base1 + s.temps + [a], env1.globals);
    RunJump(s, at, kind, delta, a, base1, env1.globals);
    Chain(s.nm, s.P, m0, n1, m1, 1, m1.(ip := drop));
    RunPop(s, drop, a, base1, env1.globals);
    Chain(s.nm, s.P, m0, n1 + 1, m1.(ip := drop), 1, At(s, drop + 1, base1, env1.globals));
  }

  /** A test that takes its value off the stack. */
  lemma JoinTest(s: Site, at: nat, delta: int, m0: Machine, n1: nat, base1: seq<Value>, v: Value, env1: Env)
    requires CodeAt(s.P, at, [J(IfFalse, delta)])
    requires Computes(s, m0, n1, at, base1, Val(v, env1))
    ensures RunN(s.nm, s.P, m0, n1 + 1)
              == At(s, if IsTruthy(s.nm, v) then at + 1 else at + delta, base1, env1.globals)
  {
    hide RunN;
    RunJump(s, at, IfFalse, delta, v, base1, env1.globals);
    Chain(s.nm, s.P, m0, n1, Running(at, base1 + s.temps + [v], env1.globals), 1,
          At(s, if IsTruthy(s.nm, v) then at + 1 else at + delta, base1, env1.globals));
  }

  lemma JoinGoto(s: Site, at: nat, delta: int, m0: Machine, n1: nat, base1: seq<Value>, r: Evaluation)
    requires CodeAt(s.P, at, [J(Always, delta)])
    requires Computes(s, m0, n1, at, base1, r)
    ensures Computes(s, m0, n1 + if r.Val? then 1 else 0, at + delta, base1, r)
  {
    hide RunN;
    if r.Val? {
      var st := base1 + s.temps + [r.value];
      RunGoto(s, at, delta, st, r.env.globals);
      Chain(s.nm, s.P, m0, n1, Running(at, st, r.env.globals), 1, Running(at + delta, st, r.env.globals));
    }
  }

  // ---- The induction ----

  /** From `at`, the code of `e` computes the value of `e`: same result, same error, same variables. */
  lemma {:induction false} RunExpr(s: Site, at: nat, e: Expr, base: seq<Value>, env: Env)
      returns (n: nat, base': seq<Value>)
    requires ExprCode(s.nm, e, s.locals).Ok? && CodeAt(s.P, at, ExprCode(s.nm, e, s.locals).value)
    requires Fits(s, base, env.frames)
    ensures n > 0
    ensures Computes(s, At(s, at, base, env.globals), n, at + |ExprCode(s.nm, e, s.locals).value|, base',
                     Eval(s.nm, Compiled, e, env))
    decreases e, 1
  {
    hide RunN;
    base' := base;
    n := 1;
    if FoldConst(s.nm, e).Some? {
      FoldSound(s.nm, e, env);
      n, base' := RunFolded(s, at, e, base, env);
    } else {
      match e
      case Identifier(x) => RunGet(s, at, x, base, env);
      case Lit(l) => RunPush(s, at, LiteralValue(s.nm, l), base, env);
      case Grouping(inner) => n, base' := RunExpr(s, at, inner, base, env);
      case Unary(op, operand) => n, base' := RunUnaryExpr(s, at, e, base, env);
      case Binary(op, lhs, rhs) =>
        if op.Assign? {
          n, base' := RunAssign(s, at, lhs.name, rhs, base, env);
        } else if CompoundInstr(op).Some? {
          n, base' := RunCompound(s, at, e, base, env);
        } else if op.And? || op.Or? || IsLogicalAssign(op) {
          n, base' := RunShort(s, at, e, base, env);
        } else if op.NullishCoalescing? {
          n, base' := RunNullish(s, at, e, base, env);
        } else {
          n, base' := RunStrict(s, at, e, base, env);
        }
      case Assignment(x, value) => n, base' := RunAssign(s, at, x, value, base, env);
      case Postfix(op, operand) => n, base' := RunPostfix(s, at, e, base, env);
      case Conditional(c, t, f) => n, base' := RunConditional(s, at, e, base, env);
    }
  }

  lemma RunFolded(s: Site, at: nat, e: Expr, base: seq<Value>, env: Env) returns (n: nat, base': seq<Value>)
    requires FoldConst(s.nm, e).Some? && ExprCode(s.nm, e, s.locals).Ok?
    requires CodeAt(s.P, at, ExprCode(s.nm, e, s.locals).value)
    requires Fits(s, base, env.frames)
    ensures n > 0
    ensures Computes(s, At(s, at, base, env.globals), n, at + |ExprCode(s.nm, e, s.locals).value|, base',
                     Eval(s.nm, Compiled, e, env))
  {
    hide RunN;
    FoldedCode(s.nm, e, s.locals);
    FoldSound(s.nm, e, env);
    RunPush(s, at, Folded(FoldConst(s.nm, e).value), base, env);
    n, base' := 1, base;
  }

  lemma OperateIsInstr(nm: Numerics, op: BinaryOp, a: Value, b: Value)
    requires BinaryInstr(op).Some?
    ensures Operate(nm, Compiled, op, a, b) == Some(ApplyBinary(nm, BinaryInstr(op).value, a, b))
    ensures CompoundBase(op).None? && !ShortCircuits(nm, op, a)
  {
    hide ApplyBinary;
  }

  lemma CompoundIsInstr(nm: Numerics, op: BinaryOp, a: Value, b: Value)
    requires CompoundInstr(op).Some?
    ensures CompoundBase(op).Some? && !ShortCircuits(nm, op, a)
    ensures Operate(nm, Compiled, CompoundBase(op).value, a, b) == Some(ApplyBinary(nm, CompoundInstr(op).value, a, b))
  {
    hide ApplyBinary, Operate;
    assert BinaryInstr(CompoundBase(op).value) == CompoundInstr(op);
    OperateIsInstr(nm, CompoundBase(op).value, a, b);
  }

  lemma JoinUnary(s: Site, at: nat, op: UnaryOp, m0: Machine, n1: nat, base1: seq<Value>, r: Evaluation)
      returns (n: nat)
    requires CodeAt(s.P, at, UnaryTail(op))
    requires Computes(s, m0, n1, at, base1, r)
    ensures n >= n1
    ensures Computes(s, m0, n, at + |UnaryTail(op)|, base1,
                     match r
                     case Fail(err, g) => Fail(err, g)
                     case Val(v, env) => OfResult(UnaryResult(s.nm, Compiled, op, v), env))
  {
    hide RunN;
    n := n1;
    match r
    case Fail(_, _) =>
    case Val(w, env1) =>
      if op.Void? || op.Delete? {
        var v := if op.Void? then Undefined else Bool(true);
        assert UnaryTail(op) == [IPop] + [IPush(v)];
        CodeAtSplit(s.P, at, [IPop], [IPush(v)]);
        RunPop(s, at, w, base1, env1.globals);
        Chain(s.nm, s.P, m0, n1, Running(at, base1 + s.temps + [w], env1.globals), 1,
              At(s, at + 1, base1, env1.globals));
        RunPush(s, at + 1, v, base1, env1);
        ComputesAfter(s, m0, n1 + 1, At(s, at + 1, base1, env1.globals), 1, at + 2, base1, Val(v, env1));
        n := n1 + 2;
      } else {
        RunUnary(s, at, UnaryInstr(op), w, base1, env1);
        ComputesAfter(s, m0, n1, Running(at, base1 + s.temps + [w], env1.globals), 1, at + 1, base1,
                      OfResult(ApplyUnary(s.nm, UnaryInstr(op), w), env1));
        n := n1 + 1;
      }
  }

  lemma {:induction false} RunUnaryExpr(s: Site, at: nat, e: Expr, base: seq<Value>, env: Env)
      returns (n: nat, base': seq<Value>)
    requires e.Unary? && FoldConst(s.nm, e).None?
    requires ExprCode(s.nm, e, s.locals).Ok? && CodeAt(s.P, at, ExprCode(s.nm, e, s.locals).value)
    requires Fits(s, base, env.frames)
    ensures n > 0
    ensures Computes(s, At(s, at, base, env.globals), n, at + |ExprCode(s.nm, e, s.locals).value|, base',
                     Eval(s.nm, Compiled, e, env))
    decreases e, 0
  {
    var c := ExprCode(s.nm, e.operand, s.locals).value;
    assert ExprCode(s.nm, e, s.locals).value == c + UnaryTail(e.uop);
    hide RunN, ExprCode, FoldConst, Mirrors, UnaryTail, UnaryResult;
    CodeAtSplit(s.P, at, c, UnaryTail(e.uop));
    n, base' := RunExpr(s, at, e.operand, base, env);
    n := JoinUnary(s, at + |c|, e.uop, At(s, at, base, env.globals), n, base', Eval(s.nm, Compiled, e.operand, env));
  }

  lemma {:induction false} RunAssign(s: Site, at: nat, x: Name, value: Expr, base: seq<Value>, env: Env)
      returns (n: nat, base': seq<Value>)
    requires ExprCode(s.nm, Assignment(x, value), s.locals).Ok?
    requires CodeAt(s.P, at, ExprCode(s.nm, Assignment(x, value), s.locals).value)
    requires Fits(s, base, env.frames)
    ensures n > 0
    ensures Computes(s, At(s, at, base, env.globals), n,
                     at + |ExprCode(s.nm, Assignment(x, value), s.locals).value|, base',
                     Eval(s.nm, Compiled, Assignment(x, value), env))
    decreases value, 2
  {
    hide RunN, Mirrors, AssignVar;
    var r := ExprCode(s.nm, value, s.locals).value;
    CodeAtSplit(s.P, at, r, SetCode(s.locals, x).value);
    n, base' := RunExpr(s, at, value, base, env);
    n, base' := JoinStore(s, at + |r|, x, At(s, at, base, env.globals), n, base', Eval(s.nm, Compiled, value, env));
  }

  /** The right operand, with the left one waiting on the stack. */
  lemma {:induction false} RunRight(s: Site, at: nat, e: Expr, a: Value, base: seq<Value>, env: Env)
      returns (n: nat, base': seq<Value>)
    requires ExprCode(s.nm, e, s.locals).Ok? && CodeAt(s.P, at, ExprCode(s.nm, e, s.locals).value)
    requires Fits(s, base, env.frames)
    ensures n > 0
    ensures Computes(s.(temps := s.temps + [a]), Running(at, base + s.temps + [a], env.globals), n,
                     at + |ExprCode(s.nm, e, s.locals).value|, base', Eval(s.nm, Compiled, e, env))
    decreases e, 2
  {
    hide RunN;
    assert base + s.temps + [a] == base + (s.temps + [a]);
    n, base' := RunExpr(s.(temps := s.temps + [a]), at, e, base, env);
  }

  /** The second operand and the operator, once the first operand is on the stack. */
  function OperateOn(nm: Numerics, op: VmBinary, a: Value, second: Evaluation): Evaluation {
    match second
    case Fail(err, g) => Fail(err, g)
    case Val(b, env2) => OfResult(ApplyBinary(nm, op, a, b), env2)
  }

  function StoreTo(x: Name, r: Evaluation): Evaluation {
    match r
    case Fail(err, g) => Fail(err, g)
    case Val(v, env) => AssignVar(Compiled, env, x, v)
  }

  lemma StrictEval(nm: Numerics, e: Expr, env: Env)
    requires e.Binary? && BinaryInstr(e.op).Some?
    ensures Eval(nm, Compiled, e, env) == match Eval(nm, Compiled, e.lhs, env)
                                case Fail(err, g) => Fail(err, g)
                                case Val(a, env1) => OperateOn(nm, BinaryInstr(e.op).value, a,
                                                               Eval(nm, Compiled, e.rhs, env1))
  {
    var first := Eval(nm, Compiled, e.lhs, env);
    if first.Val? {
      var second := Eval(nm, Compiled, e.rhs, first.env);
      OperateIsInstr(nm, e.op, first.value, if second.Val? then second.value else Undefined);
    }
  }

  lemma {:induction false} RunStrict(s: Site, at: nat, e: Expr, base: seq<Value>, env: Env)
      returns (n: nat, base': seq<Value>)
    requires e.Binary? && FoldConst(s.nm, e).None? && BinaryInstr(e.op).Some?
    requires ExprCode(s.nm, e, s.locals).Ok? && CodeAt(s.P, at, ExprCode(s.nm, e, s.locals).value)
    requires Fits(s, base, env.frames)
    ensures n > 0
    ensures Computes(s, At(s, at, base, env.globals), n, at + |ExprCode(s.nm, e, s.locals).value|, base',
                     Eval(s.nm, Compiled, e, env))
    decreases e, 0
  {
    hide RunN, Eval, ExprCode, FoldConst, Mirrors, ApplyBinary;
    var op := BinaryInstr(e.op).value;
    var l, r := StrictCode(s.nm, e, s.locals);
    StrictEval(s.nm, e, env);
    CodeAtSplit3(s.P, at, l, r, [IBinary(op)]);
    n, base' := RunExpr(s, at, e.lhs, base, env);
    match Eval(s.nm, Compiled, e.lhs, env)
    case Fail(_, _) =>
    case Val(a, env1) =>
      var n2, base2 := RunRight(s, at + |l|, e.rhs, a, base', env1);
      n := JoinBinary(s, at, l, r, op, At(s, at, base, env.globals), n, base', a, env1, n2, base2,
                      Eval(s.nm, Compiled, e.rhs, env1));
      base' := base2;
  }

  function CompoundFrom(nm: Numerics, op: VmBinary, x: Name, rhs: Expr, first: Evaluation): Evaluation {
    match first
    case Fail(err, g) => Fail(err, g)
    case Val(a, env1) => StoreTo(x, OperateOn(nm, op, a, Eval(nm, Compiled, rhs, env1)))
  }

  lemma CompoundEval(nm: Numerics, e: Expr, env: Env)
    requires e.Binary? && CompoundInstr(e.op).Some? && e.lhs.Identifier?
    ensures Eval(nm, Compiled, e, env)
              == CompoundFrom(nm, CompoundInstr(e.op).value, e.lhs.name, e.rhs, ReadVar(env, e.lhs.name))
  {
    var first := ReadVar(env, e.lhs.name);
    if first.Val? {
      var second := Eval(nm, Compiled, e.rhs, first.env);
      CompoundIsInstr(nm, e.op, first.value, if second.Val? then second.value else Undefined);
    }
  }

  lemma {:induction false} RunCompound(s: Site, at: nat, e: Expr, base: seq<Value>, env: Env)
      returns (n: nat, base': seq<Value>)
    requires e.Binary? && FoldConst(s.nm, e).None? && CompoundInstr(e.op).Some?
    requires ExprCode(s.nm, e, s.locals).Ok? && CodeAt(s.P, at, ExprCode(s.nm, e, s.locals).value)
    requires Fits(s, base, env.frames)
    ensures n > 0
    ensures Computes(s, At(s, at, base, env.globals), n, at + |ExprCode(s.nm, e, s.locals).value|, base',
                     Eval(s.nm, Compiled, e, env))
    decreases e, 0
  {
    hide RunN, Eval, ExprCode, FoldConst, Mirrors, ApplyBinary, ReadVar, AssignVar;
    var op := CompoundInstr(e.op).value;
    var l, r, w := CompoundCode(s.nm, e, s.locals);
    CompoundEval(s.nm, e, env);
    CodeAtSplit4(s.P, at, l, r, [IBinary(op)], w);
    CodeAtSplit(s.P, at, l + r + [IBinary(op)], w);
    RunGet(s, at, e.lhs.name, base, env);
    n, base' := 1, base;
    match ReadVar(env, e.lhs.name)
    case Fail(_, _) =>
    case Val(a, env1) =>
      var m0 := At(s, at, base, env.globals);
      var n2, base2 := RunRight(s, at + |l|, e.rhs, a, base', env1);
      var second := Eval(s.nm, Compiled, e.rhs, env1);
      n := JoinBinary(s, at, l, r, op, m0, n, base', a, env1, n2, base2, second);
      n, base' := JoinStore(s, at + |l| + |r| + 1, e.lhs.name, m0, n, base2, OperateOn(s.nm, op, a, second));
  }

  // ---- Postfix ----

  lemma RunPostfix(s: Site, at: nat, e: Expr, base: seq<Value>, env: Env) returns (n: nat, base': seq<Value>)
    requires e.Postfix?
    requires ExprCode(s.nm, e, s.locals).Ok? && CodeAt(s.P, at, ExprCode(s.nm, e, s.locals).value)
    requires Fits(s, base, env.frames)
    ensures n > 0
    ensures Computes(s, At(s, at, base, env.globals), n, at + |ExprCode(s.nm, e, s.locals).value|, base',
                     Eval(s.nm, Compiled, e, env))
  {
    var g, w := PostfixCode(s.nm, e, s.locals);
    hide RunN, ExprCode, Mirrors, ReadVar, AssignVar, ApplyBinary, ApplyUnary;
    var x := e.operand.name;
    var c4 := g + [IUnary(PosOp)] + [IDup] + [IPush(Number(s.nm.one))];
    var m0 := At(s, at, base, env.globals);
    CodeAtSplit4(s.P, at, c4, [IBinary(PostfixOperator(e.pop))], w, [IPop]);
    CodeAtSplit4(s.P, at, g, [IUnary(PosOp)], [IDup], [IPush(Number(s.nm.one))]);
    RunGet(s, at, x, base, env);
    n, base' := 1, base;
    match ReadVar(env, x)
    case Fail(_, _) =>
    case Val(v, _) =>
      ReadKeepsEnv(env, x);
      RunUnary(s, at + 1, PosOp, v, base, env);
      ComputesAfter(s, m0, 1, Running(at + 1, base + s.temps + [v], env.globals), 1, at + 2, base,
                    OfResult(ApplyUnary(s.nm, PosOp, v), env));
      n := 2;
      match ApplyUnary(s.nm, PosOp, v)
      case Err(_) =>
      case Ok(before) => n, base' := RunStep(s, at, e.pop, x, before, m0, base, env);
  }

  lemma ReadKeepsEnv(env: Env, x: Name)
    ensures ReadVar(env, x).Val? ==> ReadVar(env, x).env == env
  {
  }

  function StepFrom(nm: Numerics, pop: PostfixOp, x: Name, before: Value, env: Env): Evaluation {
    match StoreTo(x, OfResult(ApplyBinary(nm, PostfixOperator(pop), before, Number(nm.one)), env))
    case Fail(err, g) => Fail(err, g)
    case Val(_, env1) => Val(before, env1)
  }

  /** The second half of `x++`: the old value is copied, changed, stored and dropped. */
  lemma RunStep(s: Site, at: nat, pop: PostfixOp, x: Name, before: Value, m0: Machine, base: seq<Value>, env: Env)
      returns (n: nat, base': seq<Value>)
    requires SetCode(s.locals, x).Ok?
    requires CodeAt(s.P, at + 2, [IDup]) && CodeAt(s.P, at + 3, [IPush(Number(s.nm.one))])
    requires CodeAt(s.P, at + 4, [IBinary(PostfixOperator(pop))])
    requires CodeAt(s.P, at + 5, SetCode(s.locals, x).value) && CodeAt(s.P, at + 6, [IPop])
    requires Fits(s, base, env.frames)
    requires RunN(s.nm, s.P, m0, 2) == Running(at + 2, base + s.temps + [before], env.globals)
    ensures n > 0
    ensures Computes(s, m0, n, at + 7, base', StepFrom(s.nm, pop, x, before, env))
  {
    hide RunN, Mirrors, ApplyBinary;
    var op := PostfixOperator(pop);
    var one := Number(s.nm.one);
    var s1 := s.(temps := s.temps + [before]);
    var s2 := s.(temps := s.temps + [before] + [before]);
    var m2 := Running(at + 2, base + s.temps + [before], env.globals);
    var m3 := Running(at + 3, base + s2.temps, env.globals);
    assert base + s.temps + [before] + [before] == base + s2.temps;
    OneStep(s, at + 2, IDup, m2, m3);
    Chain(s.nm, s.P, m0, 2, m2, 1, m3);
    RunPush(s2, at + 3, one, base, env);
    ComputesAfter(s2, m0, 3, m3, 1, at + 4, base, Val(one, env));
    var m4 := Running(at + 4, base + (s1.temps + [before]) + [one], env.globals);
    RunBinary(s1, at + 4, op, before, one, base, env);
    ComputesAfter(s1, m0, 4, m4, 1, at + 5, base, OfResult(ApplyBinary(s.nm, op, before, one), env));
    n, base' := 5, base;
    match ApplyBinary(s.nm, op, before, one)
    case Err(_) =>
    case Ok(after) =>
      base' := RunSet(s1, at + 5, x, after, base, env);
      ComputesAfter(s1, m0, 5, Running(at + 5, base + s1.temps + [after], env.globals), 1, at + 6, base',
                    AssignVar(Compiled, env, x, after));
      n := 6;
      match AssignVar(Compiled, env, x, after)
      case Fail(_, _) =>
      case Val(_, env1) =>
        RunPop(s1, at + 6, after, base', env1.globals);
        assert base' + s1.temps == base' + s.temps + [before];
        Chain(s.nm, s.P, m0, 6, Running(at + 6, base' + s1.temps + [after], env1.globals), 1,
              Running(at + 7, base' + s.temps + [before], env1.globals));
        n := 7;
  }

  // ---- Short circuits ----

  /** What runs when the left operand does not decide: the right operand, or the assignment of it. */
  function RightPart(e: Expr): Expr
    requires e.Binary? && (IsLogicalAssign(e.op) ==> e.lhs.Identifier?)
  {
    if IsLogicalAssign(e.op) then Assignment(e.lhs.name, e.rhs) else e.rhs
  }

  lemma ShortEval(nm: Numerics, e: Expr, env: Env)
    requires e.Binary?
    requires (e.op.And? || e.op.Or? || e.op.NullishCoalescing? || (IsLogicalAssign(e.op) && e.lhs.Identifier?))
    ensures Eval(nm, Compiled, e, env) == match Eval(nm, Compiled, e.lhs, env)
                                case Fail(err, g) => Fail(err, g)
                                case Val(a, env1) =>
                                  if ShortCircuits(nm, e.op, a) then Val(a, env1)
                                    else Eval(nm, Compiled, RightPart(e), env1)
  {
  }

  /** The left value stays when the jump is taken and is dropped when it is not. */
  lemma JoinShort(s: Site, at: nat, kind: JumpKind, size: nat, m0: Machine, n1: nat, base1: seq<Value>, a: Value,
                  env1: Env, n2: nat, base2: seq<Value>, right: Evaluation) returns (n: nat, base': seq<Value>)
    requires !kind.Always? && !kind.IfFalse?
    requires CodeAt(s.P, at, [J(kind, 2 + size)]) && CodeAt(s.P, at + 1, [IPop])
    requires Computes(s, m0, n1, at, base1, Val(a, env1))
    requires Computes(s, At(s, at + 2, base1, env1.globals), n2, at + 2 + size, base2, right)
    ensures n >= n1
    ensures Computes(s, m0, n, at + 2 + size, base', if JumpTaken(s.nm, kind, a) then Val(a, env1) else right)
  {
    hide RunN, Computes, CodeAt;
    if JumpTaken(s.nm, kind, a) {
      JoinTaken(s, at, kind, 2 + size, m0, n1, base1, a, env1);
      n, base' := n1 + 1, base1;
    } else {
      JoinDropped(s, at, kind, 2 + size, at + 1, m0, n1, base1, a, env1);
      ComputesAfter(s, m0, n1 + 2, At(s, at + 2, base1, env1.globals), n2, at + 2 + size, base2, right);
      n, base' := n1 + 2 + n2, base2;
    }
  }

  lemma {:induction false} RunShort(s: Site, at: nat, e: Expr, base: seq<Value>, env: Env)
      returns (n: nat, base': seq<Value>)
    requires e.Binary? && FoldConst(s.nm, e).None? && (e.op.And? || e.op.Or? || IsLogicalAssign(e.op))
    requires ExprCode(s.nm, e, s.locals).Ok? && CodeAt(s.P, at, ExprCode(s.nm, e, s.locals).value)
    requires Fits(s, base, env.frames)
    ensures n > 0
    ensures Computes(s, At(s, at, base, env.globals), n, at + |ExprCode(s.nm, e, s.locals).value|, base',
                     Eval(s.nm, Compiled, e, env))
    decreases e, 0
  {
    hide RunN, Eval, ExprCode, FoldConst, Mirrors;
    var l, r := ShortCode(s.nm, e, s.locals);
    ShortEval(s.nm, e, env);
    CodeAtSplit4(s.P, at, l, [J(ShortJump(e.op), 2 + |r|)], [IPop], r);
    n, base' := RunExpr(s, at, e.lhs, base, env);
    match Eval(s.nm, Compiled, e.lhs, env)
    case Fail(_, _) =>
    case Val(a, env1) =>
      var n2, base2;
      if IsLogicalAssign(e.op) {
        n2, base2 := RunAssign(s, at + |l| + 2, e.lhs.name, e.rhs, base', env1);
      } else {
        n2, base2 := RunExpr(s, at + |l| + 2, e.rhs, base', env1);
      }
      n, base' := JoinShort(s, at + |l|, ShortJump(e.op), |r|, At(s, at, base, env.globals), n, base', a, env1,
                            n2, base2, Eval(s.nm, Compiled, RightPart(e), env1));
  }

  lemma JoinNullish(s: Site, at: nat, size: nat, m0: Machine, n1: nat, base1: seq<Value>, a: Value, env1: Env,
                    n2: nat, base2: seq<Value>, right: Evaluation) returns (n: nat, base': seq<Value>)
    requires CodeAt(s.P, at, [J(IfNullishPeek, 2)]) && CodeAt(s.P, at + 1, [J(Always, 2 + size)])
    requires CodeAt(s.P, at + 2, [IPop])
    requires Computes(s, m0, n1, at, base1, Val(a, env1))
    requires Computes(s, At(s, at + 3, base1, env1.globals), n2, at + 3 + size, base2, right)
    ensures n >= n1
    ensures Computes(s, m0, n, at + 3 + size, base', if IsNullish(a) then right else Val(a, env1))
  {
    hide RunN, CodeAt;
    if IsNullish(a) {
      JoinDropped(s, at, IfNullishPeek, 2, at + 2, m0, n1, base1, a, env1);
      ComputesAfter(s, m0, n1 + 2, At(s, at + 3, base1, env1.globals), n2, at + 3 + size, base2, right);
      n, base' := n1 + 2 + n2, base2;
    } else {
      RunJump(s, at, IfNullishPeek, 2, a, base1, env1.globals);
      ComputesAfter(s, m0, n1, Running(at, base1 + s.temps + [a], env1.globals), 1, at + 1, base1, Val(a, env1));
      JoinGoto(s, at + 1, 2 + size, m0, n1 + 1, base1, Val(a, env1));
      n, base' := n1 + 2, base1;
    }
  }

  lemma {:induction false} RunNullish(s: Site, at: nat, e: Expr, base: seq<Value>, env: Env)
      returns (n: nat, base': seq<Value>)
    requires e.Binary? && FoldConst(s.nm, e).None? && e.op.NullishCoalescing?
    requires ExprCode(s.nm, e, s.locals).Ok? && CodeAt(s.P, at, ExprCode(s.nm, e, s.locals).value)
    requires Fits(s, base, env.frames)
    ensures n > 0
    ensures Computes(s, At(s, at, base, env.globals), n, at + |ExprCode(s.nm, e, s.locals).value|, base',
                     Eval(s.nm, Compiled, e, env))
    decreases e, 0
  {
    hide RunN, Eval, ExprCode, FoldConst, Mirrors;
    var l, r := NullishCode(s.nm, e, s.locals);
    ShortEval(s.nm, e, env);
    CodeAtSplit5(s.P, at, l, [J(IfNullishPeek, 2)], [J(Always, 2 + |r|)], [IPop], r);
    n, base' := RunExpr(s, at, e.lhs, base, env);
    match Eval(s.nm, Compiled, e.lhs, env)
    case Fail(_, _) =>
    case Val(a, env1) =>
      var n2, base2 := RunExpr(s, at + |l| + 3, e.rhs, base', env1);
      n, base' := JoinNullish(s, at + |l|, |r|, At(s, at, base, env.globals), n, base', a, env1, n2, base2,
                              Eval(s.nm, Compiled, e.rhs, env1));
  }

  // ---- Conditionals ----

  lemma ConditionalEval(nm: Numerics, e: Expr, env: Env)
    requires e.Conditional?
    ensures Eval(nm, Compiled, e, env) == match Eval(nm, Compiled, e.condition, env)
                                case Fail(err, g) => Fail(err, g)
                                case Val(v, env1) =>
                                  if IsTruthy(nm, v) then Eval(nm, Compiled, e.thenExpr, env1)
                                    else Eval(nm, Compiled, e.elseExpr, env1)
  {
  }

  lemma {:induction false} RunConditional(s: Site, at: nat, e: Expr, base: seq<Value>, env: Env)
      returns (n: nat, base': seq<Value>)
    requires e.Conditional?
    requires ExprCode(s.nm, e, s.locals).Ok? && CodeAt(s.P, at, ExprCode(s.nm, e, s.locals).value)
    requires Fits(s, base, env.frames)
    ensures n > 0
    ensures Computes(s, At(s, at, base, env.globals), n, at + |ExprCode(s.nm, e, s.locals).value|, base',
                     Eval(s.nm, Compiled, e, env))
    decreases e, 0
  {
    hide RunN, Eval, ExprCode, FoldConst, Mirrors;
    var c, t, f := ConditionalCode(s.nm, e, s.locals);
    ConditionalEval(s.nm, e, env);
    var m0 := At(s, at, base, env.globals);
    CodeAtSplit5(s.P, at, c, [J(IfFalse, 2 + |t|)], t, [J(Always, 1 + |f|)], f);
    n, base' := RunExpr(s, at, e.condition, base, env);
    match Eval(s.nm, Compiled, e.condition, env)
    case Fail(_, _) =>
    case Val(v, env1) =>
      JoinTest(s, at + |c|, 2 + |t|, m0, n, base', v, env1);
      if IsTruthy(s.nm, v) {
        var n2, base2 := RunExpr(s, at + |c| + 1, e.thenExpr, base', env1);
        var r := Eval(s.nm, Compiled, e.thenExpr, env1);
        ComputesAfter(s, m0, n + 1, At(s, at + |c| + 1, base', env1.globals), n2, at + |c| + 1 + |t|, base2, r);
        JoinGoto(s, at + |c| + 1 + |t|, 1 + |f|, m0, n + 1 + n2, base2, r);
        n, base' := n + 1 + n2 + (if r.Val? then 1 else 0), base2;
      } else {
        var n2, base2 := RunExpr(s, at + |c| + 2 + |t|, e.elseExpr, base', env1);
        ComputesAfter(s, m0, n + 1, At(s, at + |c| + 2 + |t|, base', env1.globals), n2, at + |c| + 2 + |t| + |f|,
                      base2, Eval(s.nm, Compiled, e.elseExpr, env1));
        n, base' := n + 1 + n2, base2;
      }
  }
}
