/** Instructions, and the machine that runs them.
    `Op` is what a chunk stores: absolute jump targets and indices into a constant table. `Instr` is the same
    instruction with its constant looked up and its target relative to the instruction itself, or still symbolic
    when it leaves a loop whose end has not been emitted yet. */
module Bytecode {
  import opened Syntax
  import opened Values
  import opened Semantics

  datatype JumpKind = Always | IfFalse | IfFalsePeek | IfTruePeek | IfNullishPeek | IfNotNullishPeek

  datatype Constant = NumberConst(n: Num) | BigConst(i: int) | TextConst(s: string)

  datatype Op =
    | Constant(idx: nat)
    | PushNull | PushUndefined | PushTrue | PushFalse
    | Pop | Dup
    | UnaryOp(uop: VmUnary)
    | BinaryOp(bop: VmBinary)
    | DefineGlobal(idx: nat, isConst: bool)
    | GetGlobal(idx: nat)
    | SetGlobal(idx: nat)
    | GetLocal(slot: nat)
    | SetLocal(slot: nat)
    | Jump(kind: JumpKind, target: nat)
    | Throw
    | Return

  datatype Target = Rel(delta: int) | BreakOf(loop: nat) | ContinueOf(loop: nat)

  datatype Instr =
    | IPush(v: Value)
    | IPop | IDup
    | IUnary(uop: VmUnary)
    | IBinary(bop: VmBinary)
    | IDefine(name: Name, isConst: bool)
    | IGetGlobal(name: Name)
    | ISetGlobal(name: Name)
    | IGetLocal(slot: nat)
    | ISetLocal(slot: nat)
    | IJump(kind: JumpKind, target: Target)
    | IThrow
    | IReturn

  function ConstValue(c: Constant): Value {
    match c
    case NumberConst(n) => Number(n)
    case BigConst(i) => Big(i)
    case TextConst(s) => Str(s)
  }

  /** Every constant an instruction names exists, and the name of a global is a string. */
  predicate OpOk(op: Op, consts: seq<Constant>) {
    match op
    case Constant(idx) => idx < |consts|
    case DefineGlobal(idx, _) => idx < |consts| && consts[idx].TextConst?
    case GetGlobal(idx) => idx < |consts| && consts[idx].TextConst?
    case SetGlobal(idx) => idx < |consts| && consts[idx].TextConst?
    case _ => true
  }

  /** The meaning of the operation at position `at`. */
  function Lift(op: Op, consts: seq<Constant>, at: nat): Instr
    requires OpOk(op, consts)
  {
    match op
    case Constant(idx) => IPush(ConstValue(consts[idx]))
    case PushNull => IPush(Null)
    case PushUndefined => IPush(Undefined)
    case PushTrue => IPush(Bool(true))
    case PushFalse => IPush(Bool(false))
    case Pop => IPop
    case Dup => IDup
    case UnaryOp(op) => IUnary(op)
    case BinaryOp(op) => IBinary(op)
    case DefineGlobal(idx, isConst) => IDefine(consts[idx].s, isConst)
    case GetGlobal(idx) => IGetGlobal(consts[idx].s)
    case SetGlobal(idx) => ISetGlobal(consts[idx].s)
    case GetLocal(slot) => IGetLocal(slot)
    case SetLocal(slot) => ISetLocal(slot)
    case Jump(kind, target) => IJump(kind, Rel(target - at))
    case Throw => IThrow
    case Return => IReturn
  }

  // ---- The machine ----

  /** `Done` carries what a script leaves on the stack; `Stuck` is where the virtual machine would panic. */
  datatype Machine =
    | Running(ip: int, stack: seq<Value>, globals: Globals)
    | Done(value: Value, globals: Globals)
    | Crashed(error: RuntimeError, globals: Globals)
    | Stuck

  predicate Halted(m: Machine) {
    !m.Running?
  }

  predicate JumpTaken(nm: Numerics, kind: JumpKind, top: Value) {
    match kind
    case Always => true
    case IfFalse => !IsTruthy(nm, top)
    case IfFalsePeek => !IsTruthy(nm, top)
    case IfTruePeek => IsTruthy(nm, top)
    case IfNullishPeek => IsNullish(top)
    case IfNotNullishPeek => !IsNullish(top)
  }

  /** What an instruction that is no jump does at `ip` (crates/yps-vm/src/vm.rs:240-464, 523-526, 624-633). */
  function Perform(nm: Numerics, i: Instr, ip: int, st: seq<Value>, g: Globals): Machine
    requires !i.IJump?
  {
    var n := |st|;
    match i
    case IPush(v) => Running(ip + 1, st + [v], g)
    case IPop => if n == 0 then Stuck else Running(ip + 1, st[..n - 1], g)
    case IDup => if n == 0 then Stuck else Running(ip + 1, st + [st[n - 1]], g)
    case IUnary(op) =>
      if n == 0 then Stuck
      else
        (match ApplyUnary(nm, op, st[n - 1])
         case Ok(v) => Running(ip + 1, st[..n - 1] + [v], g)
         case Err(e) => Crashed(e, g))
    case IBinary(op) =>
      if n < 2 then Stuck
      else
        (match ApplyBinary(nm, op, st[n - 2], st[n - 1])
         case Ok(v) => Running(ip + 1, st[..n - 2] + [v], g)
         case Err(e) => Crashed(e, g))
    case IDefine(x, isConst) =>
      if n == 0 then Stuck else Running(ip + 1, st[..n - 1], g[x := (st[n - 1], isConst)])
    case IGetGlobal(x) =>
      if x in g then Running(ip + 1, st + [g[x].0], g) else Crashed(NotDefined(x), g)
    case ISetGlobal(x) =>
      if n == 0 then Stuck
      else if x !in g then Crashed(NotDefined(x), g)
      else if g[x].1 then Crashed(ConstAssignment(x), g)
      else Running(ip + 1, st, g[x := (st[n - 1], false)])
    case IGetLocal(slot) => if slot < n then Running(ip + 1, st + [st[slot]], g) else Stuck
    case ISetLocal(slot) => if slot < n then Running(ip + 1, st[slot := st[n - 1]], g) else Stuck
    case IThrow => if n == 0 then Stuck else Crashed(Thrown(st[n - 1]), g)
    case IReturn => if n == 0 then Stuck else Done(st[n - 1], g)
  }

  function StepTo(nm: Numerics, i: Instr, m: Machine): Machine
    requires m.Running?
  {
    if i.IJump? then
      var n := |m.stack|;
      if i.target.Rel? && (i.kind.Always? || n > 0) then
        var taken := i.kind.Always? || JumpTaken(nm, i.kind, m.stack[n - 1]);
        var st := if i.kind.IfFalse? then m.stack[..n - 1] else m.stack;
        Running(if taken then m.ip + i.target.delta else m.ip + 1, st, m.globals)
      else Stuck
    else Perform(nm, i, m.ip, m.stack, m.globals)
  }

  function StepOnce(nm: Numerics, P: seq<Instr>, m: Machine): Machine {
    if m.Running? then
      if 0 <= m.ip < |P| then StepTo(nm, P[m.ip], m) else Stuck
    else m
  }

  /** `n` steps; a machine that has halted stays as it is. */
  function RunN(nm: Numerics, P: seq<Instr>, m: Machine, n: nat): Machine
    decreases n
  {
    if n == 0 then m else RunN(nm, P, StepOnce(nm, P, m), n - 1)
  }

  lemma {:induction false} RunAdd(nm: Numerics, P: seq<Instr>, m: Machine, a: nat, b: nat)
    ensures RunN(nm, P, m, a + b) == RunN(nm, P, RunN(nm, P, m, a), b)
    decreases a
  {
    if a > 0 {
      RunAdd(nm, P, StepOnce(nm, P, m), a - 1, b);
    }
  }

  lemma {:induction false} HaltedStays(nm: Numerics, P: seq<Instr>, m: Machine, n: nat)
    requires Halted(m)
    ensures RunN(nm, P, m, n) == m
    decreases n
  {
    if n > 0 {
      HaltedStays(nm, P, m, n - 1);
    }
  }

  // ---- The machine on stored operations ----

  /** A finished chunk. */
  datatype Code = Code(ops: seq<Op>, consts: seq<Constant>) {
    predicate Ok() {
      forall k :: 0 <= k < |ops| ==> OpOk(ops[k], consts)
    }

    function Instrs(): (r: seq<Instr>)
      requires Ok()
    {
      seq(|ops|, k requires 0 <= k < |ops| => Lift(ops[k], consts, k))
    }
  }

  /** The dispatch loop of `run_region` on a stored chunk, absolute targets and constant indices included. */
  function StepOp(nm: Numerics, c: Code, m: Machine): Machine {
    if !m.Running? then m
    else if !(0 <= m.ip < |c.ops|) || !OpOk(c.ops[m.ip], c.consts) then Stuck
    else
      var op := c.ops[m.ip];
      if op.Jump? then
        var n := |m.stack|;
        if op.kind.Always? then m.(ip := op.target)
        else if n == 0 then Stuck
        else
          var st := if op.kind.IfFalse? then m.stack[..n - 1] else m.stack;
          Running(if JumpTaken(nm, op.kind, m.stack[n - 1]) then op.target else m.ip + 1, st, m.globals)
      else Perform(nm, Lift(op, c.consts, m.ip), m.ip, m.stack, m.globals)
  }

  function RunOps(nm: Numerics, c: Code, m: Machine, n: nat): Machine
    decreases n
  {
    if n == 0 then m else RunOps(nm, c, StepOp(nm, c, m), n - 1)
  }

  /** Resolving constants and making targets relative does not change a run. */
  lemma {:induction false} RunOpsIsRun(nm: Numerics, c: Code, m: Machine, n: nat)
    requires c.Ok()
    ensures RunOps(nm, c, m, n) == RunN(nm, c.Instrs(), m, n)
    decreases n
  {
    if n > 0 {
      assert StepOp(nm, c, m) == StepOnce(nm, c.Instrs(), m);
      RunOpsIsRun(nm, c, StepOp(nm, c, m), n - 1);
    }
  }
}
