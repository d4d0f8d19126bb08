/** What a program means: a big-step evaluator over the syntax tree.
    Scopes are frames of cells, innermost last; a name no frame holds is a global. Entering a block creates the
    cells of all the names it declares, not yet ready to be read; a declaration fills its cell and makes it ready. */
module Semantics {
  import opened Syntax
  import opened Values

  /** Who gives the program its meaning: the tree-walking interpreter, the compiled code on the virtual machine, or both
      at once. A run of `Both` stops with `Parts` at the first step the two take differently. */
  datatype Backend = Walking | Compiled | Both

  type Globals = map<string, (Value, bool)>

  datatype Cell = Cell(value: Value, ready: bool, isConst: bool)

  type Frame = map<Name, Cell>

  datatype Env = Env(frames: seq<Frame>, globals: Globals)

  datatype Evaluation =
    | Val(value: Value, env: Env)
    | Fail(error: RuntimeError, globals: Globals)

  datatype Outcome =
    | Normal(env: Env)
    | Broke(target: Option<Name>, env: Env)
    | Continued(target: Option<Name>, env: Env)
    | Returned(value: Value, globals: Globals)
    | Failed(error: RuntimeError, globals: Globals)
    | OutOfFuel

  // ---- Variables ----

  /** The index just past the innermost frame that holds `x`, or 0. */
  function Holder(frames: seq<Frame>, x: Name): (k: nat)
    ensures k <= |frames|
    ensures k > 0 ==> x in frames[k - 1]
    ensures forall j :: k <= j < |frames| ==> x !in frames[j]
  {
    if frames == [] then 0
    else if x in frames[|frames| - 1] then |frames|
    else Holder(frames[..|frames| - 1], x)
  }

  function ReadVar(env: Env, x: Name): Evaluation {
    var k := Holder(env.frames, x);
    if k > 0 then
      var cell := env.frames[k - 1][x];
      if cell.ready then Val(cell.value, env) else Fail(ReadBeforeInit(x), env.globals)
    else if x in env.globals then Val(env.globals[x].0, env)
    else Fail(NotDefined(x), env.globals)
  }

  /** The index just past the innermost frame whose `x` is ready, or 0. */
  function ReadyHolder(frames: seq<Frame>, x: Name): (k: nat)
    ensures k <= |frames|
    ensures k > 0 ==> x in frames[k - 1] && frames[k - 1][x].ready
    ensures forall j :: k <= j < |frames| ==> !(x in frames[j] && frames[j][x].ready)
  {
    if frames == [] then 0
    else if x in frames[|frames| - 1] && frames[|frames| - 1][x].ready then |frames|
    else ReadyHolder(frames[..|frames| - 1], x)
  }

  /** `Environment::is_const`: any scope on the chain, shadowed ones included. */
  predicate ConstOnChain(env: Env, x: Name) {
    || (exists k :: 0 <= k < |env.frames| && x in env.frames[k] && env.frames[k][x].isConst)
    || (x in env.globals && env.globals[x].1)
  }

  function StoreAt(env: Env, k: nat, x: Name, v: Value): Evaluation
    requires 0 < k <= |env.frames| && x in env.frames[k - 1]
  {
    var cell := env.frames[k - 1][x].(value := v);
    Val(v, env.(frames := env.frames[k - 1 := env.frames[k - 1][x := cell]]))
  }

  function StoreGlobal(env: Env, x: Name, v: Value): Evaluation {
    if x !in env.globals then Fail(NotDefined(x), env.globals)
    else if env.globals[x].1 then Fail(ConstAssignment(x), env.globals)
    else Val(v, env.(globals := env.globals[x := (v, false)]))
  }

  /** What keeps the backends from storing to `x` alike, if anything. */
  function StoreParting(env: Env, x: Name): Option<Parting> {
    var k := Holder(env.frames, x);
    if k == 0 then None
    else if ConstOnChain(env, x) then Some(StoreOverConst(x))
    else if !env.frames[k - 1][x].ready then Some(StoreUnready(x))
    else None
  }

  /** Assignment does not make a cell ready: only its declaration does. The interpreter passes over the cells that are
      not ready and refuses a name that is constant anywhere on the chain. Compiled code stores to the innermost cell:
      for a constant one it was never compiled. */
  function AssignVar(bk: Backend, env: Env, x: Name, v: Value): Evaluation {
    if bk.Both? && StoreParting(env, x).Some? then Fail(Parts(StoreParting(env, x).value), env.globals)
    else if bk.Walking? && ConstOnChain(env, x) then Fail(ConstAssignment(x), env.globals)
    else
      var k := if bk.Walking? then ReadyHolder(env.frames, x) else Holder(env.frames, x);
      if k > 0 then StoreAt(env, k, x, v) else StoreGlobal(env, x, v)
  }

  /** Whether the current scope already has `x` as a constant. */
  predicate WasConst(env: Env, x: Name) {
    if env.frames == [] then x in env.globals && env.globals[x].1
    else
      var top := env.frames[|env.frames| - 1];
      x in top && top[x].isConst
  }

  /** The interpreter never takes a name out of a scope's set of constants. */
  function DeclareVar(bk: Backend, env: Env, x: Name, v: Value, isConst: bool): Env {
    var fixed := isConst || (!bk.Compiled? && WasConst(env, x));
    if env.frames == [] then env.(globals := env.globals[x := (v, fixed)])
    else
      var top := |env.frames| - 1;
      env.(frames := env.frames[top := env.frames[top][x := Cell(v, true, fixed)]])
  }

  // ---- Operators ----

  /** The operators for which the interpreter wants two numbers or two big integers; compiled code converts. */
  predicate WantsNumbers(op: VmBinary, a: Value, b: Value) {
    && (op.SubOp? || op.MulOp? || op.DivOp? || op.ModOp? || op.PowOp?)
    && !a.Big? && !b.Big? && !(a.Number? && b.Number?)
  }

  function BinaryStep(nm: Numerics, bk: Backend, op: VmBinary, a: Value, b: Value): Result<Value, RuntimeError> {
    if bk.Compiled? || !WantsNumbers(op, a, b) then ApplyBinary(nm, op, a, b)
    else Err(if bk.Walking? then NeedsNumbers else Parts(OperandsOf(op)))
  }

  /** The machine's form of the operators whose operands are both evaluated. */
  function VmForm(op: BinaryOp): Option<VmBinary> {
    match op
    case Add => Some(AddOp)
    case Sub => Some(SubOp)
    case Mul => Some(MulOp)
    case Div => Some(DivOp)
    case Mod => Some(ModOp)
    case Exp => Some(PowOp)
    case Equals => Some(EqOp)
    case NotEquals => Some(NeOp)
    case StrictEquals => Some(StrictEqOp)
    case StrictNotEquals => Some(StrictNeOp)
    case Less => Some(LtOp)
    case Greater => Some(GtOp)
    case LessOrEqual => Some(LeOp)
    case GreaterOrEqual => Some(GeOp)
    case BitAnd => Some(BitAndOp)
    case BitOr => Some(BitOrOp)
    case BitXor => Some(BitXorOp)
    case LeftShift => Some(ShlOp)
    case RightShift => Some(ShrOp)
    case UnsignedRightShift => Some(UShrOp)
    case _ => None
  }

  function Operate(nm: Numerics, bk: Backend, op: BinaryOp, a: Value, b: Value): Option<Result<Value, RuntimeError>> {
    match VmForm(op)
    case Some(vop) => Some(BinaryStep(nm, bk, vop, a, b))
    case None => None
  }

  /** The arithmetic operator inside a compound assignment such as `+=`. */
  function CompoundBase(op: BinaryOp): Option<BinaryOp> {
    match op
    case PlusAssign => Some(Add)
    case MinusAssign => Some(Sub)
    case MulAssign => Some(Mul)
    case DivAssign => Some(Div)
    case ExpAssign => Some(Exp)
    case ModAssign => Some(Mod)
    case BitAndAssign => Some(BitAnd)
    case BitOrAssign => Some(BitOr)
    case BitXorAssign => Some(BitXor)
    case ShlAssign => Some(LeftShift)
    case ShrAssign => Some(RightShift)
    case UshrAssign => Some(UnsignedRightShift)
    case _ => None
  }

  /** Whether `op` stops after its left operand `a`, whose value is then the result. */
  predicate ShortCircuits(nm: Numerics, op: BinaryOp, a: Value) {
    match op
    case And => !IsTruthy(nm, a)
    case AndAssign => !IsTruthy(nm, a)
    case Or => IsTruthy(nm, a)
    case OrAssign => IsTruthy(nm, a)
    case NullishCoalescing => !IsNullish(a)
    case NullishAssign => !IsNullish(a)
    case _ => false
  }

  function RemoveUnderscores(s: string): string {
    if s == "" then ""
    else (if s[0] == '_' then "" else [s[0]]) + RemoveUnderscores(s[1..])
  }

  function LiteralValue(nm: Numerics, l: Literal): Value {
    match l
    case NumberLit(raw) => Number(nm.parse(RemoveUnderscores(raw)))
    case BigIntLit(i) => Big(i)
    case TextLit(s) => Str(s)
    case BoolLit(b) => Bool(b)
    case NullLit => Null
    case UndefinedLit => Undefined
  }

  /** A literal the interpreter rejects: it reads as no number. */
  predicate Unreadable(nm: Numerics, l: Literal) {
    l.NumberLit? && var n := nm.parse(RemoveUnderscores(l.raw)); nm.partialCmp(n, n).None?
  }

  function LiteralStep(nm: Numerics, bk: Backend, l: Literal, env: Env): Evaluation {
    if bk.Compiled? || !Unreadable(nm, l) then Val(LiteralValue(nm, l), env)
    else Fail(if bk.Walking? then InvalidNumber(l.raw) else Parts(BadLiteral(l.raw)), env.globals)
  }

  function OfResult(r: Result<Value, RuntimeError>, env: Env): Evaluation {
    match r
    case Ok(v) => Val(v, env)
    case Err(e) => Fail(e, env.globals)
  }

  function UnaryResult(nm: Numerics, bk: Backend, op: UnaryOp, v: Value): Result<Value, RuntimeError> {
    match op
    case Plus => ApplyUnary(nm, PosOp, v)
    case Minus => ApplyUnary(nm, NegOp, v)
    case Not => Ok(Bool(!IsTruthy(nm, v)))
    case BitwiseNot =>
      if bk.Compiled? || v.Number? then ApplyUnary(nm, BitNotOp, v)
      else Err(if bk.Walking? then NeedsNumber else Parts(ComplementOf(v)))
    case Typeof => Ok(Str(TypeofText(v)))
    case Delete => Ok(Bool(true))
    case Void => Ok(Undefined)
  }

  // ---- Expressions ----

  /** The interpreter gives `typeof` of an undeclared name the text of `undefined` and does not evaluate what `delete`
      is applied to (members aside, which are not modelled). Assignments to anything but a plain name, and the operators
      outside the modelled fragment, never get past the compiler; their value here does not matter. */
  function Eval(nm: Numerics, bk: Backend, e: Expr, env: Env): Evaluation
    decreases e
  {
    match e
    case Identifier(x) => ReadVar(env, x)
    case Lit(l) => LiteralStep(nm, bk, l, env)
    case Grouping(inner) => Eval(nm, bk, inner, env)
    case Unary(op, operand) =>
      if !bk.Compiled? && MissingTypeof(op, operand, env) then
        if bk.Walking? then Val(Str(TypeofText(Undefined)), env)
          else Fail(Parts(TypeofMissing(operand.name)), env.globals)
      else if !bk.Compiled? && op.Delete? then
        var r := Eval(nm, Compiled, operand, env);
        if bk.Walking? || (r.Val? && r.env == env) then Val(Bool(true), env) else Fail(Parts(DeleteEffect), env.globals)
      else
        (match Eval(nm, bk, operand, env)
         case Fail(err, g) => Fail(err, g)
         case Val(v, env1) => OfResult(UnaryResult(nm, bk, op, v), env1))
    case Binary(op, lhs, rhs) =>
      if op == Assign then
        (match Eval(nm, bk, rhs, env)
         case Fail(err, g) => Fail(err, g)
         case Val(v, env1) => if lhs.Identifier? then AssignVar(bk, env1, lhs.name, v) else Val(v, env1))
      else
        (match Eval(nm, bk, lhs, env)
         case Fail(err, g) => Fail(err, g)
         case Val(a, env1) =>
           if ShortCircuits(nm, op, a) then Val(a, env1)
           else
             (match Eval(nm, bk, rhs, env1)
              case Fail(err, g) => Fail(err, g)
              case Val(b, env2) => FinishBinary(nm, bk, op, lhs, a, b, env2)))
    case Assignment(x, value) =>
      (match Eval(nm, bk, value, env)
       case Fail(err, g) => Fail(err, g)
       case Val(v, env1) => AssignVar(bk, env1, x, v))
    case Postfix(op, operand) =>
      if !operand.Identifier? then Val(Undefined, env)
      else
        (match ReadForStep(bk, env, operand.name)
         case Fail(err, g) => Fail(err, g)
         case Val(v, env1) => Step(nm, bk, op, operand.name, v, env1))
    case Conditional(c, t, f) =>
      (match Eval(nm, bk, c, env)
       case Fail(err, g) => Fail(err, g)
       case Val(v, env1) => if IsTruthy(nm, v) then Eval(nm, bk, t, env1) else Eval(nm, bk, f, env1))
  }

  /** `typeof` of a name that nothing declares. */
  predicate MissingTypeof(op: UnaryOp, operand: Expr, env: Env) {
    op.Typeof? && operand.Identifier? && Holder(env.frames, operand.name) == 0 && operand.name !in env.globals
  }

  /** The part of a binary operator after both operands have values. */
  function FinishBinary(nm: Numerics, bk: Backend, op: BinaryOp, lhs: Expr, a: Value, b: Value, env: Env): Evaluation {
    if op.And? || op.Or? || op.NullishCoalescing? then Val(b, env)
    else if op.AndAssign? || op.OrAssign? || op.NullishAssign? then
      if lhs.Identifier? then AssignVar(bk, env, lhs.name, b) else Val(b, env)
    else
      match CompoundBase(op)
      case Some(base) =>
        (match Operate(nm, bk, base, a, b)
         case Some(Err(err)) => Fail(err, env.globals)
         case Some(Ok(v)) => if lhs.Identifier? then AssignVar(bk, env, lhs.name, v) else Val(v, env)
         case None => Val(Undefined, env))
      case None =>
        (match Operate(nm, bk, op, a, b)
         case Some(r) => OfResult(r, env)
         case None => Val(Undefined, env))
  }

  /** The value `x++` starts from. The interpreter looks it up as a store would, past cells that are not ready. */
  function ReadForStep(bk: Backend, env: Env, x: Name): Evaluation {
    match bk
    case Compiled => ReadVar(env, x)
    case Walking =>
      var k := ReadyHolder(env.frames, x);
      if k > 0 then Val(env.frames[k - 1][x].value, env)
      else if x in env.globals then Val(env.globals[x].0, env)
      else Fail(NotDefined(x), env.globals)
    case Both =>
      if Holder(env.frames, x) > 0 && !env.frames[Holder(env.frames, x) - 1][x].ready then
        Fail(Parts(StepUnready(x)), env.globals)
      else ReadVar(env, x)
  }

  /** `x++` and `x--`: the value is the old one. The interpreter wants it to be a number, compiled code converts it. */
  function Step(nm: Numerics, bk: Backend, op: PostfixOp, x: Name, v: Value, env: Env): Evaluation {
    if !bk.Compiled? && !v.Number? then Fail(if bk.Walking? then NeedsNumber else Parts(StepOf(v)), env.globals)
    else
      match ApplyUnary(nm, PosOp, v)
      case Err(err) => Fail(err, env.globals)
      case Ok(before) =>
        (match ApplyBinary(nm, if op.Increment? then AddOp else SubOp, before, Number(nm.one))
         case Err(err) => Fail(err, env.globals)
         case Ok(after) =>
           (match AssignVar(bk, env, x, after)
            case Fail(err, g) => Fail(err, g)
            case Val(_, env1) => Val(before, env1)))
  }

  // ---- Statements ----

  /** The cells a statement list creates on entry. */
  function DeclaredNames(stmts: seq<Stmt>): set<Name> {
    set s | s in stmts && s.VarDecl? :: s.name
  }

  function UnreadyCells(names: set<Name>): (r: Frame)
    ensures r.Keys == names && forall x :: x in names ==> r[x] == Cell(Undefined, false, false)
  {
    map x | x in names :: Cell(Undefined, false, false)
  }

  function EnterBlock(env: Env, stmts: seq<Stmt>): Env {
    env.(frames := env.frames + [UnreadyCells(DeclaredNames(stmts))])
  }

  function EnterScope(env: Env): Env {
    env.(frames := env.frames + [map[]])
  }

  function LeaveEnv(env: Env): Env {
    if env.frames == [] then env else env.(frames := env.frames[..|env.frames| - 1])
  }

  function LeaveScope(o: Outcome): Outcome {
    match o
    case Normal(env) => Normal(LeaveEnv(env))
    case Broke(l, env) => Broke(l, LeaveEnv(env))
    case Continued(l, env) => Continued(l, LeaveEnv(env))
    case _ => o
  }

  /** Whether a jump aimed at `target` stops at a loop labelled `tag`. */
  predicate StopsAt(target: Option<Name>, tag: Option<Name>) {
    target.None? || target == tag
  }

  /** `fuel` bounds how often any one loop may start over; everything else terminates by itself. */
  function Exec(nm: Numerics, bk: Backend, s: Stmt, tag: Option<Name>, env: Env, fuel: nat): Outcome
    decreases fuel, s, 1
  {
    match s
    case VarDecl(x, init, isConst) =>
      (match Eval(nm, bk, init, env)
       case Fail(err, g) => Failed(err, g)
       case Val(v, env1) =>
         if bk.Both? && WasConst(env1, x) && !isConst then Failed(Parts(ConstRedeclared(x)), env1.globals)
         else Normal(DeclareVar(bk, env1, x, v, isConst)))
    case ExprStmt(e) =>
      (match Eval(nm, bk, e, env)
       case Fail(err, g) => Failed(err, g)
       case Val(_, env1) => Normal(env1))
    case BlockStmt(block) => ExecBlock(nm, bk, block, env, fuel)
    case Empty => Normal(env)
    case If(c, t, f) =>
      (match Eval(nm, bk, c, env)
       case Fail(err, g) => Failed(err, g)
       case Val(v, env1) =>
         if IsTruthy(nm, v) then Exec(nm, bk, t, None, env1, fuel)
         else if f.Some? then Exec(nm, bk, f.value, None, env1, fuel)
         else Normal(env1))
    case While(c, body) =>
      if fuel == 0 then OutOfFuel
      else
        (match Eval(nm, bk, c, env)
         case Fail(err, g) => Failed(err, g)
         case Val(v, env1) =>
           if !IsTruthy(nm, v) then Normal(env1)
           else
             var o := Exec(nm, bk, body, None, env1, fuel);
             (match AfterBody(o, tag)
              case Again(env2) => Exec(nm, bk, s, tag, env2, fuel - 1)
              case Stop(o') => o'))
    case DoWhile(body, c) =>
      if fuel == 0 then OutOfFuel
      else
        var o := Exec(nm, bk, body, None, env, fuel);
        (match AfterBody(o, tag)
         case Stop(o') => o'
         case Again(env1) =>
           (match Eval(nm, bk, c, env1)
            case Fail(err, g) => Failed(err, g)
            case Val(v, env2) => if IsTruthy(nm, v) then Exec(nm, bk, s, tag, env2, fuel - 1) else Normal(env2)))
    case For(init, c, u, body) =>
      var env0 := EnterScope(env);
      var o := if init.Some? then Exec(nm, bk, init.value, None, env0, fuel) else Normal(env0);
      LeaveScope(if o.Normal? then ExecFor(nm, bk, c, u, body, tag, o.env, fuel) else o)
    case Switch(e, cases, d) =>
      (match Eval(nm, bk, e, env)
       case Fail(err, g) => Failed(err, g)
       case Val(v, env1) =>
         LeaveScope(
           match Select(nm, bk, v, cases, 0, EnterScope(env1))
           case Raised(err, g) => Failed(err, g)
           case Chosen(i, env2) =>
             ExecBlock(nm, bk, cases[i].body, env2, fuel)
           case NoMatch(env2) =>
             if d.None? then Normal(env2)
             else ExecBlock(nm, bk, d.value, env2, fuel)))
    case Labeled(l, body) =>
      if IsLoop(body) then Exec(nm, bk, body, Some(l), env, fuel)
      else
        var o := Exec(nm, bk, body, None, env, fuel);
        if o.Broke? && o.target == Some(l) then Normal(o.env)
        else if o.Continued? && o.target == Some(l) then ContinueOut(bk, l, o)
        else o
    case Break(l) => Broke(l, env)
    case Continue(l) => Continued(l, env)
    case Return(None) => Returned(Undefined, env.globals)
    case Return(Some(e)) =>
      (match Eval(nm, bk, e, env)
       case Fail(err, g) => Failed(err, g)
       case Val(v, env1) => Returned(v, env1.globals))
    case Throw(e) =>
      (match Eval(nm, bk, e, env)
       case Fail(err, g) => Failed(err, g)
       case Val(v, env1) => Failed(Thrown(v), env1.globals))
  }

  /** A `continue` aimed at a labelled statement that is no loop. The interpreter takes it for a `break`; compiled code
      looks further out for a loop of that label. */
  function ContinueOut(bk: Backend, l: Name, o: Outcome): Outcome
    requires o.Continued?
  {
    match bk
    case Walking => Normal(o.env)
    case Compiled => o
    case Both => Failed(Parts(CaughtContinue(l)), o.env.globals)
  }

  datatype BodyEnd = Again(env: Env) | Stop(outcome: Outcome)

  /** How a loop labelled `tag` takes the end of one run of its body. */
  function AfterBody(o: Outcome, tag: Option<Name>): BodyEnd {
    match o
    case Normal(env) => Again(env)
    case Continued(l, env) => if StopsAt(l, tag) then Again(env) else Stop(o)
    case Broke(l, env) => if StopsAt(l, tag) then Stop(Normal(env)) else Stop(o)
    case _ => Stop(o)
  }

  function ExecBlock(nm: Numerics, bk: Backend, block: Block, env: Env, fuel: nat): Outcome
    decreases fuel, block, 1
  {
    LeaveScope(ExecList(nm, bk, block.stmts, EnterBlock(env, block.stmts), fuel))
  }

  function ExecList(nm: Numerics, bk: Backend, stmts: seq<Stmt>, env: Env, fuel: nat): Outcome
    decreases fuel, stmts, 0
  {
    if stmts == [] then Normal(env)
    else
      var o := Exec(nm, bk, stmts[0], None, env, fuel);
      if o.Normal? then ExecList(nm, bk, stmts[1..], o.env, fuel) else o
  }

  /** The iterations of a `for`, inside the scope its initializer opened. */
  function ExecFor(nm: Numerics, bk: Backend, c: Option<Expr>, u: Option<Expr>, body: Stmt, tag: Option<Name>, env: Env,
                   fuel: nat)
      : Outcome
    decreases fuel, body, 2
  {
    if fuel == 0 then OutOfFuel
    else
      match (if c.Some? then Eval(nm, bk, c.value, env) else Val(Bool(true), env))
      case Fail(err, g) => Failed(err, g)
      case Val(v, env1) =>
        if !IsTruthy(nm, v) then Normal(env1)
        else
          var o := Exec(nm, bk, body, None, env1, fuel);
          match AfterBody(o, tag)
          case Stop(o') => o'
          case Again(env2) =>
            match (if u.Some? then Eval(nm, bk, u.value, env2) else Val(Undefined, env2))
            case Fail(err, g) => Failed(err, g)
            case Val(_, env3) => ExecFor(nm, bk, c, u, body, tag, env3, fuel - 1)
  }

  datatype Selection =
    | Chosen(index: nat, env: Env)
    | NoMatch(env: Env)
    | Raised(error: RuntimeError, globals: Globals)

  /** Case values are evaluated in order up to the first that equals `v`, whose block then runs alone:
      there is no fall-through. */
  function Select(nm: Numerics, bk: Backend, v: Value, cases: seq<SwitchCase>, i: nat, env: Env): (r: Selection)
    requires i <= |cases|
    ensures r.Chosen? ==> i <= r.index < |cases|
    decreases |cases| - i
  {
    if i == |cases| then NoMatch(env)
    else
      match Eval(nm, bk, cases[i].value, env)
      case Fail(err, g) => Raised(err, g)
      case Val(w, env1) => if StrictEq(nm, v, w) then Chosen(i, env1) else Select(nm, bk, v, cases, i + 1, env1)
  }
}
