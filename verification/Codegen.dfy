/** The code each construct stands for, written down directly: no back-patching, no running state.
    Jumps are relative, so a piece of code means the same wherever it is placed. A `break` or `continue` is left
    symbolic until the loop it belongs to is complete, when `CloseLoop` fills in its distance. */
module Codegen {
  import opened Syntax
  import opened Values
  import opened Semantics
  import opened Bytecode
  import opened Folding

  /** A slot of the operand stack known at compile time. The first slot and the compiler's temporaries have no name. */
  datatype Local = Local(name: Option<Name>, depth: nat, isConst: bool, initialized: bool)

  datatype LoopInfo = LoopInfo(localsCount: nat, tag: Option<Name>, isLoop: bool)

  datatype CompileError =
    | UsedBeforeInit(name: Name)
    | AssignToConst(name: Name)
    | LabelNotFound(name: Name)
    | LoopLabelNotFound(name: Name)
    | BreakOutsideLoop
    | ContinueOutsideLoop
    | BadAssignmentTarget
    | BadPostfixTarget
    | Unsupported

  type CodeResult = Result<seq<Instr>, CompileError>

  /** Where a statement is compiled: the stack slots in use, the scope depth and the enclosing loops. */
  datatype Context = Context(locals: seq<Local>, depth: nat, loops: seq<LoopInfo>)

  datatype Gen = Gen(code: seq<Instr>, locals: seq<Local>)

  // ---- Variables ----

  /** The innermost slot named `x`. */
  function ResolveLocal(locals: seq<Local>, x: Name): (r: Option<nat>)
    ensures r.Some? ==> r.value < |locals| && locals[r.value].name == Some(x)
    ensures forall j :: (if r.Some? then r.value + 1 else 0) <= j < |locals| ==> locals[j].name != Some(x)
  {
    if locals == [] then None
    else if locals[|locals| - 1].name == Some(x) then Some(|locals| - 1)
    else ResolveLocal(locals[..|locals| - 1], x)
  }

  function GetCode(locals: seq<Local>, x: Name): CodeResult {
    match ResolveLocal(locals, x)
    case Some(slot) => if locals[slot].initialized then Ok([IGetLocal(slot)]) else Err(UsedBeforeInit(x))
    case None => Ok([IGetGlobal(x)])
  }

  function SetCode(locals: seq<Local>, x: Name): CodeResult {
    match ResolveLocal(locals, x)
    case Some(slot) => if locals[slot].isConst then Err(AssignToConst(x)) else Ok([ISetLocal(slot)])
    case None => Ok([ISetGlobal(x)])
  }

  // ---- Operators ----

  function UnaryInstr(op: UnaryOp): VmUnary
    requires !op.Void? && !op.Delete?
  {
    match op
    case Plus => PosOp
    case Minus => NegOp
    case Not => NotOp
    case BitwiseNot => BitNotOp
    case Typeof => TypeofOp
  }

  /** What follows the operand: `void` and `delete` drop its value. */
  function UnaryTail(op: UnaryOp): seq<Instr> {
    if op.Void? then [IPop, IPush(Undefined)]
    else if op.Delete? then [IPop, IPush(Bool(true))]
    else [IUnary(UnaryInstr(op))]
  }

  function BinaryInstr(op: BinaryOp): Option<VmBinary> {
    match op
    case Add => Some(AddOp)
    case Sub => Some(SubOp)
    case Mul => Some(MulOp)
    case Div => Some(DivOp)
    case Mod => Some(ModOp)
    case Exp => Some(PowOp)
    case Equals => Some(EqOp)
    case NotEquals => Some(NeOp)
    case StrictEquals => Some(StrictEqOp)
    case StrictNotEquals => Some(StrictNeOp)
    case Less => Some(LtOp)
    case Greater => Some(GtOp)
    case LessOrEqual => Some(LeOp)
    case GreaterOrEqual => Some(GeOp)
    case BitAnd => Some(BitAndOp)
    case BitOr => Some(BitOrOp)
    case BitXor => Some(BitXorOp)
    case LeftShift => Some(ShlOp)
    case RightShift => Some(ShrOp)
    case UnsignedRightShift => Some(UShrOp)
    case _ => None
  }

  function CompoundInstr(op: BinaryOp): Option<VmBinary> {
    match op
    case PlusAssign => Some(AddOp)
    case MinusAssign => Some(SubOp)
    case MulAssign => Some(MulOp)
    case DivAssign => Some(DivOp)
    case ExpAssign => Some(PowOp)
    case ModAssign => Some(ModOp)
    case BitAndAssign => Some(BitAndOp)
    case BitOrAssign => Some(BitOrOp)
    case BitXorAssign => Some(BitXorOp)
    case ShlAssign => Some(ShlOp)
    case ShrAssign => Some(ShrOp)
    case UshrAssign => Some(UShrOp)
    case _ => None
  }

  predicate IsLogicalAssign(op: BinaryOp) {
    op.AndAssign? || op.OrAssign? || op.NullishAssign?
  }

  /** The jump over the right operand of a short-circuiting operator. */
  function ShortJump(op: BinaryOp): JumpKind
    requires op.And? || op.Or? || IsLogicalAssign(op)
  {
    match op
    case And => IfFalsePeek
    case AndAssign => IfFalsePeek
    case Or => IfTruePeek
    case OrAssign => IfTruePeek
    case NullishAssign => IfNotNullishPeek
  }

  // ---- Expressions ----

  function J(kind: JumpKind, delta: int): Instr {
    IJump(kind, Rel(delta))
  }

  function ExprCode(nm: Numerics, e: Expr, locals: seq<Local>): CodeResult {
    match e
    case Identifier(x) => GetCode(locals, x)
    case Lit(l) => Ok([IPush(LiteralValue(nm, l))])
    case Grouping(inner) => ExprCode(nm, inner, locals)
    case Unary(op, operand) =>
      if FoldConst(nm, e).Some? then Ok([IPush(Folded(FoldConst(nm, e).value))])
      else
        var c :- ExprCode(nm, operand, locals);
        Ok(c + UnaryTail(op))
    case Binary(op, lhs, rhs) =>
      if FoldConst(nm, e).Some? then Ok([IPush(Folded(FoldConst(nm, e).value))])
      else if op.Assign? then
        if !lhs.Identifier? then Err(BadAssignmentTarget)
        else
          var r :- ExprCode(nm, rhs, locals);
          var s :- SetCode(locals, lhs.name);
          Ok(r + s)
      else if CompoundInstr(op).Some? then
        if !lhs.Identifier? then Err(BadAssignmentTarget)
        else
          var l :- GetCode(locals, lhs.name);
          var r :- ExprCode(nm, rhs, locals);
          var s :- SetCode(locals, lhs.name);
          Ok(l + r + [IBinary(CompoundInstr(op).value)] + s)
      else if IsLogicalAssign(op) then
        var l :- ExprCode(nm, lhs, locals);
        if !lhs.Identifier? then Err(BadAssignmentTarget)
        else
          var r :- ExprCode(nm, rhs, locals);
          var s :- SetCode(locals, lhs.name);
          Ok(l + [J(ShortJump(op), 2 + |r| + |s|)] + [IPop] + r + s)
      else if op.And? || op.Or? then
        var l :- ExprCode(nm, lhs, locals);
        var r :- ExprCode(nm, rhs, locals);
        Ok(l + [J(ShortJump(op), 2 + |r|)] + [IPop] + r)
      else if op.NullishCoalescing? then
        var l :- ExprCode(nm, lhs, locals);
        var r :- ExprCode(nm, rhs, locals);
        Ok(l + [J(IfNullishPeek, 2)] + [J(Always, 2 + |r|)] + [IPop] + r)
      else if op.Pipeline? then Err(Unsupported)
      else
        var l :- ExprCode(nm, lhs, locals);
        var r :- ExprCode(nm, rhs, locals);
        if BinaryInstr(op).None? then Err(Unsupported)
        else Ok(l + r + [IBinary(BinaryInstr(op).value)])
    case Assignment(x, value) =>
      var r :- ExprCode(nm, value, locals);
      var s :- SetCode(locals, x);
      Ok(r + s)
    case Postfix(op, operand) =>
      if !operand.Identifier? then Err(BadPostfixTarget)
      else
        var g :- GetCode(locals, operand.name);
        var s :- SetCode(locals, operand.name);
        Ok(g + [IUnary(PosOp)] + [IDup] + [IPush(Number(nm.one))]
           + [IBinary(if op.Increment? then AddOp else SubOp)] + s + [IPop])
    case Conditional(c, t, f) =>
      var cc :- ExprCode(nm, c, locals);
      var tc :- ExprCode(nm, t, locals);
      var fc :- ExprCode(nm, f, locals);
      Ok(cc + [J(IfFalse, 2 + |tc|)] + tc + [J(Always, 1 + |fc|)] + fc)
  }

  // ---- Scopes and loops ----

  function Pops(n: nat): (r: seq<Instr>)
    ensures |r| == n && forall k :: 0 <= k < n ==> r[k] == IPop
  {
    seq(n, _ => IPop)
  }

  /** The slots that survive the end of a scope at `depth`. */
  function Surviving(locals: seq<Local>, depth: nat): (r: seq<Local>)
    ensures |r| <= |locals| && r == locals[..|r|]
    ensures |r| > 0 ==> r[|r| - 1].depth < depth
    ensures forall j :: |r| <= j < |locals| ==> locals[j].depth >= depth
  {
    if locals == [] || locals[|locals| - 1].depth < depth then locals
    else Surviving(locals[..|locals| - 1], depth)
  }

  /** The code that leaves the scope at `depth`, after `g`. */
  function LeaveCode(g: Gen, depth: nat): Gen {
    var kept := Surviving(g.locals, depth);
    Gen(g.code + Pops(|g.locals| - |kept|), kept)
  }

  /** Fills in the jumps out of loop `idx`: `breakAt` and `continueAt` are positions in `code`. */
  function CloseInstr(i: Instr, at: int, idx: nat, breakAt: int, continueAt: int): Instr {
    if !i.IJump? then i
    else
      match i.target
      case BreakOf(k) => if k == idx then IJump(i.kind, Rel(breakAt - at)) else i
      case ContinueOf(k) => if k == idx then IJump(i.kind, Rel(continueAt - at)) else i
      case Rel(_) => i
  }

  function CloseLoop(code: seq<Instr>, idx: nat, breakAt: int, continueAt: int): (r: seq<Instr>)
    ensures |r| == |code|
    ensures forall k :: 0 <= k < |code| ==> r[k] == CloseInstr(code[k], k, idx, breakAt, continueAt)
  {
    seq(|code|, k requires 0 <= k < |code| => CloseInstr(code[k], k, idx, breakAt, continueAt))
  }

  predicate Catches(l: LoopInfo, tag: Option<Name>, needLoop: bool) {
    if tag.None? then l.isLoop else l.tag == tag && (!needLoop || l.isLoop)
  }

  /** The innermost enclosing loop or labelled statement a jump is aimed at. */
  function FindLoop(loops: seq<LoopInfo>, tag: Option<Name>, needLoop: bool): (r: Option<nat>)
    ensures r.Some? ==> r.value < |loops| && Catches(loops[r.value], tag, needLoop)
    ensures forall j :: (if r.Some? then r.value + 1 else 0) <= j < |loops| ==> !Catches(loops[j], tag, needLoop)
  {
    if loops == [] then None
    else if Catches(loops[|loops| - 1], tag, needLoop) then Some(|loops| - 1)
    else FindLoop(loops[..|loops| - 1], tag, needLoop)
  }

  function BreakCode(cx: Context, tag: Option<Name>): CodeResult {
    match FindLoop(cx.loops, tag, false)
    case None => Err(if tag.Some? then LabelNotFound(tag.value) else BreakOutsideLoop)
    case Some(i) =>
      var extra := |cx.locals| - cx.loops[i].localsCount;
      Ok(Pops(if extra > 0 then extra else 0) + [IJump(Always, BreakOf(i))])
  }

  function ContinueCode(cx: Context, tag: Option<Name>): CodeResult {
    match FindLoop(cx.loops, tag, true)
    case None => Err(if tag.Some? then LoopLabelNotFound(tag.value) else ContinueOutsideLoop)
    case Some(i) =>
      var extra := |cx.locals| - cx.loops[i].localsCount;
      Ok(Pops(if extra > 0 then extra else 0) + [IJump(Always, ContinueOf(i))])
  }

  function InLoop(cx: Context, tag: Option<Name>, isLoop: bool): Context {
    cx.(loops := cx.loops + [LoopInfo(|cx.locals|, tag, isLoop)])
  }

  function Deeper(cx: Context): Context {
    cx.(depth := cx.depth + 1)
  }

  // ---- Statement lists ----

  /** The slots a local statement list reserves before running anything. */
  function Reserved(stmts: seq<Stmt>, depth: nat): (r: seq<Local>)
    ensures forall k :: 0 <= k < |r| ==> r[k].depth == depth && !r[k].initialized && r[k].name.Some?
  {
    if stmts == [] then []
    else
      (if stmts[0].VarDecl? then [Local(Some(stmts[0].name), depth, stmts[0].isConst, false)] else [])
      + Reserved(stmts[1..], depth)
  }

  function Undefineds(n: nat): (r: seq<Instr>)
    ensures |r| == n && forall k :: 0 <= k < n ==> r[k] == IPush(Undefined)
  {
    seq(n, _ => IPush(Undefined))
  }

  /** `mark_initialized`: the innermost slot of that name. */
  function MarkInitialized(locals: seq<Local>, x: Name): (r: seq<Local>)
    ensures |r| == |locals|
  {
    match ResolveLocal(locals, x)
    case Some(slot) => locals[slot := locals[slot].(initialized := true)]
    case None => locals
  }

  // ---- Statements ----

  function StmtCode(nm: Numerics, s: Stmt, tag: Option<Name>, cx: Context): Result<Gen, CompileError>
    decreases s, 1
  {
    match s
    case VarDecl(x, init, isConst) =>
      var c :- ExprCode(nm, init, cx.locals);
      if cx.depth == 0 then Ok(Gen(c + [IDefine(x, isConst)], cx.locals))
      else Ok(Gen(c, cx.locals + [Local(Some(x), cx.depth, isConst, true)]))
    case ExprStmt(e) =>
      var c :- ExprCode(nm, e, cx.locals);
      Ok(Gen(c + [IPop], cx.locals))
    case BlockStmt(block) => BlockCode(nm, block, cx)
    case Empty => Ok(Gen([], cx.locals))
    case If(c, t, f) =>
      var cc :- ExprCode(nm, c, cx.locals);
      var tg :- StmtCode(nm, t, None, cx);
      if f.None? then Ok(Gen(cc + [J(IfFalse, 1 + |tg.code|)] + tg.code, tg.locals))
      else
        var fg :- StmtCode(nm, f.value, None, cx.(locals := tg.locals));
        Ok(Gen(cc + [J(IfFalse, 2 + |tg.code|)] + tg.code + [J(Always, 1 + |fg.code|)] + fg.code, fg.locals))
    case While(c, body) =>
      var cc :- ExprCode(nm, c, cx.locals);
      var b :- StmtCode(nm, body, None, InLoop(cx, tag, true));
      var n := |cc| + 1 + |b.code| + 1;
      Ok(Gen(CloseLoop(cc + [J(IfFalse, n - |cc|)] + b.code + [J(Always, 1 - n)], |cx.loops|, n, 0), b.locals))
    case DoWhile(body, c) =>
      var b :- StmtCode(nm, body, None, InLoop(cx, tag, true));
      var cc :- ExprCode(nm, c, b.locals);
      var n := |b.code| + |cc| + 2;
      Ok(Gen(CloseLoop(b.code + cc + [J(IfFalse, 2)] + [J(Always, 1 - n)], |cx.loops|, n, |b.code|), b.locals))
    case For(_, c, u, _) =>
      var p :- ForPieces(nm, s, tag, cx);
      Ok(LeaveCode(Gen(ForCode(p, c.Some?, u.Some?, |cx.loops|), p.body.locals), cx.depth + 1))
    case Switch(_, _, _) =>
      var p :- SwitchPieces(nm, s, cx);
      Ok(LeaveCode(Gen(SwitchCode(p, |cx.locals|), p.locals), cx.depth + 1))
    case Labeled(l, body) =>
      if IsLoop(body) then StmtCode(nm, body, Some(l), cx)
      else
        var b :- StmtCode(nm, body, None, InLoop(cx, Some(l), false));
        Ok(Gen(CloseLoop(b.code, |cx.loops|, |b.code|, 0), b.locals))
    case Break(l) =>
      var c :- BreakCode(cx, l);
      Ok(Gen(c, cx.locals))
    case Continue(l) =>
      var c :- ContinueCode(cx, l);
      Ok(Gen(c, cx.locals))
    case Return(v) =>
      var c :- if v.Some? then ExprCode(nm, v.value, cx.locals) else Ok([IPush(Undefined)]);
      Ok(Gen(c + [IReturn], cx.locals))
    case Throw(e) =>
      var c :- ExprCode(nm, e, cx.locals);
      Ok(Gen(c + [IThrow], cx.locals))
  }

  datatype ForParts = ForParts(init: Gen, cond: seq<Instr>, update: seq<Instr>, body: Gen)

  function ForPieces(nm: Numerics, s: Stmt, tag: Option<Name>, cx: Context): Result<ForParts, CompileError>
    requires s.For?
    decreases s, 0
  {
    var ig :- if s.forInit.Some? then StmtCode(nm, s.forInit.value, None, Deeper(cx)) else Ok(Gen([], cx.locals));
    var cc :- if s.forCondition.Some? then ExprCode(nm, s.forCondition.value, ig.locals) else Ok([]);
    var uc :- if s.update.Some? then ExprCode(nm, s.update.value, ig.locals) else Ok([]);
    var b :- StmtCode(nm, s.body, None, InLoop(Deeper(cx).(locals := ig.locals), tag, true));
    Ok(ForParts(ig, cc, uc, b))
  }

  /** `for`: the update sits between the test and the body, so the test jumps over it. */
  function ForCode(p: ForParts, hasCond: bool, hasUpdate: bool, idx: nat): seq<Instr> {
    var update := Update(p.update, hasUpdate);
    var test := p.cond + if hasCond then [J(IfFalse, |update| + |p.body.code| + 4)] else [];
    var updateAt := |p.init.code| + |test| + 1;
    var bodyAt := updateAt + |update| + 1;
    var exit := bodyAt + |p.body.code| + 1;
    CloseLoop(p.init.code + (test + [J(Always, |update| + 2)] + (update + [J(Always, |p.init.code| - (bodyAt - 1))])
                             + p.body.code + [J(Always, updateAt - (exit - 1))]), idx, exit, updateAt)
  }

  function Update(uc: seq<Instr>, hasUpdate: bool): seq<Instr> {
    uc + if hasUpdate then [IPop] else []
  }

  function BlockCode(nm: Numerics, block: Block, cx: Context): Result<Gen, CompileError>
    decreases block, 1
  {
    var reserved := Reserved(block.stmts, cx.depth + 1);
    var g :- ListCode(nm, block.stmts, Deeper(cx).(locals := cx.locals + reserved));
    Ok(LeaveCode(Gen(Undefineds(|reserved|) + g.code, g.locals), cx.depth + 1))
  }

  /** A local statement list after its slots are reserved: a declaration fills its slot. */
  function ListCode(nm: Numerics, stmts: seq<Stmt>, cx: Context): Result<Gen, CompileError>
    decreases stmts, 0
  {
    if stmts == [] then Ok(Gen([], cx.locals))
    else
      var h :- ItemCode(nm, stmts[0], cx);
      var t :- ListCode(nm, stmts[1..], cx.(locals := h.locals));
      Ok(Gen(h.code + t.code, t.locals))
  }

  function ItemCode(nm: Numerics, s: Stmt, cx: Context): Result<Gen, CompileError>
    decreases s, 2
  {
    if s.VarDecl? then
      var c :- ExprCode(nm, s.init, cx.locals);
      match ResolveLocal(cx.locals, s.name)
      case Some(slot) => Ok(Gen(c + [ISetLocal(slot)] + [IPop], MarkInitialized(cx.locals, s.name)))
      case None => Err(Unsupported)
    else StmtCode(nm, s, None, cx)
  }

  /** Script statements run at depth 0, where a declaration defines a global. */
  function GlobalListCode(nm: Numerics, stmts: seq<Stmt>, cx: Context): Result<Gen, CompileError> {
    if stmts == [] then Ok(Gen([], cx.locals))
    else
      var h :- StmtCode(nm, stmts[0], None, cx);
      var t :- GlobalListCode(nm, stmts[1..], cx.(locals := h.locals));
      Ok(Gen(h.code + t.code, t.locals))
  }

  // ---- Switch ----

  function SwitchContext(cx: Context): Context {
    Deeper(cx).(locals := cx.locals + [Local(None, cx.depth + 1, false, true)])
  }

  datatype Bodies = Bodies(codes: seq<seq<Instr>>, locals: seq<Local>)

  datatype SwitchParts = SwitchParts(scrutinee: seq<Instr>, tests: seq<seq<Instr>>, bodies: seq<seq<Instr>>,
                                     default: seq<Instr>, locals: seq<Local>)

  function SwitchPieces(nm: Numerics, s: Stmt, cx: Context): (r: Result<SwitchParts, CompileError>)
    requires s.Switch?
    ensures r.Ok? ==> |r.value.tests| == |r.value.bodies| == |s.cases|
    decreases s, 0
  {
    var inner := SwitchContext(cx);
    var ec :- ExprCode(nm, s.scrutinee, cx.locals);
    var tests :- CaseTests(nm, s.cases, inner.locals);
    var bodies :- CaseBodies(nm, s.cases, inner);
    var dg :- if s.defaultBlock.Some? then BlockCode(nm, s.defaultBlock.value, inner.(locals := bodies.locals))
              else Ok(Gen([], bodies.locals));
    Ok(SwitchParts(ec, tests, bodies.codes, dg.code, dg.locals))
  }

  /** All the comparisons come first, then a jump to the default, then the bodies, then the default. */
  function SwitchCode(p: SwitchParts, disc: nat): seq<Instr>
    requires |p.tests| == |p.bodies|
  {
    var bodies := BodiesFrom(p.bodies, |p.default|, 0);
    p.scrutinee + TestsFrom(p.tests, p.bodies, disc, 0) + [J(Always, 1 + |bodies|)] + bodies + p.default
  }

  function CaseTests(nm: Numerics, cases: seq<SwitchCase>, locals: seq<Local>)
      : (r: Result<seq<seq<Instr>>, CompileError>)
    ensures r.Ok? ==> |r.value| == |cases|
  {
    if cases == [] then Ok([])
    else
      var h :- ExprCode(nm, cases[0].value, locals);
      var t :- CaseTests(nm, cases[1..], locals);
      Ok([h] + t)
  }

  function CaseBodies(nm: Numerics, cases: seq<SwitchCase>, cx: Context): (r: Result<Bodies, CompileError>)
    ensures r.Ok? ==> |r.value.codes| == |cases|
    decreases cases, 0
  {
    if cases == [] then Ok(Bodies([], cx.locals))
    else
      assert cases[0].body < cases[0];
      var h :- BlockCode(nm, cases[0].body, cx);
      var t :- CaseBodies(nm, cases[1..], cx.(locals := h.locals));
      Ok(Bodies([h.code] + t.codes, t.locals))
  }

  /** The comparisons from case `i` on: each one jumps to its body or falls to the next, the last to the default
      jump. */
  function TestsFrom(tests: seq<seq<Instr>>, bodies: seq<seq<Instr>>, disc: nat, i: nat): seq<Instr>
    requires i <= |tests| == |bodies|
    decreases |tests| - i
  {
    if i == |tests| then []
    else
      var rest := TestsFrom(tests, bodies, disc, i + 1);
      [IGetLocal(disc)] + tests[i] + [IBinary(StrictEqOp)] + [J(IfFalse, 2)]
      + [J(Always, |rest| + 2 + BodiesSize(bodies[..i]))] + rest
  }

  function BodiesSize(bodies: seq<seq<Instr>>): nat {
    if bodies == [] then 0 else BodiesSize(bodies[..|bodies| - 1]) + |bodies[|bodies| - 1]| + 1
  }

  lemma BodiesSizeNext(bodies: seq<seq<Instr>>, i: nat)
    requires i < |bodies|
    ensures BodiesSize(bodies[..i + 1]) == BodiesSize(bodies[..i]) + |bodies[i]| + 1
  {
    assert bodies[..i + 1][..i] == bodies[..i];
  }

  /** The case bodies from case `i` on, each followed by a jump over the rest and the default. */
  function BodiesFrom(bodies: seq<seq<Instr>>, tail: nat, i: nat): seq<Instr>
    requires i <= |bodies|
    decreases |bodies| - i
  {
    if i == |bodies| then []
    else
      var rest := BodiesFrom(bodies, tail, i + 1);
      bodies[i] + [J(Always, 1 + |rest| + tail)] + rest
  }

  // ---- A whole script ----

  const Start: Context := Context([Local(None, 0, false, true)], 0, [])

  function ProgramCode(nm: Numerics, items: seq<Stmt>): CodeResult {
    var g :- GlobalListCode(nm, items, Start);
    Ok(g.code + [IPush(Undefined)] + [IReturn])
  }
}
