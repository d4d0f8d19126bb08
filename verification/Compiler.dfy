/** The compiler as it runs: it appends operations to a chunk, patches the targets of jumps it could not know yet, and
    keeps the slots, the scope depth and the enclosing loops in its own fields. Every method is proved to append exactly
    the code `Codegen` gives for its construct, and to fail exactly when and as `Codegen` does. */
module Compiler {
  import opened Syntax
  import opened Values
  import opened Semantics
  import opened Bytecode
  import opened Folding
  import opened Codegen
  import opened ExprParts
  import opened Emission
  import opened Constructs
  import opened SwitchLayout

  class Compiler {
    const nm: Numerics
    const chunk: Chunk
    var locals: seq<Local>
    var scopeDepth: nat
    var loops: seq<LoopCtx>
    var pendingLabel: Option<Name>
    ghost var pending: map<nat, Target>
    ghost var view: seq<Instr>

    constructor (nm: Numerics)
      ensures this.nm == nm && Valid() && view == [] && Cx() == Start && pendingLabel.None?
      ensures fresh(chunk)
    {
      this.nm := nm;
      chunk := new Chunk();
      locals, scopeDepth := [Local(None, 0, false, true)], 0;
      loops, pendingLabel, pending, view := [], None, map[], [];
    }

    ghost predicate Valid()
      reads this, chunk
    {
      && OpsOk(chunk.code, chunk.constants) && Tracks(loops, pending, chunk.code)
      && view == Reading(chunk.code, chunk.constants, pending)
    }

    ghost function Cx(): Context
      reads this`locals, this`scopeDepth, this`loops
    {
      Context(locals, scopeDepth, Infos(loops))
    }

    // ---- Emitting ----

    twostate predicate Emits(new code: seq<Instr>)
      requires old(Valid())
      reads this, chunk
    {
      Valid() && view == old(view) + code
    }

    twostate predicate Gives(new r: Status, new c: CodeResult)
      requires old(Valid())
      reads this, chunk
    {
      match c
      case Ok(code) => r.Ok? && Emits(code)
      case Err(e) => r == Err(e)
    }

    method Emit(op: Op) returns (at: nat)
      requires Valid() && OpOk(op, chunk.constants)
      modifies this`view, chunk`code
      ensures at == |old(chunk.code)| && Emits([Lift(op, chunk.constants, at)])
    {
      at := chunk.PushOp(op);
      assert at !in pending;
      view := Reading(chunk.code, chunk.constants, pending);
    }

    method AddConstant(c: Constant) returns (idx: nat)
      requires Valid()
      modifies chunk`constants
      ensures chunk.constants == old(chunk.constants) + [c] && idx == |old(chunk.constants)|
      ensures Emits([])
    {
      idx := chunk.AddConstant(c);
      forall k | 0 <= k < |chunk.code|
        ensures OpOk(chunk.code[k], chunk.constants)
        ensures Lift(chunk.code[k], chunk.constants, k) == Lift(chunk.code[k], old(chunk.constants), k)
      {
        assert OpOk(chunk.code[k], old(chunk.constants));
      }
    }

    method EmitConstant(c: Constant)
      requires Valid()
      modifies this`view, chunk
      ensures Emits([IPush(ConstValue(c))])
    {
      var idx := AddConstant(c);
      var _ := Emit(Op.Constant(idx));
    }

    /** A jump whose target is not known yet. */
    method EmitForward(kind: JumpKind) returns (at: nat)
      requires Valid()
      modifies this`view, chunk`code
      ensures at == |old(view)| && Emits([Raw(kind, at)])
    {
      at := Emit(Jump(kind, 0));
    }

    method EmitBack(kind: JumpKind, target: nat) returns (at: nat)
      requires Valid()
      modifies this`view, chunk`code
      ensures at == |old(view)| && Emits([J(kind, target - at)])
    {
      at := Emit(Jump(kind, target));
    }

    method PatchJump(at: nat, target: nat)
      requires Valid() && at < |view| && view[at].IJump? && view[at].target.Rel?
      modifies this`view, chunk`code
      ensures Valid() && view == old(view)[at := J(old(view)[at].kind, target - at)]
    {
      assert at !in pending;
      chunk.PatchJump(at, target);
      view := Reading(chunk.code, chunk.constants, pending);
    }

    /** Aims a jump at the next position. The jump stands between `a` and `b`, after `v`. */
    method PatchHere(jump: nat, ghost v: seq<Instr>, ghost a: seq<Instr>, ghost kind: JumpKind, ghost b: seq<Instr>)
      requires Valid() && view == v + (a + [Raw(kind, jump)] + b) && jump == |v| + |a|
      modifies this`view, chunk`code
      ensures Valid() && view == v + (a + [J(kind, 1 + |b|)] + b)
    {
      Patched(v, a, Raw(kind, jump), b, J(kind, 1 + |b|));
      PatchJump(jump, |chunk.code|);
    }

    // ---- Expressions ----

    method EmitFoldConst(v: FoldVal)
      requires Valid()
      modifies this`view, chunk
      ensures Emits([IPush(Folded(v))])
    {
      match v {
        case FNum(n) => EmitConstant(NumberConst(n));
        case FStr(s) => EmitConstant(TextConst(s));
        case FBool(b) => var _ := Emit(if b then PushTrue else PushFalse);
      }
    }

    method CompileLiteral(l: Literal)
      requires Valid()
      modifies this`view, chunk
      ensures Emits([IPush(LiteralValue(nm, l))])
    {
      match l {
        case NumberLit(raw) => EmitConstant(NumberConst(nm.parse(RemoveUnderscores(raw))));
        case BigIntLit(i) => EmitConstant(BigConst(i));
        case TextLit(s) => EmitConstant(TextConst(s));
        case BoolLit(b) => var _ := Emit(if b then PushTrue else PushFalse);
        case NullLit => var _ := Emit(PushNull);
        case UndefinedLit => var _ := Emit(PushUndefined);
      }
    }

    method CompileVarGet(x: Name) returns (r: Status)
      requires Valid()
      modifies this`view, chunk
      ensures Gives(r, GetCode(locals, x))
    {
      match ResolveLocal(locals, x) {
        case Some(slot) =>
          if !locals[slot].initialized {
            return Err(UsedBeforeInit(x));
          }
          var _ := Emit(GetLocal(slot));
        case None =>
          var idx := AddConstant(TextConst(x));
          var _ := Emit(GetGlobal(idx));
      }
      r := Ok(());
    }

    method CompileVarSet(x: Name) returns (r: Status)
      requires Valid()
      modifies this`view, chunk
      ensures Gives(r, SetCode(locals, x))
    {
      match ResolveLocal(locals, x) {
        case Some(slot) =>
          if locals[slot].isConst {
            return Err(AssignToConst(x));
          }
          var _ := Emit(SetLocal(slot));
        case None =>
          var idx := AddConstant(TextConst(x));
          var _ := Emit(SetGlobal(idx));
      }
      r := Ok(());
    }

    method CompileExpr(e: Expr) returns (r: Status)
      requires Valid()
      modifies this`view, chunk
      ensures Gives(r, ExprCode(nm, e, locals))
      decreases e, 1
    {
      match e {
        case Identifier(x) => r := CompileVarGet(x);
        case Lit(l) =>
          CompileLiteral(l);
          r := Ok(());
        case Grouping(inner) => r := CompileExpr(inner);
        case Unary(_, _) => r := CompileUnary(e);
        case Binary(_, _, _) => r := CompileBinary(e);
        case Assignment(x, value) => r := CompileStore(value, x);
        case Postfix(_, _) => r := CompilePostfix(e);
        case Conditional(_, _, _) => r := CompileConditional(e);
      }
    }

    method CompileUnary(e: Expr) returns (r: Status)
      requires Valid() && e.Unary?
      modifies this`view, chunk
      ensures Gives(r, ExprCode(nm, e, locals))
      decreases e, 0
    {
      var folded := FoldConst(nm, e);
      if folded.Some? {
        EmitFoldConst(folded.value);
        return Ok(());
      }
      ghost var v0 := view;
      var _ :- CompileExpr(e.operand);
      ghost var c := ExprCode(nm, e.operand, locals).value;
      if e.uop.Void? {
        var _ := Emit(Op.Pop);
        var _ := Emit(PushUndefined);
      } else if e.uop.Delete? {
        var _ := Emit(Op.Pop);
        var _ := Emit(PushTrue);
      } else {
        var _ := Emit(Op.UnaryOp(UnaryInstr(e.uop)));
      }
      assert view == v0 + (c + UnaryTail(e.uop));
      r := Ok(());
    }

    /** A value and the store of it. */
    method CompileStore(value: Expr, x: Name) returns (r: Status)
      requires Valid()
      modifies this`view, chunk
      ensures Gives(r, ExprCode(nm, Assignment(x, value), locals))
      decreases value, 2
    {
      ghost var v0 := view;
      var _ :- CompileExpr(value);
      r := CompileVarSet(x);
      if r.Ok? {
        Appended(v0, ExprCode(nm, value, locals).value, SetCode(locals, x).value);
      }
    }

    method CompileBinary(e: Expr) returns (r: Status)
      requires Valid() && e.Binary?
      modifies this`view, chunk
      ensures Gives(r, ExprCode(nm, e, locals))
      decreases e, 0
    {
      var folded := FoldConst(nm, e);
      if folded.Some? {
        EmitFoldConst(folded.value);
        return Ok(());
      }
      if e.op.Assign? {
        if !e.lhs.Identifier? {
          return Err(BadAssignmentTarget);
        }
        r := CompileStore(e.rhs, e.lhs.name);
      } else if CompoundInstr(e.op).Some? {
        r := CompileCompoundAssign(e);
      } else if IsLogicalAssign(e.op) {
        r := CompileLogicalAssign(e);
      } else if e.op.And? || e.op.Or? {
        r := CompileLogical(e);
      } else if e.op.NullishCoalescing? {
        r := CompileNullish(e);
      } else if e.op.Pipeline? {
        r := Err(Unsupported);
      } else {
        r := CompileStrict(e);
      }
    }

    method CompileStrict(e: Expr) returns (r: Status)
      requires Valid() && e.Binary?
      modifies this`view, chunk
      ensures Gives(r, (var l :- ExprCode(nm, e.lhs, locals); var r :- ExprCode(nm, e.rhs, locals);
                        if BinaryInstr(e.op).None? then Err(Unsupported)
                        else Ok(l + r + [IBinary(BinaryInstr(e.op).value)])))
      decreases e, -1
    {
      ghost var v0 := view;
      var _ :- CompileExpr(e.lhs);
      var _ :- CompileExpr(e.rhs);
      var op := BinaryInstr(e.op);
      if op.None? {
        return Err(Unsupported);
      }
      var _ := Emit(Op.BinaryOp(op.value));
      Appended3(v0, ExprCode(nm, e.lhs, locals).value, ExprCode(nm, e.rhs, locals).value, [IBinary(op.value)]);
      r := Ok(());
    }

    method CompileCompoundAssign(e: Expr) returns (r: Status)
      requires Valid() && e.Binary? && CompoundInstr(e.op).Some? && FoldConst(nm, e).None?
      modifies this`view, chunk
      ensures Gives(r, ExprCode(nm, e, locals))
      decreases e, -1
    {
      if !e.lhs.Identifier? {
        return Err(BadAssignmentTarget);
      }
      ghost var v0 := view;
      var _ :- CompileVarGet(e.lhs.name);
      var _ :- CompileExpr(e.rhs);
      var _ := Emit(Op.BinaryOp(CompoundInstr(e.op).value));
      r := CompileVarSet(e.lhs.name);
      if r.Ok? {
        ghost var l, c, s := CompoundCode(nm, e, locals);
        Appended4(v0, l, c, [IBinary(CompoundInstr(e.op).value)], s);
      }
    }

    /** `&&=`, `||=` and `??=`: the store is skipped together with its value. */
    method CompileLogicalAssign(e: Expr) returns (r: Status)
      requires Valid() && e.Binary? && IsLogicalAssign(e.op) && FoldConst(nm, e).None?
      modifies this`view, chunk
      ensures Gives(r, ExprCode(nm, e, locals))
      decreases e, -1
    {
      hide Reading, Tracks, OpsOk, ExprCode, J, Raw;
      LogicalAssignSpec(nm, e, locals);
      ghost var v0 := view;
      var _ :- CompileExpr(e.lhs);
      ghost var l := ExprCode(nm, e.lhs, locals).value;
      var jump := EmitForward(ShortJump(e.op));
      var _ := Emit(Op.Pop);
      if !e.lhs.Identifier? {
        return Err(BadAssignmentTarget);
      }
      var _ :- CompileStore(e.rhs, e.lhs.name);
      ghost var c := ExprCode(nm, Assignment(e.lhs.name, e.rhs), locals).value;
      Regroup(v0, l, Raw(ShortJump(e.op), jump), [IPop], c);
      PatchHere(jump, v0, l, ShortJump(e.op), [IPop] + c);
      r := Ok(());
    }

    method CompileLogical(e: Expr) returns (r: Status)
      requires Valid() && e.Binary? && (e.op.And? || e.op.Or?) && FoldConst(nm, e).None?
      modifies this`view, chunk
      ensures Gives(r, ExprCode(nm, e, locals))
      decreases e, -1
    {
      hide Reading, Tracks, OpsOk, ExprCode, J, Raw;
      ShortSpec(nm, e, locals);
      ghost var v0 := view;
      var _ :- CompileExpr(e.lhs);
      ghost var l := ExprCode(nm, e.lhs, locals).value;
      var jump := EmitForward(ShortJump(e.op));
      var _ := Emit(Op.Pop);
      var _ :- CompileExpr(e.rhs);
      ghost var c := ExprCode(nm, e.rhs, locals).value;
      Regroup(v0, l, Raw(ShortJump(e.op), jump), [IPop], c);
      PatchHere(jump, v0, l, ShortJump(e.op), [IPop] + c);
      r := Ok(());
    }

    method CompileNullish(e: Expr) returns (r: Status)
      requires Valid() && e.Binary? && e.op.NullishCoalescing? && FoldConst(nm, e).None?
      modifies this`view, chunk
      ensures Gives(r, ExprCode(nm, e, locals))
      decreases e, -1
    {
      hide Reading, Tracks, OpsOk, ExprCode, J, Raw;
      NullishSpec(nm, e, locals);
      ghost var v0 := view;
      var _ :- CompileExpr(e.lhs);
      ghost var l := ExprCode(nm, e.lhs, locals).value;
      var jump := EmitForward(IfNullishPeek);
      var endJump := EmitForward(Always);
      Appended3(v0, l, [Raw(IfNullishPeek, jump)], [Raw(Always, endJump)]);
      PatchHere(jump, v0, l, IfNullishPeek, [Raw(Always, endJump)]);
      var _ := Emit(Op.Pop);
      var _ :- CompileExpr(e.rhs);
      ghost var c := ExprCode(nm, e.rhs, locals).value;
      Appended3(v0, l + [J(IfNullishPeek, 2)] + [Raw(Always, endJump)], [IPop], c);
      Appended(l + [J(IfNullishPeek, 2)] + [Raw(Always, endJump)], [IPop], c);
      PatchHere(endJump, v0, l + [J(IfNullishPeek, 2)], Always, [IPop] + c);
      r := Ok(());
    }

    method CompilePostfix(e: Expr) returns (r: Status)
      requires Valid() && e.Postfix?
      modifies this`view, chunk
      ensures Gives(r, ExprCode(nm, e, locals))
      decreases e, 0
    {
      if !e.operand.Identifier? {
        return Err(BadPostfixTarget);
      }
      var x := e.operand.name;
      ghost var v0 := view;
      var _ :- CompileVarGet(x);
      var _ := Emit(Op.UnaryOp(PosOp));
      var _ := Emit(Op.Dup);
      EmitConstant(NumberConst(nm.one));
      var _ := Emit(Op.BinaryOp(if e.pop.Increment? then AddOp else SubOp));
      var _ :- CompileVarSet(x);
      var _ := Emit(Op.Pop);
      Appended7(v0, GetCode(locals, x).value, [IUnary(PosOp)], [IDup], [IPush(Number(nm.one))],
                [IBinary(if e.pop.Increment? then AddOp else SubOp)], SetCode(locals, x).value, [IPop]);
      r := Ok(());
    }

    method CompileConditional(e: Expr) returns (r: Status)
      requires Valid() && e.Conditional?
      modifies this`view, chunk
      ensures Gives(r, ExprCode(nm, e, locals))
      decreases e, 0
    {
      hide Reading, Tracks, OpsOk, ExprCode, J, Raw;
      ConditionalSpec(nm, e, locals);
      ghost var v0 := view;
      var _ :- CompileExpr(e.condition);
      ghost var c := ExprCode(nm, e.condition, locals).value;
      var elseJump := EmitForward(IfFalse);
      var _ :- CompileExpr(e.thenExpr);
      ghost var t := ExprCode(nm, e.thenExpr, locals).value;
      var endJump := EmitForward(Always);
      Regroup(v0, c, Raw(IfFalse, elseJump), t, [Raw(Always, endJump)]);
      PatchHere(elseJump, v0, c, IfFalse, t + [Raw(Always, endJump)]);
      var _ :- CompileExpr(e.elseExpr);
      ghost var f := ExprCode(nm, e.elseExpr, locals).value;
      RegroupSecond(v0, c, J(IfFalse, 2 + |t|), t, Raw(Always, endJump), f);
      PatchHere(endJump, v0, c + [J(IfFalse, 2 + |t|)] + t, Always, f);
      r := Ok(());
    }

    /** What `CompileForHead` promises. */
    twostate predicate Heads(s: Stmt, new r: Status, exitJump: nat, updateStart: nat)
      requires old(Valid()) && s.For?
      reads this, chunk
    {
      match ForHeadOf(nm, s, old(Cx()))
      case Err(e) => r == Err(e)
      case Ok(h) =>
        var front := old(view) + (h.init.code + h.cond);
        && r.Ok? && Valid() && locals == h.init.locals && scopeDepth == old(scopeDepth)
        && Infos(loops) == Infos(old(loops)) && pendingLabel.None?
        && (s.forCondition.Some? ==> exitJump == |front|)
        && view == (if s.forCondition.Some? then front + [Raw(IfFalse, exitJump)] else front) + HeadTail(h)
        && updateStart == |view| - |h.update| - 1
    }

    // ---- Scopes and lists ----

    twostate predicate Compiles(new r: Status, new g: Result<Gen, CompileError>)
      requires old(Valid())
      reads this, chunk
    {
      match g
      case Err(e) => r == Err(e)
      case Ok(gen) =>
        && r.Ok? && Emits(gen.code) && locals == gen.locals && scopeDepth == old(scopeDepth)
        && Infos(loops) == Infos(old(loops)) && pendingLabel.None?
    }

    /** Pops the slots of the innermost scope. */
    method EndScope()
      requires Valid() && scopeDepth > 0
      modifies this`view, this`locals, this`scopeDepth, chunk
      ensures locals == Surviving(old(locals), old(scopeDepth)) && scopeDepth == old(scopeDepth) - 1
      ensures Emits(Pops(|old(locals)| - |locals|))
    {
      hide Reading, Tracks, OpsOk;
      assert view == old(view) + Pops(0);
      while |locals| > 0 && locals[|locals| - 1].depth >= scopeDepth
        invariant Valid() && |locals| <= |old(locals)| && scopeDepth == old(scopeDepth)
        invariant Surviving(locals, scopeDepth) == Surviving(old(locals), scopeDepth)
        invariant view == old(view) + Pops(|old(locals)| - |locals|)
        invariant chunk.constants == old(chunk.constants)
      {
        locals := locals[..|locals| - 1];
        assert Pops(|old(locals)| - |locals| - 1) + [IPop] == Pops(|old(locals)| - |locals|);
        var _ := Emit(Op.Pop);
      }
      scopeDepth := scopeDepth - 1;
    }

    method ReserveLocals(stmts: seq<Stmt>)
      requires Valid()
      modifies this`view, this`locals, chunk
      ensures locals == old(locals) + Reserved(stmts, scopeDepth)
      ensures Emits(Undefineds(|Reserved(stmts, scopeDepth)|))
    {
      hide Reading, Tracks, OpsOk, Reserved, Undefineds;
      ghost var done: seq<Local> := [];
      assert stmts[0..] == stmts && view == view + Undefineds(0) && locals == locals + done;
      for i := 0 to |stmts|
        invariant Valid()
        invariant Reserved(stmts, scopeDepth) == done + Reserved(stmts[i..], scopeDepth)
        invariant locals == old(locals) + done && view == old(view) + Undefineds(|done|)
      {
        ReservedNext(stmts, i, scopeDepth, done);
        if stmts[i].VarDecl? {
          var l := Local(Some(stmts[i].name), scopeDepth, stmts[i].isConst, false);
          UndefinedsMore(view, old(view), |done|);
          var _ := Emit(PushUndefined);
          locals := locals + [l];
          done := done + [l];
        }
      }
      ReservedNone(scopeDepth);
      assert stmts[|stmts|..] == [] && done + [] == done;
    }

    method CompileBlockScoped(block: Block) returns (r: Status)
      requires Valid() && pendingLabel.None?
      modifies this, chunk
      ensures Compiles(r, BlockCode(nm, block, old(Cx())))
      decreases block, 1
    {
      hide Reading, Tracks, OpsOk, ListCode, Infos, Reserved;
      ghost var v0, d := view, scopeDepth;
      ghost var rs := Reserved(block.stmts, d + 1);
      scopeDepth := scopeDepth + 1;
      ReserveLocals(block.stmts);
      var _ :- CompileLocalList(block.stmts);
      ghost var g := ListCode(nm, block.stmts, old(Cx()).(depth := d + 1, locals := old(locals) + rs)).value;
      EndScope();
      Appended3(v0, Undefineds(|rs|), g.code, Pops(|g.locals| - |locals|));
      r := Ok(());
    }

    /** The statements of a list whose slots are reserved. */
    method CompileLocalList(stmts: seq<Stmt>) returns (r: Status)
      requires Valid() && pendingLabel.None?
      modifies this, chunk
      ensures Compiles(r, ListCode(nm, stmts, old(Cx())))
      decreases stmts, 0
    {
      hide Reading, Tracks, OpsOk, ItemCode;
      ghost var v0, cx0, done := view, Cx(), [];
      ghost var whole := ListCode(nm, stmts, cx0);
      ListStart(nm, stmts, cx0);
      for i := 0 to |stmts|
        invariant Valid() && pendingLabel.None? && scopeDepth == cx0.depth && Infos(loops) == cx0.loops
        invariant view == v0 + done && whole == Prefixed(done, ListCode(nm, stmts[i..], Cx()))
      {
        ghost var cx := Cx();
        ListNext(nm, stmts, i, cx, done);
        var _ :- CompileItem(stmts[i]);
        ghost var h := ItemCode(nm, stmts[i], cx).value;
        Appended(v0, done, h.code);
        done := done + h.code;
      }
      r := Ok(());
    }

    method CompileItem(s: Stmt) returns (r: Status)
      requires Valid() && pendingLabel.None?
      modifies this, chunk
      ensures Compiles(r, ItemCode(nm, s, old(Cx())))
      decreases s, 3
    {
      hide Reading, Tracks, OpsOk, ExprCode, StmtCode;
      if s.VarDecl? {
        ghost var v0 := view;
        var _ :- CompileExpr(s.init);
        match ResolveLocal(locals, s.name) {
          case None => return Err(Unsupported);
          case Some(slot) =>
            var _ := Emit(SetLocal(slot));
            var _ := Emit(Op.Pop);
            Appended3(v0, ExprCode(nm, s.init, locals).value, [ISetLocal(slot)], [IPop]);
            locals := MarkInitialized(locals, s.name);
        }
        r := Ok(());
      } else {
        r := CompileStmt(s);
      }
    }

    // ---- Statements ----

    method CompileStmt(s: Stmt) returns (r: Status)
      requires Valid() && (pendingLabel.Some? ==> IsLoop(s))
      modifies this, chunk
      ensures Compiles(r, StmtCode(nm, s, old(pendingLabel), old(Cx())))
      decreases s, 2
    {
      match s {
        case VarDecl(_, _, _) => r := CompileVarDecl(s);
        case BlockStmt(block) => r := CompileBlockScoped(block);
        case Empty =>
          assert view == view + [];
          r := Ok(());
        case If(_, _, _) => r := CompileIf(s);
        case While(_, _) => r := CompileWhile(s);
        case DoWhile(_, _) => r := CompileDoWhile(s);
        case For(_, _, _, _) => r := CompileFor(s);
        case Switch(_, _, _) => r := CompileSwitch(s);
        case Labeled(_, _) => r := CompileLabeled(s);
        case Break(_) => r := CompileBreak(s);
        case Continue(_) => r := CompileContinue(s);
        case _ => r := CompileSimple(s);
      }
    }

    method CompileVarDecl(s: Stmt) returns (r: Status)
      requires Valid() && s.VarDecl? && pendingLabel.None?
      modifies this, chunk
      ensures Compiles(r, StmtCode(nm, s, None, old(Cx())))
    {
      hide Reading, Tracks, OpsOk, ExprCode;
      ghost var v0 := view;
      var _ :- CompileExpr(s.init);
      if scopeDepth == 0 {
        var idx := AddConstant(TextConst(s.name));
        var _ := Emit(DefineGlobal(idx, s.isConst));
        Appended(v0, ExprCode(nm, s.init, locals).value, [IDefine(s.name, s.isConst)]);
      } else {
        locals := locals + [Local(Some(s.name), scopeDepth, s.isConst, true)];
      }
      r := Ok(());
    }

    /** Expression statements, `return` and `throw`. */
    method CompileSimple(s: Stmt) returns (r: Status)
      requires Valid() && (s.ExprStmt? || s.Return? || s.Throw?) && pendingLabel.None?
      modifies this`view, chunk
      ensures Compiles(r, StmtCode(nm, s, None, old(Cx())))
    {
      hide Reading, Tracks, OpsOk, ExprCode, StmtCode;
      SimpleSpec(nm, s, Cx());
      ghost var v0 := view;
      if SimpleExpr(s).Some? {
        var _ :- CompileExpr(SimpleExpr(s).value);
      } else {
        var _ := Emit(PushUndefined);
      }
      ghost var c := if SimpleExpr(s).Some? then ExprCode(nm, SimpleExpr(s).value, locals).value
        else [IPush(Undefined)];
      var at := Emit(if s.ExprStmt? then Op.Pop else if s.Throw? then Op.Throw else Op.Return);
      Appended(v0, c, [SimpleLast(s)]);
      r := Ok(());
    }

    method CompileIf(s: Stmt) returns (r: Status)
      requires Valid() && s.If? && pendingLabel.None?
      modifies this, chunk
      ensures Compiles(r, StmtCode(nm, s, None, old(Cx())))
      decreases s, 1
    {
      hide Reading, Tracks, OpsOk, ExprCode, StmtCode, Infos, J, Raw;
      IfSpec(nm, s, Cx());
      ghost var v0, cx0 := view, Cx();
      var _ :- CompileExpr(s.condition);
      ghost var c := ExprCode(nm, s.condition, locals).value;
      var elseJump := EmitForward(IfFalse);
      var _ :- CompileStmt(s.thenBranch);
      ghost var t := StmtCode(nm, s.thenBranch, None, cx0).value;
      Appended3(v0, c, [Raw(IfFalse, elseJump)], t.code);
      if s.elseBranch.None? {
        PatchHere(elseJump, v0, c, IfFalse, t.code);
        r := Ok(());
      } else {
        r := CompileElse(s.elseBranch.value, elseJump, v0, c, t.code);
      }
    }

    /** Ends the first branch with a jump over the second, to which the condition's jump leads. */
    method CompileElse(e: Stmt, elseJump: nat, ghost v0: seq<Instr>, ghost c: seq<Instr>, ghost t: seq<Instr>)
      returns (r: Status)
      requires Valid() && pendingLabel.None?
      requires elseJump == |v0| + |c| && view == v0 + (c + [Raw(IfFalse, elseJump)] + t)
      modifies this, chunk
      ensures StmtCode(nm, e, None, old(Cx())).Err? ==> r == Err(StmtCode(nm, e, None, old(Cx())).error)
      ensures StmtCode(nm, e, None, old(Cx())).Ok? ==>
                var f := StmtCode(nm, e, None, old(Cx())).value;
                && r.Ok? && Valid() && locals == f.locals && scopeDepth == old(scopeDepth)
                && Infos(loops) == Infos(old(loops)) && pendingLabel.None?
                && view == v0 + (c + [J(IfFalse, 2 + |t|)] + t + [J(Always, 1 + |f.code|)] + f.code)
      decreases e, 9
    {
      hide Reading, Tracks, OpsOk, ExprCode, StmtCode, Infos, J, Raw;
      ghost var cx := Cx();
      var endJump := EmitForward(Always);
      Regroup(v0, c, Raw(IfFalse, elseJump), t, [Raw(Always, endJump)]);
      PatchHere(elseJump, v0, c, IfFalse, t + [Raw(Always, endJump)]);
      var _ :- CompileStmt(e);
      ghost var f := StmtCode(nm, e, None, cx).value;
      RegroupSecond(v0, c, J(IfFalse, 2 + |t|), t, Raw(Always, endJump), f.code);
      PatchHere(endJump, v0, c + [J(IfFalse, 2 + |t|)] + t, Always, f.code);
      r := Ok(());
    }

    // ---- Loops ----

    lemma ViewBelow()
      requires Valid()
      ensures Below(view, |loops|)
    {
    }

    method TakePendingLabel() returns (tag: Option<Name>)
      modifies this`pendingLabel
      ensures tag == old(pendingLabel) && pendingLabel.None?
    {
      tag := pendingLabel;
      pendingLabel := None;
    }

    method PushLoop(localsCount: nat, tag: Option<Name>, isLoop: bool)
      requires Valid()
      modifies this`loops
      ensures Valid() && Infos(loops) == Infos(old(loops)) + [LoopInfo(localsCount, tag, isLoop)]
    {
      loops := loops + [LoopCtx(localsCount, [], [], tag, isLoop)];
      forall j | j in pending
        ensures Listed(loops, j, pending[j])
      {
        assert Listed(old(loops), j, pending[j]);
      }
    }

    method PatchAll(jumps: seq<nat>, target: nat)
      requires Valid() && forall j :: j in jumps ==> j !in pending && JumpsAt(chunk.code, j)
      modifies this`view, chunk`code
      ensures Valid() && view == Retarget(old(view), jumps, target)
      ensures chunk.code == RetargetOps(old(chunk.code), jumps, target)
    {
      ghost var code0 := chunk.code;
      for i := 0 to |jumps|
        invariant chunk.constants == old(chunk.constants)
        invariant chunk.code == RetargetOps(code0, jumps[..i], target)
      {
        RetargetMore(code0, jumps, i, target);
        chunk.PatchJump(jumps[i], target);
      }
      assert jumps[..|jumps|] == jumps;
      RetargetReads(code0, chunk.constants, pending, jumps, target);
      assert Tracks(loops, pending, chunk.code) by { RetargetTracks(loops, pending, code0, jumps, target); }
      view := Reading(chunk.code, chunk.constants, pending);
    }

    /** Patches the jumps of the innermost loop, whose code is `c`, and forgets it. */
    method FinishLoop(breakTarget: nat, continueTarget: nat, ghost v: seq<Instr>, ghost c: seq<Instr>)
      requires Valid() && |loops| > 0 && view == v + c && Below(v, |loops| - 1)
      modifies this`view, this`loops, this`pending, chunk`code
      ensures Infos(loops) == Infos(old(loops))[..|old(loops)| - 1]
      ensures Valid() && view == v + CloseLoop(c, |loops|, breakTarget - |v|, continueTarget - |v|)
    {
      hide Reading, ReadAt, Tracks, OpsOk, Without, CloseLoop, Retarget, Below;
      ghost var code0, pending0 := chunk.code, pending;
      var last := |loops| - 1;
      var ctx := loops[last];
      Forgets(loops, pending, code0);
      loops := loops[..last];
      pending := Without(pending, last);
      view := Reading(chunk.code, chunk.constants, pending);
      PatchAll(ctx.breakJumps, breakTarget);
      ListedStay(code0, ctx.breakJumps, breakTarget, ctx.continueJumps);
      PatchAll(ctx.continueJumps, continueTarget);
      FinishReads(old(loops), code0, chunk.constants, pending0, v, c, breakTarget, continueTarget);
    }

    /** Ends a loop here: its test jumps here when it fails, and so does every `break`. */
    method ExitLoop(exitJump: nat, continueTarget: nat, ghost v: seq<Instr>, ghost a: seq<Instr>,
                    ghost rest: seq<Instr>)
      requires Valid() && |loops| > 0 && Below(v, |loops| - 1)
      requires view == v + (a + [Raw(IfFalse, exitJump)] + rest) && exitJump == |v| + |a|
      modifies this`view, this`loops, this`pending, chunk`code
      ensures Infos(loops) == Infos(old(loops))[..|old(loops)| - 1]
      ensures Valid()
      ensures view
                == v + CloseLoop(a + [J(IfFalse, 1 + |rest|)] + rest, |loops|, |a| + 1 + |rest|, continueTarget - |v|)
    {
      hide Reading, Tracks, OpsOk, CloseLoop, Below;
      PatchHere(exitJump, v, a, IfFalse, rest);
      FinishLoop(|chunk.code|, continueTarget, v, a + [J(IfFalse, 1 + |rest|)] + rest);
    }

    method CompileWhile(s: Stmt) returns (r: Status)
      requires Valid() && s.While?
      modifies this, chunk
      ensures Compiles(r, StmtCode(nm, s, old(pendingLabel), old(Cx())))
      decreases s, 1
    {
      hide Reading, Tracks, OpsOk, ExprCode, StmtCode, CloseLoop, Infos, Below, Raw, J;
      WhileSpec(nm, s, pendingLabel, Cx());
      ViewBelow();
      ghost var v0, cx0 := view, Cx();
      var tag := TakePendingLabel();
      var loopStart := |chunk.code|;
      var _ :- CompileExpr(s.condition);
      ghost var cc := ExprCode(nm, s.condition, locals).value;
      var exitJump := EmitForward(IfFalse);
      PushLoop(|locals|, tag, true);
      var _ :- CompileStmt(s.body);
      ghost var b := StmtCode(nm, s.body, None, InLoop(cx0, tag, true)).value.code;
      var back := EmitBack(Always, loopStart);
      ghost var n := |cc| + |b| + 2;
      assert loopStart - back == 1 - n;
      Regroup(v0, cc, Raw(IfFalse, exitJump), b, [J(Always, 1 - n)]);
      LoopsBack(cx0.loops, LoopInfo(|cx0.locals|, tag, true));
      ExitLoop(exitJump, loopStart, v0, cc, b + [J(Always, 1 - n)]);
      r := Ok(());
    }

    method CompileDoWhile(s: Stmt) returns (r: Status)
      requires Valid() && s.DoWhile?
      modifies this, chunk
      ensures Compiles(r, StmtCode(nm, s, old(pendingLabel), old(Cx())))
      decreases s, 1
    {
      hide Reading, Tracks, OpsOk, ExprCode, StmtCode, CloseLoop, Infos, Below, Raw, J;
      DoWhileSpec(nm, s, pendingLabel, Cx());
      ViewBelow();
      ghost var v0, cx0 := view, Cx();
      var tag := TakePendingLabel();
      var loopStart := |chunk.code|;
      PushLoop(|locals|, tag, true);
      var _ :- CompileStmt(s.body);
      ghost var b := StmtCode(nm, s.body, None, InLoop(cx0, tag, true)).value;
      var continueTarget := |chunk.code|;
      var _ :- CompileExpr(s.condition);
      ghost var cc := ExprCode(nm, s.condition, b.locals).value;
      var exitJump := EmitForward(IfFalse);
      var back := EmitBack(Always, loopStart);
      ghost var n := |b.code| + |cc| + 2;
      assert loopStart - back == 1 - n;
      Appended4(v0, b.code, cc, [Raw(IfFalse, exitJump)], [J(Always, 1 - n)]);
      LoopsBack(cx0.loops, LoopInfo(|cx0.locals|, tag, true));
      ExitLoop(exitJump, continueTarget, v0, b.code + cc, [J(Always, 1 - n)]);
      r := Ok(());
    }

    method CompileLabeled(s: Stmt) returns (r: Status)
      requires Valid() && s.Labeled? && pendingLabel.None?
      modifies this, chunk
      ensures Compiles(r, StmtCode(nm, s, None, old(Cx())))
      decreases s, 1
    {
      hide Reading, Tracks, OpsOk, StmtCode, CloseLoop, Infos, Below;
      LabeledSpec(nm, s, Cx());
      if IsLoop(s.body) {
        pendingLabel := Some(s.tag);
        r := CompileStmt(s.body);
      } else {
        ViewBelow();
        ghost var v0, cx0 := view, Cx();
        var start := |chunk.code|;
        PushLoop(|locals|, Some(s.tag), false);
        var _ :- CompileStmt(s.body);
        ghost var b := StmtCode(nm, s.body, None, InLoop(cx0, Some(s.tag), false)).value.code;
        // A label that is no loop has no `continue` jumps, so their target does not matter.
        LoopsBack(cx0.loops, LoopInfo(|cx0.locals|, Some(s.tag), false));
        FinishLoop(|chunk.code|, start, v0, b);
        r := Ok(());
      }
    }

    /** The innermost loop, or labelled statement, that catches a jump to `tag`. */
    method FindLoopIndex(tag: Option<Name>, needLoop: bool) returns (i: Option<nat>)
      ensures i == FindLoop(Infos(loops), tag, needLoop)
    {
      var k := |loops|;
      assert Infos(loops)[..k] == Infos(loops);
      while k > 0
        invariant k <= |loops| && FindLoop(Infos(loops), tag, needLoop) == FindLoop(Infos(loops)[..k], tag, needLoop)
      {
        k := k - 1;
        assert Infos(loops)[..k + 1][..k] == Infos(loops)[..k];
        if Catches(Info(loops[k]), tag, needLoop) {
          return Some(k);
        }
      }
      i := None;
    }

    method PopLocalsTo(targetCount: nat)
      requires Valid()
      modifies this`view, chunk
      ensures Emits(Pops(if |locals| > targetCount then |locals| - targetCount else 0))
    {
      hide Reading, Tracks, OpsOk;
      var i := |locals|;
      assert view == old(view) + Pops(0);
      while i > targetCount
        invariant i <= |locals| && (i < |locals| ==> i >= targetCount)
        invariant Valid() && view == old(view) + Pops(|locals| - i)
      {
        i := i - 1;
        assert Pops(|locals| - i - 1) + [IPop] == Pops(|locals| - i);
        var _ := Emit(Op.Pop);
      }
    }

    method CompileBreak(s: Stmt) returns (r: Status)
      requires Valid() && s.Break? && pendingLabel.None?
      modifies this, chunk
      ensures Compiles(r, StmtCode(nm, s, None, old(Cx())))
    {
      var found := FindLoopIndex(s.target, false);
      match found {
        case None => r := Err(if s.target.Some? then LabelNotFound(s.target.value) else BreakOutsideLoop);
        case Some(i) =>
          EmitJumpOut(i, BreakOf(i));
          r := Ok(());
      }
    }

    method CompileContinue(s: Stmt) returns (r: Status)
      requires Valid() && s.Continue? && pendingLabel.None?
      modifies this, chunk
      ensures Compiles(r, StmtCode(nm, s, None, old(Cx())))
    {
      var found := FindLoopIndex(s.target, true);
      match found {
        case None => r := Err(if s.target.Some? then LoopLabelNotFound(s.target.value) else ContinueOutsideLoop);
        case Some(i) =>
          EmitJumpOut(i, ContinueOf(i));
          r := Ok(());
      }
    }

    /** Drops the slots the loop does not keep and leaves a jump on its list. */
    method EmitJumpOut(i: nat, t: Target)
      requires Valid() && i < |loops|
      requires t == BreakOf(i) || (t == ContinueOf(i) && loops[i].isLoop)
      modifies this`view, this`loops, this`pending, chunk
      ensures Infos(loops) == Infos(old(loops))
      ensures var extra := |locals| - old(loops)[i].localsCount;
              Emits(Pops(if extra > 0 then extra else 0) + [IJump(Always, t)])
    {
      hide Reading, Tracks, OpsOk;
      ghost var v0 := view;
      PopLocalsTo(loops[i].localsCount);
      ListsMore(chunk.code, chunk.constants, loops, pending, i, t);
      var jump := chunk.PushOp(Jump(Always, 0));
      var l := loops[i];
      loops := loops[i := WithJump(l, t, jump)];
      pending := pending[jump := t];
      view := Reading(chunk.code, chunk.constants, pending);
      Appended(v0, Pops(if |locals| > l.localsCount then |locals| - l.localsCount else 0), [IJump(Always, t)]);
    }

    method CompileFor(s: Stmt) returns (r: Status)
      requires Valid() && s.For?
      modifies this, chunk
      ensures Compiles(r, StmtCode(nm, s, old(pendingLabel), old(Cx())))
      decreases s, 1
    {
      hide Reading, Tracks, OpsOk, ExprCode, StmtCode, ForPieces, Below, ForCode, CloseLoop, Infos, ForLoopCode,
           Surviving;
      ForSpec(nm, s, pendingLabel, Cx());
      ViewBelow();
      ghost var v0 := view;
      var tag := TakePendingLabel();
      scopeDepth := scopeDepth + 1;
      r := CompileForLoop(s, tag);
      if r.Ok? {
        ghost var n, code := |locals|, view[|v0|..];
        EndScope();
        Appended(v0, code, Pops(n - |locals|));
      }
    }

    /** A `for` without the scope around it. */
    method CompileForLoop(s: Stmt, tag: Option<Name>) returns (r: Status)
      requires Valid() && s.For? && scopeDepth > 0 && pendingLabel.None?
      modifies this, chunk
      ensures Compiles(r, ForLoopCode(nm, s, tag, old(Cx()).(depth := old(scopeDepth) - 1)))
      decreases s, 0
    {
      hide Reading, Tracks, OpsOk, ExprCode, StmtCode, CloseLoop, Infos, Below, J, Raw, ForHeadOf, HeadTail,
           ForLoopCode, ForRow, UpdateAt;
      ViewBelow();
      ghost var v0, cx0 := view, Cx();
      ForLoopSpec(nm, s, tag, cx0.(depth := cx0.depth - 1));
      var exitJump, updateStart;
      r, exitJump, updateStart := CompileForHead(s);
      if r.Err? {
        return;
      }
      ghost var h := ForHeadOf(nm, s, cx0).value;
      HeadFacts(nm, s, cx0);
      PushLoop(|locals|, tag, true);
      var _ :- CompileStmt(s.body);
      ghost var b := StmtCode(nm, s.body, None, InLoop(cx0.(locals := h.init.locals), tag, true)).value.code;
      LoopsBack(cx0.loops, LoopInfo(|h.init.locals|, tag, true));
      CloseFor(s.forCondition.Some?, exitJump, updateStart, v0, h, b);
      r := Ok(());
    }

    /** The jump back to the update, and the end of the loop. */
    method CloseFor(tested: bool, exitJump: nat, updateStart: nat, ghost v: seq<Instr>, ghost h: ForHead,
                    ghost b: seq<Instr>)
      requires tested == h.tested && Valid() && |loops| > 0 && Below(v, |loops| - 1)
      requires var front := v + (h.init.code + h.cond);
               && view == (if h.tested then front + [Raw(IfFalse, exitJump)] else front) + HeadTail(h) + b
               && (h.tested ==> exitJump == |front|)
      requires updateStart == |view| - |b| - |h.update| - 1 && |HeadTail(h)| == 2 + |h.update|
      modifies this`view, this`loops, this`pending, chunk`code
      ensures Infos(loops) == Infos(old(loops))[..|old(loops)| - 1]
      ensures Valid()
      ensures view == v + CloseLoop(ForRow(h, b), |loops|, |ForRow(h, b)|, UpdateAt(h))
    {
      hide Reading, Tracks, OpsOk, CloseLoop, Below, J, Raw, HeadTail;
      ghost var front := h.init.code + h.cond;
      var next := EmitBack(Always, updateStart);
      ghost var j := [J(Always, -(|h.update| + 1 + |b|))];
      assert next - updateStart == |h.update| + 1 + |b|;
      ghost var rest := HeadTail(h) + b + j;
      ForJoined(v, front, if h.tested then [Raw(IfFalse, exitJump)] else [], HeadTail(h), b, j);
      if tested {
        ExitLoop(exitJump, updateStart, v, front, rest);
      } else {
        assert front + [] == front;
        FinishLoop(|chunk.code|, updateStart, v, front + rest);
      }
    }

    /** Initializer, test and update; the test's jump is still to be patched. */
    method CompileForHead(s: Stmt) returns (r: Status, exitJump: nat, updateStart: nat)
      requires Valid() && s.For? && pendingLabel.None?
      modifies this, chunk
      ensures Heads(s, r, exitJump, updateStart)
      decreases s, -1
    {
      hide Reading, Tracks, OpsOk, ExprCode, StmtCode, Infos, J, Raw, UpdateCodeOf;
      exitJump, updateStart := 0, 0;
      ghost var v0, cx0 := view, Cx();
      ghost var i: seq<Instr> := [];
      if s.forInit.Some? {
        r := CompileStmt(s.forInit.value);
        if r.Err? {
          return;
        }
        i := StmtCode(nm, s.forInit.value, None, cx0).value.code;
      }
      assert view == v0 + i;
      var condStart := |chunk.code|;
      ghost var c: seq<Instr> := [];
      if s.forCondition.Some? {
        r := CompileExpr(s.forCondition.value);
        if r.Err? {
          return;
        }
        c := ExprCode(nm, s.forCondition.value, locals).value;
        exitJump := EmitForward(IfFalse);
      }
      Appended(v0, i, c);
      assert view == if s.forCondition.Some? then v0 + (i + c) + [Raw(IfFalse, exitJump)] else v0 + (i + c);
      r, updateStart := CompileUpdate(s, condStart);
    }

    /** The jump over the update, the update, and the jump back to the test. */
    method CompileUpdate(s: Stmt, condStart: nat) returns (r: Status, updateStart: nat)
      requires Valid() && s.For? && pendingLabel.None? && condStart <= |view|
      modifies this`view, chunk
      ensures updateStart == |old(view)| + 1
      ensures Gives(r, UpdateOnlyCode(nm, s, locals, |old(view)| - condStart))
    {
      hide Reading, Tracks, OpsOk, ExprCode, J, Raw;
      ghost var v0 := view;
      var bodyJump := EmitForward(Always);
      updateStart := |chunk.code|;
      ghost var u: seq<Instr> := [];
      if s.update.Some? {
        r := CompileExpr(s.update.value);
        if r.Err? {
          return;
        }
        var _ := Emit(Op.Pop);
        u := ExprCode(nm, s.update.value, locals).value + [IPop];
        Appended(v0 + [Raw(Always, bodyJump)], ExprCode(nm, s.update.value, locals).value, [IPop]);
      }
      assert view == v0 + [Raw(Always, bodyJump)] + u;
      var back := EmitBack(Always, condStart);
      ghost var j := J(Always, condStart - back);
      assert v0 + [Raw(Always, bodyJump)] + u + [j] == v0 + ([] + [Raw(Always, bodyJump)] + (u + [j]));
      PatchHere(bodyJump, v0, [], Always, u + [j]);
      assert [] + [J(Always, 2 + |u|)] + (u + [j]) == [J(Always, 2 + |u|)] + u + [j];
      r := Ok(());
    }

    // ---- Switch ----

    /** A slot for the value on top of the stack. */
    method PushTemp() returns (slot: nat)
      modifies this`locals
      ensures slot == |old(locals)| && locals == old(locals) + [Local(None, scopeDepth, false, true)]
    {
      slot := |locals|;
      locals := locals + [Local(None, scopeDepth, false, true)];
    }

    /** One comparison; the jump to its body is still to be patched. */
    method CompileCaseTest(e: Expr, disc: nat) returns (r: Status, bodyJump: nat)
      requires Valid()
      modifies this`view, chunk
      ensures var t := ExprCode(nm, e, locals);
              if t.Err? then r == Err(t.error)
              else
                && r.Ok? && Valid() && bodyJump == |old(view)| + |TestPiece(t.value, disc)|
                && view == old(view) + TestPiece(t.value, disc) + [Raw(Always, bodyJump)]
    {
      hide Reading, Tracks, OpsOk, ExprCode, J, Raw;
      bodyJump := 0;
      ghost var v0 := view;
      var _ := Emit(GetLocal(disc));
      r := CompileExpr(e);
      if r.Err? {
        return;
      }
      ghost var t := ExprCode(nm, e, locals).value;
      var _ := Emit(Op.BinaryOp(StrictEqOp));
      Appended3(v0, [IGetLocal(disc)], t, [IBinary(StrictEqOp)]);
      ghost var front := [IGetLocal(disc)] + t + [IBinary(StrictEqOp)];
      var skip := EmitForward(IfFalse);
      bodyJump := EmitForward(Always);
      Appended3(v0, front, [Raw(IfFalse, skip)], [Raw(Always, bodyJump)]);
      PatchHere(skip, v0, front, IfFalse, [Raw(Always, bodyJump)]);
      Appended(v0, front + [J(IfFalse, 2)], [Raw(Always, bodyJump)]);
    }

    method CompileCaseTests(cases: seq<SwitchCase>, disc: nat) returns (r: Status, bodyJumps: seq<nat>)
      requires Valid()
      modifies this`view, chunk
      ensures var ts := CaseTests(nm, cases, locals);
              if ts.Err? then r == Err(ts.error)
              else
                var pieces := TestPieces(ts.value, disc);
                && r.Ok? && Valid() && bodyJumps == EndsOf(pieces, |old(view)|)
                && view == old(view) + Blocks(pieces, Zeros(|pieces|), |old(view)|)
    {
      hide Reading, Tracks, OpsOk, ExprCode, J, Raw, Blocks, EndsOf, Zeros, TestPieces, TestPiece, CaseTests,
           BodiesSize;
      ghost var v0, done: seq<seq<Instr>> := view, [];
      bodyJumps := [];
      TestsStart(nm, cases, locals);
      NothingYet(v0, disc);
      for i := 0 to |cases|
        invariant Valid() && view == v0 + Blocks(TestPieces(done, disc), Zeros(|done|), |v0|)
        invariant bodyJumps == EndsOf(TestPieces(done, disc), |v0|)
        invariant CaseTests(nm, cases, locals) == PrefixedTests(done, CaseTests(nm, cases[i..], locals))
      {
        TestsNext(nm, cases, i, locals, done);
        var bodyJump;
        r, bodyJump := CompileCaseTest(cases[i].value, disc);
        if r.Err? {
          return;
        }
        ghost var t := ExprCode(nm, cases[i].value, locals).value;
        OneMoreTest(v0, done, t, disc);
        bodyJumps := bodyJumps + [bodyJump];
        done := done + [t];
      }
      assert done + [] == done;
      r := Ok(());
    }

    /** The bodies: each test's jump is aimed at its body, and each body ends in a jump still to be patched. */
    method CompileCaseBodies(cases: seq<SwitchCase>, bodyJumps: seq<nat>, ghost v: seq<Instr>,
                             ghost pieces: seq<seq<Instr>>)
        returns (r: Status, endJumps: seq<nat>)
      requires Valid() && pendingLabel.None? && |pieces| == |cases| && bodyJumps == EndsOf(pieces, |v|)
      requires view == SwitchView(v, pieces, Zeros(|pieces|), [])
      modifies this, chunk
      ensures var bs := CaseBodies(nm, cases, old(Cx()));
              if bs.Err? then r == Err(bs.error)
              else
                var base := |v| + BodiesSize(pieces) + 1;
                && r.Ok? && Valid() && locals == bs.value.locals && scopeDepth == old(scopeDepth)
                && Infos(loops) == Infos(old(loops)) && pendingLabel.None?
                && view == SwitchView(v, pieces, Starts(bs.value.codes, base), bs.value.codes)
                && endJumps == EndsOf(bs.value.codes, base)
      decreases cases, 0
    {
      hide Reading, Tracks, OpsOk, J, Raw, SwitchView, EndsOf, Zeros, CaseBodies, BodiesSize, Starts, Infos, BlockCode,
           EndOf, Aimed;
      ghost var cx0, done, base := Cx(), [], |v| + BodiesSize(pieces) + 1;
      endJumps := [];
      BodiesStart(nm, cases, cx0);
      NoBodiesYet(|pieces|, base);
      for i := 0 to |cases|
        invariant Valid() && pendingLabel.None? && scopeDepth == cx0.depth && Infos(loops) == cx0.loops && |done| == i
        invariant view == SwitchView(v, pieces, Starts(done, base) + Zeros(|pieces| - i), done)
        invariant endJumps == EndsOf(done, base)
        invariant CaseBodies(nm, cases, cx0) == PrefixedBodies(done, CaseBodies(nm, cases[i..], Cx()))
      {
        BodiesNext(nm, cases, i, Cx(), done);
        AimAt(v, pieces, done, bodyJumps);
        PatchJump(bodyJumps[i], |chunk.code|);
        ghost var cx := Cx();
        assert cases[i].body < cases[i];
        var _ :- CompileBlockScoped(cases[i].body);
        ghost var h := BlockCode(nm, cases[i].body, cx).value;
        OneMoreBody(v, pieces, done, h.code);
        var endJump := EmitForward(Always);
        endJumps := endJumps + [endJump];
        done := done + [h.code];
      }
      BodiesEnd(nm, cases, Cx(), done);
      NoneLeft(done, base);
      r := Ok(());
    }

    /** Aims the jumps behind the bodies at the end. */
    method PatchEnds(endJumps: seq<nat>, ghost front: seq<Instr>, ghost codes: seq<seq<Instr>>, ghost tail: seq<Instr>)
      requires Valid() && endJumps == EndsOf(codes, |front|)
      requires view == front + Blocks(codes, Zeros(|codes|), |front|) + tail
      modifies this`view, chunk`code
      ensures Valid() && |view| == |old(view)|
      ensures view == front + Blocks(codes, Ended(|codes|, |codes|, |view|), |front|) + tail
    {
      hide Reading, Tracks, OpsOk, Blocks, EndsOf, Ended, Zeros;
      var end := |chunk.code|;
      assert Zeros(|codes|) == Ended(|codes|, 0, end);
      for k := 0 to |endJumps|
        invariant Valid() && |view| == end && chunk.constants == old(chunk.constants)
        invariant view == front + Blocks(codes, Ended(|codes|, k, end), |front|) + tail
      {
        EndAt(front, codes, tail, endJumps, k, end);
        PatchJump(endJumps[k], end);
      }
    }

    method CompileSwitch(s: Stmt) returns (r: Status)
      requires Valid() && s.Switch? && pendingLabel.None?
      modifies this, chunk
      ensures Compiles(r, StmtCode(nm, s, None, old(Cx())))
      decreases s, 1
    {
      hide Reading, Tracks, OpsOk, ExprCode, StmtCode, SwitchCode, CaseTests, CaseBodies, BlockCode, Infos;
      SwitchSpec(nm, s, Cx());
      ghost var v0 := view;
      scopeDepth := scopeDepth + 1;
      var _ :- CompileExpr(s.scrutinee);
      ghost var ec := ExprCode(nm, s.scrutinee, locals).value;
      var disc := PushTemp();
      r := CompileCases(s, disc, v0, ec);
      if r.Ok? {
        ghost var n, code := |locals|, view[|v0|..];
        EndScope();
        Appended(v0, code, Pops(n - |locals|));
      }
    }

    /** A `switch` without the scope around it, once its scrutinee, computed by `ec`, is on the stack. */
    method CompileCases(s: Stmt, disc: nat, ghost v0: seq<Instr>, ghost ec: seq<Instr>) returns (r: Status)
      requires Valid() && s.Switch? && pendingLabel.None? && view == v0 + ec
      modifies this, chunk
      ensures var c := CasesCode(nm, s, ec, old(Cx()), disc);
              if c.Err? then r == Err(c.error)
              else
                && r.Ok? && Valid() && view == v0 + c.value.code && locals == c.value.locals
                && scopeDepth == old(scopeDepth) && Infos(loops) == Infos(old(loops)) && pendingLabel.None?
      decreases s, 0
    {
      hide Reading, Tracks, OpsOk, SwitchCode, CaseTests, CaseBodies, BlockCode, Infos, SwitchView, Blocks, EndsOf,
           Starts, Zeros, TestPieces, BodiesSize, J, Raw;
      ghost var v := view;
      var bodyJumps, endJumps;
      r, bodyJumps := CompileCaseTests(s.cases, disc);
      if r.Err? {
        return;
      }
      ghost var tests := CaseTests(nm, s.cases, locals).value;
      ghost var pieces := TestPieces(tests, disc);
      SwitchBegins(v, pieces);
      var defaultJump := EmitForward(Always);
      r, endJumps := CompileCaseBodies(s.cases, bodyJumps, v, pieces);
      if r.Err? {
        return;
      }
      ghost var codes, base := CaseBodies(nm, s.cases, old(Cx())).value.codes, |v| + BodiesSize(pieces) + 1;
      ghost var a, b := Blocks(pieces, Starts(codes, base), |v|), Blocks(codes, Zeros(|codes|), base);
      SwitchSplits(v, pieces, codes);
      PatchHere(defaultJump, v, a, Always, b);
      Appended3(v, a, [J(Always, 1 + |b|)], b);
      r := FinishCases(s, endJumps, v + a + [J(Always, 1 + |b|)], codes);
      if r.Ok? {
        ghost var dg := DefaultCode(nm, s, old(Cx()).(locals := CaseBodies(nm, s.cases, old(Cx())).value.locals)).value;
        SwitchLaid(v0, SwitchParts(ec, tests, codes, dg.code, dg.locals), disc);
      }
    }

    /** The default, and the ends of the bodies. */
    method FinishCases(s: Stmt, endJumps: seq<nat>, ghost front: seq<Instr>, ghost codes: seq<seq<Instr>>)
        returns (r: Status)
      requires Valid() && s.Switch? && pendingLabel.None? && endJumps == EndsOf(codes, |front|)
      requires view == front + Blocks(codes, Zeros(|codes|), |front|)
      modifies this, chunk
      ensures var dg := DefaultCode(nm, s, old(Cx()));
              if dg.Err? then r == Err(dg.error)
              else
                && r.Ok? && Valid() && locals == dg.value.locals && scopeDepth == old(scopeDepth)
                && Infos(loops) == Infos(old(loops)) && pendingLabel.None?
                && view == front + Blocks(codes, Ended(|codes|, |codes|, |view|), |front|) + dg.value.code
      decreases s, -1
    {
      hide Reading, Tracks, OpsOk, BlockCode, Infos, Blocks, EndsOf, Ended, Zeros, BodiesSize;
      ghost var tail: seq<Instr> := [];
      ghost var cx := Cx();
      assert view == view + tail;
      if s.defaultBlock.Some? {
        var _ :- CompileBlockScoped(s.defaultBlock.value);
        tail := BlockCode(nm, s.defaultBlock.value, cx).value.code;
      }
      PatchEnds(endJumps, front, codes, tail);
      r := Ok(());
    }

    // ---- A whole script ----

    method CompileGlobalList(items: seq<Stmt>) returns (r: Status)
      requires Valid() && pendingLabel.None?
      modifies this, chunk
      ensures Compiles(r, GlobalListCode(nm, items, old(Cx())))
    {
      hide Reading, Tracks, OpsOk, StmtCode, Infos, GlobalListCode;
      ghost var v0, cx0, done := view, Cx(), [];
      GlobalStart(nm, items, cx0);
      for i := 0 to |items|
        invariant Valid() && pendingLabel.None? && scopeDepth == cx0.depth && Infos(loops) == cx0.loops
        invariant view == v0 + done
        invariant GlobalListCode(nm, items, cx0) == Prefixed(done, GlobalListCode(nm, items[i..], Cx()))
      {
        ghost var cx := Cx();
        GlobalNext(nm, items, i, cx, done);
        var _ :- CompileStmt(items[i]);
        ghost var h := StmtCode(nm, items[i], None, cx).value;
        Appended(v0, done, h.code);
        done := done + h.code;
      }
      GlobalEnd(nm, items, Cx());
      assert done + [] == done;
      r := Ok(());
    }
  }

  /** `compile_program`: the chunk of a script, or the first error. */
  method CompileProgram(nm: Numerics, items: seq<Stmt>) returns (r: Result<Code, CompileError>)
    ensures var c := ProgramCode(nm, items);
            if c.Err? then r == Err(c.error)
            else r.Ok? && r.value.Ok() && r.value.Instrs() == c.value
  {
    hide GlobalListCode;
    var c := new Compiler(nm);
    var _ :- c.CompileGlobalList(items);
    ghost var g := GlobalListCode(nm, items, Start).value;
    var _ := c.Emit(PushUndefined);
    var _ := c.Emit(Op.Return);
    assert c.view == g.code + [IPush(Undefined)] + [IReturn];
    var code := Code(c.chunk.code, c.chunk.constants);
    NothingPending(c.loops, c.pending, c.chunk.code);
    assert code.Instrs() == c.view;
    r := Ok(code);
  }

  lemma NothingPending(loops: seq<LoopCtx>, pending: map<nat, Target>, ops: seq<Op>)
    requires Tracks(loops, pending, ops) && loops == []
    ensures forall j :: j !in pending
  {
    assert forall j, t :: !Listed(loops, j, t);
  }
}
