/** The shape of the code of each kind of expression, one lemma a kind. */
module ExprParts {
  import opened Syntax
  import opened Values
  import opened Bytecode
  import opened Folding
  import opened Codegen

  lemma StrictCode(nm: Numerics, e: Expr, locals: seq<Local>) returns (l: seq<Instr>, r: seq<Instr>)
    requires e.Binary? && FoldConst(nm, e).None? && BinaryInstr(e.op).Some? && ExprCode(nm, e, locals).Ok?
    ensures ExprCode(nm, e.lhs, locals) == Ok(l) && ExprCode(nm, e.rhs, locals) == Ok(r)
    ensures ExprCode(nm, e, locals).value == l + r + [IBinary(BinaryInstr(e.op).value)]
  {
    l, r := ExprCode(nm, e.lhs, locals).value, ExprCode(nm, e.rhs, locals).value;
  }

  lemma CompoundCode(nm: Numerics, e: Expr, locals: seq<Local>) returns (l: seq<Instr>, r: seq<Instr>, w: seq<Instr>)
    requires e.Binary? && FoldConst(nm, e).None? && CompoundInstr(e.op).Some? && ExprCode(nm, e, locals).Ok?
    ensures e.lhs.Identifier? && GetCode(locals, e.lhs.name) == Ok(l) && ExprCode(nm, e.rhs, locals) == Ok(r)
    ensures SetCode(locals, e.lhs.name) == Ok(w)
    ensures ExprCode(nm, e, locals).value == l + r + [IBinary(CompoundInstr(e.op).value)] + w
  {
    l, r := GetCode(locals, e.lhs.name).value, ExprCode(nm, e.rhs, locals).value;
    w := SetCode(locals, e.lhs.name).value;
  }

  function PostfixOperator(pop: PostfixOp): VmBinary {
    if pop.Increment? then AddOp else SubOp
  }

  lemma PostfixCode(nm: Numerics, e: Expr, locals: seq<Local>) returns (g: seq<Instr>, w: seq<Instr>)
    requires e.Postfix? && ExprCode(nm, e, locals).Ok?
    ensures e.operand.Identifier? && GetCode(locals, e.operand.name) == Ok(g)
    ensures SetCode(locals, e.operand.name) == Ok(w)
    ensures ExprCode(nm, e, locals).value == g + [IUnary(PosOp)] + [IDup] + [IPush(Number(nm.one))]
                                             + [IBinary(PostfixOperator(e.pop))] + w + [IPop]
  {
    g, w := GetCode(locals, e.operand.name).value, SetCode(locals, e.operand.name).value;
  }

  lemma ShortCode(nm: Numerics, e: Expr, locals: seq<Local>) returns (l: seq<Instr>, r: seq<Instr>)
    requires e.Binary? && FoldConst(nm, e).None? && (e.op.And? || e.op.Or? || IsLogicalAssign(e.op))
    requires ExprCode(nm, e, locals).Ok?
    ensures ExprCode(nm, e.lhs, locals) == Ok(l)
    ensures if IsLogicalAssign(e.op) then e.lhs.Identifier?
              && ExprCode(nm, Assignment(e.lhs.name, e.rhs), locals) == Ok(r)
            else ExprCode(nm, e.rhs, locals) == Ok(r)
    ensures ExprCode(nm, e, locals).value == l + [J(ShortJump(e.op), 2 + |r|)] + [IPop] + r
  {
    l := ExprCode(nm, e.lhs, locals).value;
    if IsLogicalAssign(e.op) {
      r := ExprCode(nm, Assignment(e.lhs.name, e.rhs), locals).value;
    } else {
      r := ExprCode(nm, e.rhs, locals).value;
    }
  }

  lemma NullishCode(nm: Numerics, e: Expr, locals: seq<Local>) returns (l: seq<Instr>, r: seq<Instr>)
    requires e.Binary? && FoldConst(nm, e).None? && e.op.NullishCoalescing?
    requires ExprCode(nm, e, locals).Ok?
    ensures ExprCode(nm, e.lhs, locals) == Ok(l) && ExprCode(nm, e.rhs, locals) == Ok(r)
    ensures ExprCode(nm, e, locals).value == l + [J(IfNullishPeek, 2)] + [J(Always, 2 + |r|)] + [IPop] + r
  {
    l, r := ExprCode(nm, e.lhs, locals).value, ExprCode(nm, e.rhs, locals).value;
  }

  lemma ConditionalCode(nm: Numerics, e: Expr, locals: seq<Local>) returns (c: seq<Instr>, t: seq<Instr>, f: seq<Instr>)
    requires e.Conditional? && ExprCode(nm, e, locals).Ok?
    ensures ExprCode(nm, e.condition, locals) == Ok(c)
    ensures ExprCode(nm, e.thenExpr, locals) == Ok(t) && ExprCode(nm, e.elseExpr, locals) == Ok(f)
    ensures ExprCode(nm, e, locals).value == c + [J(IfFalse, 2 + |t|)] + t + [J(Always, 1 + |f|)] + f
  {
    c, t := ExprCode(nm, e.condition, locals).value, ExprCode(nm, e.thenExpr, locals).value;
    f := ExprCode(nm, e.elseExpr, locals).value;
  }

  /** No jump is left for an enclosing loop to fill in. */
  ghost predicate Closed(c: seq<Instr>) {
    forall k :: 0 <= k < |c| && c[k].IJump? ==> c[k].target.Rel?
  }

  lemma ClosedShort(l: seq<Instr>, j: Instr, r: seq<Instr>)
    requires Closed(l) && Closed(r) && (j.IJump? ==> j.target.Rel?)
    ensures Closed(l + [j] + [IPop] + r)
  {
  }

  /** The code of an expression never leaves the expression. */
  lemma {:induction false} ExprClosed(nm: Numerics, e: Expr, locals: seq<Local>)
    requires ExprCode(nm, e, locals).Ok?
    ensures Closed(ExprCode(nm, e, locals).value)
    decreases e, 1
  {
    if FoldConst(nm, e).None? {
      match e
      case Identifier(_) =>
      case Lit(_) =>
      case Grouping(inner) => ExprClosed(nm, inner, locals);
      case Unary(_, operand) => ExprClosed(nm, operand, locals);
      case Binary(op, lhs, rhs) => BinaryClosed(nm, e, locals);
      case Assignment(_, value) => ExprClosed(nm, value, locals);
      case Postfix(_, _) => var g, w := PostfixCode(nm, e, locals);
      case Conditional(_, _, _) => ConditionalClosed(nm, e, locals);
    } else {
      FoldedCode(nm, e, locals);
    }
  }

  lemma {:induction false} ConditionalClosed(nm: Numerics, e: Expr, locals: seq<Local>)
    requires e.Conditional? && ExprCode(nm, e, locals).Ok?
    ensures Closed(ExprCode(nm, e, locals).value)
    decreases e, 0
  {
    var c, t, f := ConditionalCode(nm, e, locals);
    hide ExprCode;
    ExprClosed(nm, e.condition, locals);
    ExprClosed(nm, e.thenExpr, locals);
    ExprClosed(nm, e.elseExpr, locals);
  }

  lemma {:induction false} BinaryClosed(nm: Numerics, e: Expr, locals: seq<Local>)
    requires e.Binary? && FoldConst(nm, e).None? && ExprCode(nm, e, locals).Ok?
    ensures Closed(ExprCode(nm, e, locals).value)
    decreases e, 0
  {
    if e.op.Assign? {
      ExprClosed(nm, e.rhs, locals);
    } else if CompoundInstr(e.op).Some? {
      var l, r, w := CompoundCode(nm, e, locals);
      ExprClosed(nm, e.rhs, locals);
    } else if e.op.NullishCoalescing? {
      var l, r := NullishCode(nm, e, locals);
      hide ExprCode;
      ExprClosed(nm, e.lhs, locals);
      ExprClosed(nm, e.rhs, locals);
      ClosedShort(l + [J(IfNullishPeek, 2)], J(Always, 2 + |r|), r);
    } else if BinaryInstr(e.op).Some? {
      var l, r := StrictCode(nm, e, locals);
      hide ExprCode;
      ExprClosed(nm, e.lhs, locals);
      ExprClosed(nm, e.rhs, locals);
    } else {
      ShortClosed(nm, e, locals);
    }
  }

  lemma {:induction false} ShortClosed(nm: Numerics, e: Expr, locals: seq<Local>)
    requires e.Binary? && FoldConst(nm, e).None? && ExprCode(nm, e, locals).Ok?
    requires !e.op.Assign? && CompoundInstr(e.op).None? && !e.op.NullishCoalescing? && BinaryInstr(e.op).None?
    ensures Closed(ExprCode(nm, e, locals).value)
    decreases e, -1
  {
    var l, r := ShortCode(nm, e, locals);
    ExprClosed(nm, e.lhs, locals);
    if IsLogicalAssign(e.op) {
      AssignmentClosed(nm, e.lhs.name, e.rhs, locals);
    } else {
      ExprClosed(nm, e.rhs, locals);
    }
    hide ExprCode;
    ClosedShort(l, J(ShortJump(e.op), 2 + |r|), r);
  }

  lemma {:induction false} AssignmentClosed(nm: Numerics, x: Name, value: Expr, locals: seq<Local>)
    requires ExprCode(nm, Assignment(x, value), locals).Ok?
    ensures Closed(ExprCode(nm, Assignment(x, value), locals).value)
    decreases value, 2
  {
    ExprClosed(nm, value, locals);
  }

  lemma {:induction false} FoldedCode(nm: Numerics, e: Expr, locals: seq<Local>)
    requires FoldConst(nm, e).Some?
    ensures ExprCode(nm, e, locals) == Ok([IPush(Folded(FoldConst(nm, e).value))])
  {
    if e.Grouping? {
      FoldedCode(nm, e.inner, locals);
    }
  }
}
