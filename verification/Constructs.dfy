/** The code of one construct at a time, in the order the compiler produces it and with the first error it meets. */
module Constructs {
  import opened Syntax
  import opened Values
  import opened Bytecode
  import opened Folding
  import opened Codegen
  import opened Emission

  lemma ShortSpec(nm: Numerics, e: Expr, locals: seq<Local>)
    requires e.Binary? && (e.op.And? || e.op.Or?) && FoldConst(nm, e).None?
    ensures ExprCode(nm, e, locals)
              == (var l :- ExprCode(nm, e.lhs, locals);
                  var r :- ExprCode(nm, e.rhs, locals);
                  Ok(l + [J(ShortJump(e.op), 2 + |r|)] + ([IPop] + r)))
  {
    var l, r := ExprCode(nm, e.lhs, locals), ExprCode(nm, e.rhs, locals);
    if l.Ok? && r.Ok? {
      Appended(l.value + [J(ShortJump(e.op), 2 + |r.value|)], [IPop], r.value);
    }
  }

  lemma LogicalAssignSpec(nm: Numerics, e: Expr, locals: seq<Local>)
    requires e.Binary? && IsLogicalAssign(e.op) && FoldConst(nm, e).None?
    ensures ExprCode(nm, e, locals)
              == (var l :- ExprCode(nm, e.lhs, locals);
                  if !e.lhs.Identifier? then Err(BadAssignmentTarget)
                  else
                    var c :- ExprCode(nm, Assignment(e.lhs.name, e.rhs), locals);
                    Ok(l + [J(ShortJump(e.op), 2 + |c|)] + ([IPop] + c)))
  {
    var l, r := ExprCode(nm, e.lhs, locals), ExprCode(nm, e.rhs, locals);
    if l.Ok? && e.lhs.Identifier? && r.Ok? && SetCode(locals, e.lhs.name).Ok? {
      var s := SetCode(locals, e.lhs.name).value;
      var head := l.value + [J(ShortJump(e.op), 2 + |r.value| + |s|)];
      Appended(head + [IPop], r.value, s);
      Appended(head, [IPop], r.value + s);
    }
  }

  lemma NullishSpec(nm: Numerics, e: Expr, locals: seq<Local>)
    requires e.Binary? && e.op.NullishCoalescing? && FoldConst(nm, e).None?
    ensures ExprCode(nm, e, locals)
              == (var l :- ExprCode(nm, e.lhs, locals);
                  var r :- ExprCode(nm, e.rhs, locals);
                  Ok(l + [J(IfNullishPeek, 2)] + [J(Always, 2 + |r|)] + ([IPop] + r)))
  {
    var l, r := ExprCode(nm, e.lhs, locals), ExprCode(nm, e.rhs, locals);
    if l.Ok? && r.Ok? {
      Appended(l.value + [J(IfNullishPeek, 2)] + [J(Always, 2 + |r.value|)], [IPop], r.value);
    }
  }

  lemma ConditionalSpec(nm: Numerics, e: Expr, locals: seq<Local>)
    requires e.Conditional?
    ensures ExprCode(nm, e, locals)
              == (var c :- ExprCode(nm, e.condition, locals);
                  var t :- ExprCode(nm, e.thenExpr, locals);
                  var f :- ExprCode(nm, e.elseExpr, locals);
                  Ok(c + [J(IfFalse, 2 + |t|)] + t + [J(Always, 1 + |f|)] + f))
  {
  }

  function SimpleExpr(s: Stmt): Option<Expr>
    requires s.ExprStmt? || s.Return? || s.Throw?
  {
    match s
    case ExprStmt(e) => Some(e)
    case Throw(e) => Some(e)
    case Return(v) => v
  }

  function SimpleLast(s: Stmt): Instr
    requires s.ExprStmt? || s.Return? || s.Throw?
  {
    if s.ExprStmt? then IPop else if s.Throw? then IThrow else IReturn
  }

  lemma SimpleSpec(nm: Numerics, s: Stmt, cx: Context)
    requires s.ExprStmt? || s.Return? || s.Throw?
    ensures StmtCode(nm, s, None, cx)
              == (var c :- if SimpleExpr(s).Some? then ExprCode(nm, SimpleExpr(s).value, cx.locals)
                           else Ok([IPush(Undefined)]);
                  Ok(Gen(c + [SimpleLast(s)], cx.locals)))
  {
  }

  lemma IfSpec(nm: Numerics, s: Stmt, cx: Context)
    requires s.If?
    ensures StmtCode(nm, s, None, cx)
              == (var c :- ExprCode(nm, s.condition, cx.locals);
                  var t :- StmtCode(nm, s.thenBranch, None, cx);
                  if s.elseBranch.None? then Ok(Gen(c + [J(IfFalse, 1 + |t.code|)] + t.code, t.locals))
                  else
                    var f :- StmtCode(nm, s.elseBranch.value, None, cx.(locals := t.locals));
                    Ok(Gen(c + [J(IfFalse, 2 + |t.code|)] + t.code + [J(Always, 1 + |f.code|)] + f.code, f.locals)))
  {
  }

  lemma WhileSpec(nm: Numerics, s: Stmt, tag: Option<Name>, cx: Context)
    requires s.While?
    ensures StmtCode(nm, s, tag, cx)
              == (var c :- ExprCode(nm, s.condition, cx.locals);
                  var b :- StmtCode(nm, s.body, None, InLoop(cx, tag, true));
                  var n := |c| + |b.code| + 2;
                  Ok(Gen(CloseLoop(c + [J(IfFalse, 2 + |b.code|)] + (b.code + [J(Always, 1 - n)]), |cx.loops|, n, 0),
                         b.locals)))
  {
    hide CloseLoop, ExprCode;
    var c, b := ExprCode(nm, s.condition, cx.locals), StmtCode(nm, s.body, None, InLoop(cx, tag, true));
    if c.Ok? && b.Ok? {
      Appended(c.value + [J(IfFalse, 2 + |b.value.code|)], b.value.code,
               [J(Always, 1 - (|c.value| + |b.value.code| + 2))]);
    }
  }

  lemma DoWhileSpec(nm: Numerics, s: Stmt, tag: Option<Name>, cx: Context)
    requires s.DoWhile?
    ensures StmtCode(nm, s, tag, cx)
              == (var b :- StmtCode(nm, s.body, None, InLoop(cx, tag, true));
                  var c :- ExprCode(nm, s.condition, b.locals);
                  var n := |b.code| + |c| + 2;
                  Ok(Gen(CloseLoop(b.code + c + [J(IfFalse, 2)] + [J(Always, 1 - n)], |cx.loops|, n, |b.code|),
                         b.locals)))
  {
  }

  lemma LabeledSpec(nm: Numerics, s: Stmt, cx: Context)
    requires s.Labeled?
    ensures StmtCode(nm, s, None, cx)
              == if IsLoop(s.body) then StmtCode(nm, s.body, Some(s.tag), cx)
                 else
                   var b :- StmtCode(nm, s.body, None, InLoop(cx, Some(s.tag), false));
                   Ok(Gen(CloseLoop(b.code, |cx.loops|, |b.code|, 0), b.locals))
  {
  }

  lemma ForSpec(nm: Numerics, s: Stmt, tag: Option<Name>, cx: Context)
    requires s.For?
    ensures StmtCode(nm, s, tag, cx)
              == (var g :- ForLoopCode(nm, s, tag, cx);
                  Ok(LeaveCode(g, cx.depth + 1)))
  {
    hide ForPieces, ForCode;
  }

  /** The header of a `for`, and its update with the value dropped; `tested` says whether there is a test. */
  datatype ForHead = ForHead(init: Gen, cond: seq<Instr>, update: seq<Instr>, tested: bool)

  function ForHeadOf(nm: Numerics, s: Stmt, cx: Context): Result<ForHead, CompileError>
    requires s.For?
  {
    var ig :- if s.forInit.Some? then StmtCode(nm, s.forInit.value, None, cx) else Ok(Gen([], cx.locals));
    var cc :- if s.forCondition.Some? then ExprCode(nm, s.forCondition.value, ig.locals) else Ok([]);
    var uc :- UpdateCodeOf(nm, s, ig.locals);
    Ok(ForHead(ig, cc, uc, s.forCondition.Some?))
  }

  function UpdateCodeOf(nm: Numerics, s: Stmt, locals: seq<Local>): CodeResult
    requires s.For?
  {
    if s.update.None? then Ok([])
    else
      var c :- ExprCode(nm, s.update.value, locals);
      Ok(c + [IPop])
  }

  /** The update between the jump over it and the jump back, which goes `dist` further back than the first of them. */
  function UpdateOnlyCode(nm: Numerics, s: Stmt, locals: seq<Local>, dist: nat): CodeResult
    requires s.For?
  {
    var u :- UpdateCodeOf(nm, s, locals);
    Ok([J(Always, 2 + |u|)] + u + [J(Always, -(dist + 1 + |u|))])
  }

  function HeadTail(h: ForHead): seq<Instr> {
    var dist := |h.cond| + if h.tested then 1 else 0;
    [J(Always, 2 + |h.update|)] + h.update + [J(Always, -(dist + 1 + |h.update|))]
  }

  function ForLoopCode(nm: Numerics, s: Stmt, tag: Option<Name>, cx: Context): Result<Gen, CompileError>
    requires s.For?
  {
    var p :- ForPieces(nm, s, tag, cx);
    Ok(Gen(ForCode(p, s.forCondition.Some?, s.update.Some?, |cx.loops|), p.body.locals))
  }

  /** The loop of a `for`, all its pieces in a row. */
  function ForRow(h: ForHead, b: seq<Instr>): seq<Instr> {
    var rest := HeadTail(h) + b + [J(Always, -(|h.update| + 1 + |b|))];
    if h.tested then h.init.code + h.cond + [J(IfFalse, 1 + |rest|)] + rest else h.init.code + h.cond + rest
  }

  function UpdateAt(h: ForHead): nat {
    |h.init.code| + |h.cond| + (if h.tested then 1 else 0) + 1
  }

  lemma ForLoopSpec(nm: Numerics, s: Stmt, tag: Option<Name>, cx: Context)
    requires s.For?
    ensures ForLoopCode(nm, s, tag, cx)
              == (var h :- ForHeadOf(nm, s, Deeper(cx));
                  var b :- StmtCode(nm, s.body, None, InLoop(Deeper(cx).(locals := h.init.locals), tag, true));
                  var code := ForRow(h, b.code);
                  Ok(Gen(CloseLoop(code, |cx.loops|, |code|, UpdateAt(h)), b.locals)))
  {
    hide StmtCode, ExprCode, ForPieces, ForHeadOf, CloseLoop, ForRow, UpdateAt, ForCode, HeadTail;
    ForPiecesParts(nm, s, tag, cx);
    var p := ForPieces(nm, s, tag, cx);
    if p.Ok? {
      ForFlat(p.value, s.forCondition.Some?, s.update.Some?, |cx.loops|);
    }
  }

  lemma HeadFacts(nm: Numerics, s: Stmt, cx: Context)
    requires s.For? && ForHeadOf(nm, s, cx).Ok?
    ensures var h := ForHeadOf(nm, s, cx).value;
            h.tested == s.forCondition.Some? && |HeadTail(h)| == 2 + |h.update|
  {
    hide ExprCode, StmtCode;
  }

  lemma ForPiecesParts(nm: Numerics, s: Stmt, tag: Option<Name>, cx: Context)
    requires s.For?
    ensures var p := ForPieces(nm, s, tag, cx);
            var h := ForHeadOf(nm, s, Deeper(cx));
            && (h.Err? ==> p == Err(h.error))
            && (h.Ok? ==>
                  var b := StmtCode(nm, s.body, None, InLoop(Deeper(cx).(locals := h.value.init.locals), tag, true));
                  if b.Err? then p == Err(b.error)
                  else
                    && p.Ok? && p.value.body == b.value
                    && h.value
                      == ForHead(p.value.init, p.value.cond, Update(p.value.update, s.update.Some?),
                                 s.forCondition.Some?)
                    && (s.forCondition.None? ==> p.value.cond == []))
  {
    hide StmtCode, ExprCode;
  }

  lemma ForFlat(p: ForParts, hasCond: bool, hasUpdate: bool, idx: nat)
    requires !hasCond ==> p.cond == []
    ensures var h := ForHead(p.init, p.cond, Update(p.update, hasUpdate), hasCond);
            var code := ForRow(h, p.body.code);
            ForCode(p, hasCond, hasUpdate, idx) == CloseLoop(code, idx, |code|, UpdateAt(h))
  {
    hide CloseLoop, Update;
    var u, b, i, c := Update(p.update, hasUpdate), p.body.code, p.init.code, p.cond;
    var jif := if hasCond then [J(IfFalse, |u| + |b| + 4)] else [];
    var updateAt := |i| + |c| + |jif| + 1;
    var bodyAt := updateAt + |u| + 1;
    var exit := bodyAt + |b| + 1;
    var over, back, next := J(Always, |u| + 2), J(Always, |i| - (bodyAt - 1)), J(Always, updateAt - (exit - 1));
    ForRegroup(i, c, jif, over, u, back, b, next);
  }

  lemma ForRegroup(i: seq<Instr>, c: seq<Instr>, jif: seq<Instr>, over: Instr, u: seq<Instr>, back: Instr,
                   b: seq<Instr>, next: Instr)
    ensures i + ((c + jif) + [over] + (u + [back]) + b + [next]) == i + c + jif + (([over] + u + [back]) + b + [next])
    ensures i + c + [] == i + c
  {
  }

  /** Code already emitted, before the code still to come. */
  function Prefixed(done: seq<Instr>, rest: Result<Gen, CompileError>): Result<Gen, CompileError> {
    match rest
    case Ok(g) => Ok(Gen(done + g.code, g.locals))
    case Err(e) => Err(e)
  }

  lemma ReservedNone(d: nat)
    ensures Reserved([], d) == []
  {
  }

  lemma ReservedNext(stmts: seq<Stmt>, i: nat, d: nat, done: seq<Local>)
    requires i < |stmts|
    ensures done + Reserved(stmts[i..], d)
              == (if stmts[i].VarDecl? then done + [Local(Some(stmts[i].name), d, stmts[i].isConst, false)] else done)
                 + Reserved(stmts[i + 1..], d)
  {
    assert stmts[i..][1..] == stmts[i + 1..];
  }

  lemma UndefinedsMore(view: seq<Instr>, v: seq<Instr>, n: nat)
    requires view == v + Undefineds(n)
    ensures view + [IPush(Undefined)] == v + Undefineds(n + 1)
  {
    assert Undefineds(n) + [IPush(Undefined)] == Undefineds(n + 1);
  }

  lemma ListStart(nm: Numerics, stmts: seq<Stmt>, cx: Context)
    ensures ListCode(nm, stmts, cx) == Prefixed([], ListCode(nm, stmts[0..], cx))
  {
    assert stmts[0..] == stmts;
    var r := ListCode(nm, stmts, cx);
    assert r.Ok? ==> [] + r.value.code == r.value.code;
  }

  lemma ListNext(nm: Numerics, stmts: seq<Stmt>, i: nat, cx: Context, done: seq<Instr>)
    requires i < |stmts|
    ensures Prefixed(done, ListCode(nm, stmts[i..], cx))
              == (match ItemCode(nm, stmts[i], cx)
                  case Err(e) => Err(e)
                  case Ok(h) => Prefixed(done + h.code, ListCode(nm, stmts[i + 1..], cx.(locals := h.locals))))
  {
    hide ItemCode;
    assert stmts[i..][1..] == stmts[i + 1..];
    match ItemCode(nm, stmts[i], cx)
    case Err(_) =>
    case Ok(h) =>
      var t := ListCode(nm, stmts[i + 1..], cx.(locals := h.locals));
      if t.Ok? {
        Appended(done, h.code, t.value.code);
      }
  }

  lemma GlobalStart(nm: Numerics, items: seq<Stmt>, cx: Context)
    ensures GlobalListCode(nm, items, cx) == Prefixed([], GlobalListCode(nm, items[0..], cx))
  {
    assert items[0..] == items;
    var r := GlobalListCode(nm, items, cx);
    assert r.Ok? ==> [] + r.value.code == r.value.code;
  }

  lemma GlobalEnd(nm: Numerics, items: seq<Stmt>, cx: Context)
    ensures GlobalListCode(nm, items[|items|..], cx) == Ok(Gen([], cx.locals))
  {
  }

  lemma GlobalNext(nm: Numerics, items: seq<Stmt>, i: nat, cx: Context, done: seq<Instr>)
    requires i < |items|
    ensures Prefixed(done, GlobalListCode(nm, items[i..], cx))
              == (match StmtCode(nm, items[i], None, cx)
                  case Err(e) => Err(e)
                  case Ok(h) => Prefixed(done + h.code, GlobalListCode(nm, items[i + 1..], cx.(locals := h.locals))))
  {
    hide StmtCode;
    assert items[i..][1..] == items[i + 1..];
    match StmtCode(nm, items[i], None, cx)
    case Err(_) =>
    case Ok(h) =>
      var t := GlobalListCode(nm, items[i + 1..], cx.(locals := h.locals));
      if t.Ok? {
        Appended(done, h.code, t.value.code);
      }
  }

  lemma ForJoined(v: seq<Instr>, front: seq<Instr>, raw: seq<Instr>, tail: seq<Instr>, b: seq<Instr>, next: seq<Instr>)
    ensures v + front + raw + tail + b + next == v + (front + raw + (tail + b + next))
    ensures raw == [] ==> v + front + tail + b + next == v + (front + raw + (tail + b + next))
  {
    Appended5(v, front, raw, tail, b, next);
    Appended3(front + raw, tail, b, next);
    if raw == [] {
      assert v + front + raw == v + front;
    }
  }
}
