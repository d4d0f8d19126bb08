/** Running the code of a statement does what the statement means, by every way out of it. */
module StmtProof {
  import opened Syntax
  import opened Values
  import opened Semantics
  import opened Bytecode
  import opened Codegen
  import opened ExprParts
  import opened Slots
  import opened ExprProof
  import opened StmtShape

  /** Where a finished loop's jumps go, and the scope depth it runs at. */
  datatype Link = Link(breakAt: nat, continueAt: nat, depth: nat)

  function LinkInstr(i: Instr, at: int, links: seq<Link>): Instr {
    if !i.IJump? then i
    else
      match i.target
      case BreakOf(k) => if k < |links| then IJump(i.kind, Rel(links[k].breakAt - at)) else i
      case ContinueOf(k) => if k < |links| then IJump(i.kind, Rel(links[k].continueAt - at)) else i
      case Rel(_) => i
  }

  /** `P` holds the code `c` from `at` on, with the jumps to enclosing loops filled in. */
  ghost predicate Placed(P: seq<Instr>, at: nat, c: seq<Instr>, links: seq<Link>) {
    && at + |c| <= |P|
    && forall k :: 0 <= k < |c| ==> P[at + k] == LinkInstr(c[k], at + k, links)
  }

  lemma PlacedSplit(P: seq<Instr>, at: nat, a: seq<Instr>, b: seq<Instr>, links: seq<Link>)
    requires Placed(P, at, a + b, links)
    ensures Placed(P, at, a, links) && Placed(P, at + |a|, b, links)
  {
    forall k | 0 <= k < |a|
      ensures P[at + k] == LinkInstr(a[k], at + k, links)
    {
      assert (a + b)[k] == a[k];
    }
    forall k | 0 <= k < |b|
      ensures P[at + |a| + k] == LinkInstr(b[k], at + |a| + k, links)
    {
      assert (a + b)[|a| + k] == b[k];
    }
  }

  lemma PlacedSplit3(P: seq<Instr>, at: nat, a: seq<Instr>, b: seq<Instr>, c: seq<Instr>, links: seq<Link>)
    requires Placed(P, at, a + b + c, links)
    ensures Placed(P, at, a, links) && Placed(P, at + |a|, b, links) && Placed(P, at + |a| + |b|, c, links)
  {
    PlacedSplit(P, at, a + b, c, links);
    PlacedSplit(P, at, a, b, links);
  }

  lemma PlacedSplit4(P: seq<Instr>, at: nat, a: seq<Instr>, b: seq<Instr>, c: seq<Instr>, d: seq<Instr>,
                     links: seq<Link>)
    requires Placed(P, at, a + b + c + d, links)
    ensures Placed(P, at, a, links) && Placed(P, at + |a|, b, links) && Placed(P, at + |a| + |b|, c, links)
    ensures Placed(P, at + |a| + |b| + |c|, d, links)
  {
    PlacedSplit(P, at, a + b + c, d, links);
    PlacedSplit3(P, at, a, b, c, links);
  }

  lemma PlacedSplit5(P: seq<Instr>, at: nat, a: seq<Instr>, b: seq<Instr>, c: seq<Instr>, d: seq<Instr>, e: seq<Instr>,
                     links: seq<Link>)
    requires Placed(P, at, a + b + c + d + e, links)
    ensures Placed(P, at, a, links) && Placed(P, at + |a|, b, links) && Placed(P, at + |a| + |b|, c, links)
    ensures Placed(P, at + |a| + |b| + |c|, d, links) && Placed(P, at + |a| + |b| + |c| + |d|, e, links)
  {
    PlacedSplit(P, at, a + b + c + d, e, links);
    PlacedSplit4(P, at, a, b, c, d, links);
  }

  /** Code with no pending jump reads the same wherever it is placed. */
  lemma PlacedClosed(P: seq<Instr>, at: nat, c: seq<Instr>, links: seq<Link>)
    requires Placed(P, at, c, links) && Closed(c)
    ensures CodeAt(P, at, c)
  {
    forall k | 0 <= k < |c|
      ensures P[at..at + |c|][k] == c[k]
    {
      assert P[at + k] == LinkInstr(c[k], at + k, links);
    }
  }

  lemma PlacedOne(P: seq<Instr>, at: nat, i: Instr, links: seq<Link>)
    requires Placed(P, at, [i], links)
    ensures CodeAt(P, at, [LinkInstr(i, at, links)])
  {
    assert P[at + 0] == LinkInstr([i][0], at + 0, links);
    assert P[at..at + 1] == [P[at]];
  }

  /** Filling in a finished loop is linking one more loop. */
  lemma PlacedClose(P: seq<Instr>, at: nat, c: seq<Instr>, breakAt: nat, continueAt: nat, links: seq<Link>, depth: nat)
    requires Placed(P, at, CloseLoop(c, |links|, breakAt, continueAt), links)
    ensures Placed(P, at, c, links + [Link(at + breakAt, at + continueAt, depth)])
  {
    var r := CloseLoop(c, |links|, breakAt, continueAt);
    var links' := links + [Link(at + breakAt, at + continueAt, depth)];
    forall k | 0 <= k < |c|
      ensures P[at + k] == LinkInstr(c[k], at + k, links')
    {
      assert P[at + k] == LinkInstr(r[k], at + k, links);
      assert r[k] == CloseInstr(c[k], k, |links|, breakAt, continueAt);
    }
  }

  // ---- Where a statement runs, and how it ends ----

  datatype Place = Place(nm: Numerics, P: seq<Instr>, cx: Context, links: seq<Link>)

  /** Each enclosing loop keeps the slots of the outermost scopes, and nothing else. */
  ghost predicate Nested(w: Place) {
    && |w.cx.loops| == |w.links|
    && forall i :: 0 <= i < |w.links| ==>
         && 0 < w.cx.loops[i].localsCount <= |w.cx.locals|
         && w.links[i].depth <= w.cx.depth
         && (forall j :: 0 <= j < w.cx.loops[i].localsCount ==> w.cx.locals[j].depth <= w.links[i].depth)
         && (forall j :: w.cx.loops[i].localsCount <= j < |w.cx.locals| ==> w.cx.locals[j].depth > w.links[i].depth)
  }

  /** The machine has left for loop `i`, with the slots and the scopes that loop keeps. */
  ghost predicate Escapes(w: Place, m: Machine, i: Option<nat>, isBreak: bool, env: Env, base: seq<Value>) {
    && i.Some? && i.value < |w.cx.loops| == |w.links|
    && |env.frames| == w.cx.depth
    && w.cx.loops[i.value].localsCount <= |w.cx.locals|
    && w.links[i.value].depth <= |env.frames|
    && m == Running(if isBreak then w.links[i.value].breakAt else w.links[i.value].continueAt, base, env.globals)
    && Mirrors(w.cx.locals[..w.cx.loops[i.value].localsCount], w.links[i.value].depth, base,
               env.frames[..w.links[i.value].depth])
  }

  /** What the machine looks like when the statement's meaning is `o`. Running out of fuel means the machine has made
      at least that many steps and is still going. */
  ghost predicate Ends(w: Place, m0: Machine, n: nat, to: int, after: seq<Local>, o: Outcome, fuel: nat,
                       base: seq<Value>) {
    var m := RunN(w.nm, w.P, m0, n);
    match o
    case Normal(env) => m == Running(to, base, env.globals) && Mirrors(after, w.cx.depth, base, env.frames)
    case Broke(l, env) => Escapes(w, m, FindLoop(w.cx.loops, l, false), true, env, base)
    case Continued(l, env) => Escapes(w, m, FindLoop(w.cx.loops, l, true), false, env, base)
    case Returned(v, g) => m == Done(v, g)
    case Failed(err, g) => m == Crashed(err, g)
    case OutOfFuel => n >= fuel && m.Running?
  }

  lemma EndsAfter(w: Place, m0: Machine, a: nat, m1: Machine, b: nat, to: int, after: seq<Local>, o: Outcome, fuel: nat,
                  fuel': nat, base: seq<Value>)
    requires RunN(w.nm, w.P, m0, a) == m1 && Ends(w, m1, b, to, after, o, fuel, base)
    requires fuel' <= fuel + a
    ensures Ends(w, m0, a + b, to, after, o, fuel', base)
  {
    hide Mirrors, Escapes, RunN;
    RunAdd(w.nm, w.P, m0, a, b);
  }

  /** A jump over what follows, taken only when the statement ends normally. */
  lemma EndsGoto(w: Place, m0: Machine, n: nat, at: nat, delta: int, after: seq<Local>, o: Outcome, fuel: nat,
                 base: seq<Value>) returns (n': nat)
    requires CodeAt(w.P, at, [J(Always, delta)])
    requires Ends(w, m0, n, at, after, o, fuel, base)
    ensures n' >= n && Ends(w, m0, n', at + delta, after, o, fuel, base)
  {
    hide Mirrors, Escapes, RunN;
    n' := n;
    if o.Normal? {
      var m := Running(at, base, o.env.globals);
      RunGoto(Site(w.nm, w.P, [], 0, [], map[]), at, delta, base, o.env.globals);
      RunAdd(w.nm, w.P, m0, n, 1);
      n' := n + 1;
    }
  }

  // ---- Expressions inside statements ----

  /** After an expression: its value on top of the slots, or a crash. */
  ghost predicate Leaves(w: Place, m0: Machine, n: nat, to: int, base: seq<Value>, r: Evaluation) {
    match r
    case Val(v, env) =>
      && RunN(w.nm, w.P, m0, n) == Running(to, base + [v], env.globals)
      && Mirrors(w.cx.locals, w.cx.depth, base, env.frames)
    case Fail(err, g) => RunN(w.nm, w.P, m0, n) == Crashed(err, g)
  }

  lemma RunTop(w: Place, at: nat, e: Expr, base: seq<Value>, env: Env) returns (n: nat, base': seq<Value>)
    requires ExprCode(w.nm, e, w.cx.locals).Ok?
    requires Placed(w.P, at, ExprCode(w.nm, e, w.cx.locals).value, w.links)
    requires Mirrors(w.cx.locals, w.cx.depth, base, env.frames)
    ensures n > 0
    ensures Leaves(w, Running(at, base, env.globals), n, at + |ExprCode(w.nm, e, w.cx.locals).value|, base',
                   Eval(w.nm, Compiled, e, env))
  {
    hide RunN, Eval, ExprCode, Mirrors;
    ExprClosed(w.nm, e, w.cx.locals);
    PlacedClosed(w.P, at, ExprCode(w.nm, e, w.cx.locals).value, w.links);
    var s := Site(w.nm, w.P, w.cx.locals, w.cx.depth, [], map[]);
    assert base + [] == base;
    n, base' := RunExpr(s, at, e, base, env);
    assert base' + [] == base';
  }

  /** The value is dropped. */
  lemma LeavesPop(w: Place, m0: Machine, n: nat, at: nat, base: seq<Value>, v: Value, env: Env)
    requires Leaves(w, m0, n, at, base, Val(v, env)) && CodeAt(w.P, at, [IPop])
    ensures RunN(w.nm, w.P, m0, n + 1) == Running(at + 1, base, env.globals)
  {
    hide Mirrors, RunN;
    var s := Site(w.nm, w.P, [], 0, [], map[]);
    assert base + [] == base;
    RunPop(s, at, v, base, env.globals);
    RunAdd(w.nm, w.P, m0, n, 1);
  }

  /** The value decides a test. */
  lemma LeavesTest(w: Place, m0: Machine, n: nat, at: nat, delta: int, base: seq<Value>, v: Value, env: Env)
    requires Leaves(w, m0, n, at, base, Val(v, env)) && CodeAt(w.P, at, [J(IfFalse, delta)])
    ensures RunN(w.nm, w.P, m0, n + 1)
              == Running(if IsTruthy(w.nm, v) then at + 1 else at + delta, base, env.globals)
  {
    hide Mirrors, RunN;
    var s := Site(w.nm, w.P, [], 0, [], map[]);
    assert base + [] == base;
    RunJump(s, at, IfFalse, delta, v, base, env.globals);
    RunAdd(w.nm, w.P, m0, n, 1);
  }

  /** The value is consumed by an instruction that ends the run. */
  lemma LeavesHalt(w: Place, m0: Machine, n: nat, at: nat, i: Instr, base: seq<Value>, v: Value, env: Env)
    requires Leaves(w, m0, n, at, base, Val(v, env)) && CodeAt(w.P, at, [i]) && (i.IReturn? || i.IThrow?)
    ensures RunN(w.nm, w.P, m0, n + 1)
              == if i.IReturn? then Done(v, env.globals) else Crashed(Thrown(v), env.globals)
  {
    hide Mirrors, RunN;
    CodeAtStep(w.nm, w.P, at, i, Running(at, base + [v], env.globals));
    RunAdd(w.nm, w.P, m0, n, 1);
  }

  /** `n` pops in a row. */
  lemma {:induction false} RunPops(w: Place, at: nat, k: nat, base: seq<Value>, g: Globals)
    requires CodeAt(w.P, at, Pops(k)) && k <= |base|
    ensures RunN(w.nm, w.P, Running(at, base, g), k) == Running(at + k, base[..|base| - k], g)
    decreases k
  {
    if k == 0 {
      assert base[..|base|] == base;
    } else {
      assert Pops(k) == [IPop] + Pops(k - 1);
      CodeAtSplit(w.P, at, [IPop], Pops(k - 1));
      var m1 := Running(at + 1, base[..|base| - 1], g);
      CodeAtStep(w.nm, w.P, at, IPop, Running(at, base, g));
      RunPops(w, at + 1, k - 1, base[..|base| - 1], g);
      assert base[..|base| - 1][..|base| - k] == base[..|base| - k];
      RunAdd(w.nm, w.P, Running(at, base, g), 1, k - 1);
    }
  }

  lemma {:induction false} RunBlanks(w: Place, at: nat, k: nat, base: seq<Value>, g: Globals)
    requires CodeAt(w.P, at, Undefineds(k))
    ensures RunN(w.nm, w.P, Running(at, base, g), k) == Running(at + k, base + Blanks(k), g)
    decreases k
  {
    if k == 0 {
      assert base + Blanks(0) == base;
    } else {
      assert Undefineds(k) == [IPush(Undefined)] + Undefineds(k - 1);
      CodeAtSplit(w.P, at, [IPush(Undefined)], Undefineds(k - 1));
      CodeAtStep(w.nm, w.P, at, IPush(Undefined), Running(at, base, g));
      RunBlanks(w, at + 1, k - 1, base + [Undefined], g);
      assert base + [Undefined] + Blanks(k - 1) == base + Blanks(k);
      RunAdd(w.nm, w.P, Running(at, base, g), 1, k - 1);
    }
  }

  // ---- Simple statements ----

  lemma DeclarationCode(nm: Numerics, s: Stmt, cx: Context) returns (c: seq<Instr>)
    requires s.VarDecl? && StmtCode(nm, s, None, cx).Ok?
    ensures ExprCode(nm, s.init, cx.locals) == Ok(c)
    ensures StmtCode(nm, s, None, cx).value
              == if cx.depth == 0 then Gen(c + [IDefine(s.name, s.isConst)], cx.locals)
                 else Gen(c + [], cx.locals + [Local(Some(s.name), cx.depth, s.isConst, true)])
  {
    c := ExprCode(nm, s.init, cx.locals).value;
    assert c + [] == c;
  }

  lemma RunVarDecl(w: Place, at: nat, s: Stmt, base: seq<Value>, env: Env, fuel: nat)
      returns (n: nat, base': seq<Value>)
    requires s.VarDecl? && StmtCode(w.nm, s, None, w.cx).Ok?
    requires Placed(w.P, at, StmtCode(w.nm, s, None, w.cx).value.code, w.links)
    requires Mirrors(w.cx.locals, w.cx.depth, base, env.frames)
    ensures var g := StmtCode(w.nm, s, None, w.cx).value;
            Ends(w, Running(at, base, env.globals), n, at + |g.code|, g.locals,
                 Exec(w.nm, Compiled, s, None, env, fuel), fuel, base')
  {
    hide RunN, Eval, ExprCode, Exec, StmtCode, Mirrors, Placed, DeclareVar;
    var tail := if w.cx.depth == 0 then [IDefine(s.name, s.isConst)] else [];
    var c := DeclarationCode(w.nm, s, w.cx);
    DeclMeaning(w.nm, s, env, fuel);
    PlacedSplit(w.P, at, c, tail, w.links);
    var m0 := Running(at, base, env.globals);
    n, base' := RunTop(w, at, s.init, base, env);
    match Eval(w.nm, Compiled, s.init, env)
    case Fail(_, _) =>
    case Val(v, env1) =>
      if w.cx.depth == 0 {
        n := RunDefine(w, m0, n, at + |c|, s.name, s.isConst, base', v, env1);
      } else {
        MirrorsPush(w.cx.locals, w.cx.depth, base', env1, s.name, v, s.isConst);
        base' := base' + [v];
      }
  }

  lemma RunDefine(w: Place, m0: Machine, n: nat, at: nat, x: Name, isConst: bool, base: seq<Value>, v: Value, env: Env)
      returns (n': nat)
    requires w.cx.depth == 0 && Placed(w.P, at, [IDefine(x, isConst)], w.links)
    requires Leaves(w, m0, n, at, base, Val(v, env))
    ensures var env' := DeclareVar(Compiled, env, x, v, isConst);
            && RunN(w.nm, w.P, m0, n') == Running(at + 1, base, env'.globals)
            && Mirrors(w.cx.locals, w.cx.depth, base, env'.frames)
  {
    hide RunN;
    PlacedOne(w.P, at, IDefine(x, isConst), w.links);
    assert (base + [v])[..|base|] == base;
    CodeAtStep(w.nm, w.P, at, IDefine(x, isConst), Running(at, base + [v], env.globals));
    RunAdd(w.nm, w.P, m0, n, 1);
    n' := n + 1;
  }

  lemma ExprStmtMeaning(nm: Numerics, s: Stmt, cx: Context, env: Env, fuel: nat) returns (c: seq<Instr>)
    requires s.ExprStmt? && StmtCode(nm, s, None, cx).Ok?
    ensures ExprCode(nm, s.expr, cx.locals) == Ok(c) && StmtCode(nm, s, None, cx).value == Gen(c + [IPop], cx.locals)
    ensures Exec(nm, Compiled, s, None, env, fuel) == match Eval(nm, Compiled, s.expr, env)
                                            case Fail(err, g) => Failed(err, g)
                                            case Val(_, env1) => Normal(env1)
  {
    c := ExprCode(nm, s.expr, cx.locals).value;
  }

  lemma RunExprStmt(w: Place, at: nat, s: Stmt, base: seq<Value>, env: Env, fuel: nat)
      returns (n: nat, base': seq<Value>)
    requires s.ExprStmt? && StmtCode(w.nm, s, None, w.cx).Ok?
    requires Placed(w.P, at, StmtCode(w.nm, s, None, w.cx).value.code, w.links)
    requires Mirrors(w.cx.locals, w.cx.depth, base, env.frames)
    ensures var g := StmtCode(w.nm, s, None, w.cx).value;
            Ends(w, Running(at, base, env.globals), n, at + |g.code|, g.locals,
                 Exec(w.nm, Compiled, s, None, env, fuel), fuel, base')
  {
    hide RunN, Eval, ExprCode, Exec, StmtCode, Mirrors, Placed, CodeAt;
    var c := ExprStmtMeaning(w.nm, s, w.cx, env, fuel);
    PlacedSplit(w.P, at, c, [IPop], w.links);
    PlacedOne(w.P, at + |c|, IPop, w.links);
    n, base' := RunTop(w, at, s.expr, base, env);
    match Eval(w.nm, Compiled, s.expr, env)
    case Fail(_, _) =>
    case Val(v, env1) =>
      LeavesPop(w, Running(at, base, env.globals), n, at + |c|, base', v, env1);
      n := n + 1;
  }

  lemma ExitMeaning(nm: Numerics, s: Stmt, e: Expr, cx: Context, env: Env, fuel: nat)
    requires s == Stmt.Throw(e) || s == Stmt.Return(Some(e))
    ensures StmtCode(nm, s, None, cx).Ok? ==>
              && ExprCode(nm, e, cx.locals).Ok?
              && StmtCode(nm, s, None, cx).value
                   == Gen(ExprCode(nm, e, cx.locals).value + [if s.Throw? then IThrow else IReturn], cx.locals)
    ensures Exec(nm, Compiled, s, None, env, fuel) == match Eval(nm, Compiled, e, env)
                                            case Fail(err, g) => Failed(err, g)
                                            case Val(v, env1) =>
                                              if s.Throw? then Failed(Thrown(v), env1.globals)
                                              else Returned(v, env1.globals)
  {
  }

  /** `return` and `throw` end the script. */
  lemma RunExit(w: Place, at: nat, s: Stmt, base: seq<Value>, env: Env, fuel: nat) returns (n: nat, base': seq<Value>)
    requires (s.Throw? || (s.Return? && s.result.Some?)) && StmtCode(w.nm, s, None, w.cx).Ok?
    requires Placed(w.P, at, StmtCode(w.nm, s, None, w.cx).value.code, w.links)
    requires Mirrors(w.cx.locals, w.cx.depth, base, env.frames)
    ensures var g := StmtCode(w.nm, s, None, w.cx).value;
            Ends(w, Running(at, base, env.globals), n, at + |g.code|, g.locals,
                 Exec(w.nm, Compiled, s, None, env, fuel), fuel, base')
  {
    hide RunN, Eval, ExprCode, Exec, StmtCode, Mirrors, Placed, CodeAt;
    var e, last := if s.Throw? then s.thrown else s.result.value, if s.Throw? then IThrow else IReturn;
    ExitMeaning(w.nm, s, e, w.cx, env, fuel);
    var c := ExprCode(w.nm, e, w.cx.locals).value;
    PlacedSplit(w.P, at, c, [last], w.links);
    PlacedOne(w.P, at + |c|, last, w.links);
    n, base' := RunTop(w, at, e, base, env);
    match Eval(w.nm, Compiled, e, env)
    case Fail(_, _) =>
    case Val(v, env1) =>
      LeavesHalt(w, Running(at, base, env.globals), n, at + |c|, last, base', v, env1);
      n := n + 1;
  }

  lemma RunReturnNothing(w: Place, at: nat, base: seq<Value>, env: Env, fuel: nat) returns (n: nat)
    requires Placed(w.P, at, [IPush(Undefined)] + [IReturn], w.links)
    ensures RunN(w.nm, w.P, Running(at, base, env.globals), n) == Done(Undefined, env.globals)
  {
    PlacedSplit(w.P, at, [IPush(Undefined)], [IReturn], w.links);
    PlacedOne(w.P, at, IPush(Undefined), w.links);
    PlacedOne(w.P, at + 1, IReturn, w.links);
    CodeAtStep(w.nm, w.P, at, IPush(Undefined), Running(at, base, env.globals));
    CodeAtStep(w.nm, w.P, at + 1, IReturn, Running(at + 1, base + [Undefined], env.globals));
    RunAdd(w.nm, w.P, Running(at, base, env.globals), 1, 1);
    n := 2;
  }

  /** `break` and `continue` drop the slots their loop does not keep, then jump. */
  lemma RunJumpOut(w: Place, at: nat, i: nat, target: Target, base: seq<Value>, env: Env)
      returns (n: nat, base': seq<Value>)
    requires Nested(w) && i < |w.links| && (target == BreakOf(i) || target == ContinueOf(i))
    requires Placed(w.P, at, Pops(|w.cx.locals| - w.cx.loops[i].localsCount) + [IJump(Always, target)], w.links)
    requires Mirrors(w.cx.locals, w.cx.depth, base, env.frames)
    ensures n > 0
    ensures Escapes(w, RunN(w.nm, w.P, Running(at, base, env.globals), n), Some(i), target.BreakOf?, env, base')
  {
    hide RunN;
    var keep := w.cx.loops[i].localsCount;
    var k := |w.cx.locals| - keep;
    var m0, m1 := Running(at, base, env.globals), Running(at + k, base[..keep], env.globals);
    PlacedSplit(w.P, at, Pops(k), [IJump(Always, target)], w.links);
    PlacedClosed(w.P, at, Pops(k), w.links);
    PlacedOne(w.P, at + k, IJump(Always, target), w.links);
    RunPops(w, at, k, base, env.globals);
    CodeAtStep(w.nm, w.P, at + k, LinkInstr(IJump(Always, target), at + k, w.links), m1);
    RunAdd(w.nm, w.P, m0, k, 1);
    MirrorsCut(w.cx.locals, w.cx.depth, base, env.frames, keep, w.links[i].depth);
    n, base' := k + 1, base[..keep];
  }

  lemma BreakMeaning(nm: Numerics, s: Stmt, cx: Context, env: Env, fuel: nat)
    requires (s.Break? || s.Continue?) && StmtCode(nm, s, None, cx).Ok?
    requires forall j :: 0 <= j < |cx.loops| ==> cx.loops[j].localsCount <= |cx.locals|
    ensures FindLoop(cx.loops, s.target, s.Continue?).Some?
    ensures var i := FindLoop(cx.loops, s.target, s.Continue?).value;
            StmtCode(nm, s, None, cx).value
              == Gen(Pops(|cx.locals| - cx.loops[i].localsCount)
                     + [IJump(Always, if s.Break? then BreakOf(i) else ContinueOf(i))], cx.locals)
    ensures Exec(nm, Compiled, s, None, env, fuel) == if s.Break? then Broke(s.target, env)
              else Continued(s.target, env)
  {
  }

  lemma RunBreak(w: Place, at: nat, s: Stmt, base: seq<Value>, env: Env, fuel: nat) returns (n: nat, base': seq<Value>)
    requires (s.Break? || s.Continue?) && StmtCode(w.nm, s, None, w.cx).Ok? && Nested(w)
    requires Placed(w.P, at, StmtCode(w.nm, s, None, w.cx).value.code, w.links)
    requires Mirrors(w.cx.locals, w.cx.depth, base, env.frames)
    ensures var g := StmtCode(w.nm, s, None, w.cx).value;
            Ends(w, Running(at, base, env.globals), n, at + |g.code|, g.locals,
                 Exec(w.nm, Compiled, s, None, env, fuel), fuel, base')
  {
    hide RunN, Exec, StmtCode, Mirrors, Escapes, Placed, Pops;
    assert forall j :: 0 <= j < |w.cx.loops| ==> w.cx.loops[j].localsCount <= |w.cx.locals|;
    BreakMeaning(w.nm, s, w.cx, env, fuel);
    var i := FindLoop(w.cx.loops, s.target, s.Continue?).value;
    var target := if s.Break? then BreakOf(i) else ContinueOf(i);
    n, base' := RunJumpOut(w, at, i, target, base, env);
  }

  // ---- Loops ----

  function Inside(w: Place, tag: Option<Name>, isLoop: bool, link: Link): Place {
    w.(cx := InLoop(w.cx, tag, isLoop), links := w.links + [link])
  }

  lemma NestedInside(w: Place, tag: Option<Name>, isLoop: bool, link: Link)
    requires Nested(w) && Shaped(w.cx.locals, w.cx.depth) && link.depth == w.cx.depth
    ensures Nested(Inside(w, tag, isLoop, link))
  {
  }

  /** A jump the new loop does not take is aimed where it was before. */
  lemma FindOutside(loops: seq<LoopInfo>, l: LoopInfo, tag: Option<Name>, needLoop: bool)
    ensures FindLoop(loops + [l], tag, needLoop)
              == if Catches(l, tag, needLoop) then Some(|loops|) else FindLoop(loops, tag, needLoop)
  {
    assert (loops + [l])[..|loops|] == loops;
  }

  lemma EscapesOutside(w: Place, tag: Option<Name>, isLoop: bool, link: Link, m: Machine, i: Option<nat>, isBreak: bool,
                       env: Env, base: seq<Value>)
    requires Escapes(Inside(w, tag, isLoop, link), m, i, isBreak, env, base) && |w.cx.loops| == |w.links|
    requires link.depth == w.cx.depth
    ensures i.Some?
    ensures i.value < |w.cx.loops| ==> Escapes(w, m, i, isBreak, env, base)
    ensures i.value == |w.cx.loops| ==>
              && m == Running(if isBreak then link.breakAt else link.continueAt, base, env.globals)
              && Mirrors(w.cx.locals, w.cx.depth, base, env.frames)
  {
    hide Mirrors;
    assert w.cx.locals[..|w.cx.locals|] == w.cx.locals;
    assert env.frames[..|env.frames|] == env.frames;
  }

  ghost predicate BodyEnded(w: Place, m0: Machine, n: nat, again: int, exit: int, be: BodyEnd, fuel: nat,
                            base: seq<Value>) {
    match be
    case Again(env) =>
      && RunN(w.nm, w.P, m0, n) == Running(again, base, env.globals)
      && Mirrors(w.cx.locals, w.cx.depth, base, env.frames)
    case Stop(o) => Ends(w, m0, n, exit, w.cx.locals, o, fuel, base)
  }

  /** One run of a loop's body, seen from the loop. */
  lemma BodyEnds(w: Place, tag: Option<Name>, link: Link, m0: Machine, n: nat, to: int, o: Outcome, fuel: nat,
                 base: seq<Value>)
    requires |w.cx.loops| == |w.links| && link.depth == w.cx.depth
    requires Ends(Inside(w, tag, true, link), m0, n, to, w.cx.locals, o, fuel, base)
    ensures BodyEnded(w, m0, n, if o.Normal? then to else link.continueAt, link.breakAt, AfterBody(o, tag), fuel, base)
  {
    hide RunN, Mirrors, Escapes;
    var m := RunN(w.nm, w.P, m0, n);
    var info := LoopInfo(|w.cx.locals|, tag, true);
    match o
    case Broke(l, env) =>
      FindOutside(w.cx.loops, info, l, false);
      EscapesOutside(w, tag, true, link, m, FindLoop(w.cx.loops + [info], l, false), true, env, base);
    case Continued(l, env) =>
      FindOutside(w.cx.loops, info, l, true);
      EscapesOutside(w, tag, true, link, m, FindLoop(w.cx.loops + [info], l, true), false, env, base);
    case _ =>
  }

  function LabelOutcome(l: Name, o: Outcome): Outcome {
    if o.Broke? && o.target == Some(l) then Normal(o.env) else o
  }

  /** A labelled statement that is no loop catches only `break` to its own label. */
  lemma LabelEnds(w: Place, l: Name, link: Link, m0: Machine, n: nat, o: Outcome, fuel: nat, base: seq<Value>)
    requires |w.cx.loops| == |w.links| && link.depth == w.cx.depth
    requires Ends(Inside(w, Some(l), false, link), m0, n, link.breakAt, w.cx.locals, o, fuel, base)
    ensures Ends(w, m0, n, link.breakAt, w.cx.locals, LabelOutcome(l, o), fuel, base)
  {
    hide RunN, Mirrors, Escapes;
    var m := RunN(w.nm, w.P, m0, n);
    var info := LoopInfo(|w.cx.locals|, Some(l), false);
    match o
    case Broke(t, env) =>
      FindOutside(w.cx.loops, info, t, false);
      EscapesOutside(w, Some(l), false, link, m, FindLoop(w.cx.loops + [info], t, false), true, env, base);
    case Continued(t, env) =>
      FindOutside(w.cx.loops, info, t, true);
      EscapesOutside(w, Some(l), false, link, m, FindLoop(w.cx.loops + [info], t, true), false, env, base);
    case _ =>
  }

  // ---- The induction over statements ----

  /** What a statement's run needs to know before it starts. */
  ghost predicate Ready(w: Place, at: nat, s: Stmt, tag: Option<Name>, base: seq<Value>, env: Env) {
    && Tidy(s, w.cx.depth) && Nested(w) && (tag.Some? ==> IsLoop(s))
    && StmtCode(w.nm, s, tag, w.cx).Ok?
    && Placed(w.P, at, StmtCode(w.nm, s, tag, w.cx).value.code, w.links)
    && Mirrors(w.cx.locals, w.cx.depth, base, env.frames)
  }

  /** The statement runs from `at` to its end, or out of it, as its meaning says. */
  ghost predicate Obeys(w: Place, at: nat, s: Stmt, tag: Option<Name>, base: seq<Value>, env: Env, fuel: nat, n: nat,
                        base': seq<Value>)
    requires StmtCode(w.nm, s, tag, w.cx).Ok?
  {
    var g := StmtCode(w.nm, s, tag, w.cx).value;
    Ends(w, Running(at, base, env.globals), n, at + |g.code|, g.locals, Exec(w.nm, Compiled, s, tag, env, fuel), fuel,
         base')
  }

  lemma {:induction false} RunStmt(w: Place, at: nat, s: Stmt, tag: Option<Name>, base: seq<Value>, env: Env, fuel: nat)
      returns (n: nat, base': seq<Value>)
    requires Ready(w, at, s, tag, base, env)
    ensures Obeys(w, at, s, tag, base, env, fuel, n, base')
    decreases fuel, s, 5
  {
    hide Mirrors, Nested, Placed, Ends;
    match s
    case VarDecl(_, _, _) => n, base' := RunVarDecl(w, at, s, base, env, fuel);
    case ExprStmt(_) => n, base' := RunExprStmt(w, at, s, base, env, fuel);
    case BlockStmt(block) => n, base' := RunBlock(w, at, block, base, env, fuel);
    case Empty => n, base' := RunEmpty(w, at, s, base, env, fuel);
    case If(_, _, _) => n, base' := RunIf(w, at, s, base, env, fuel);
    case While(_, _) => n, base' := RunWhile(w, at, s, tag, base, env, fuel);
    case DoWhile(_, _) => n, base' := RunDoWhile(w, at, s, tag, base, env, fuel);
    case For(_, _, _, _) => n, base' := RunFor(w, at, s, tag, base, env, fuel);
    case Switch(_, _, _) => n, base' := RunSwitch(w, at, s, base, env, fuel);
    case Labeled(_, _) => n, base' := RunLabeled(w, at, s, base, env, fuel);
    case Break(_) => n, base' := RunBreak(w, at, s, base, env, fuel);
    case Continue(_) => n, base' := RunBreak(w, at, s, base, env, fuel);
    case Return(v) =>
      if v.Some? {
        n, base' := RunExit(w, at, s, base, env, fuel);
      } else {
        n, base' := RunReturn(w, at, s, base, env, fuel);
      }
    case Throw(_) => n, base' := RunExit(w, at, s, base, env, fuel);
  }

  lemma RunEmpty(w: Place, at: nat, s: Stmt, base: seq<Value>, env: Env, fuel: nat) returns (n: nat, base': seq<Value>)
    requires s.Empty? && Ready(w, at, s, None, base, env)
    ensures Obeys(w, at, s, None, base, env, fuel, n, base')
  {
    n, base' := 0, base;
  }

  lemma RunReturn(w: Place, at: nat, s: Stmt, base: seq<Value>, env: Env, fuel: nat) returns (n: nat, base': seq<Value>)
    requires s == Stmt.Return(None) && Ready(w, at, s, None, base, env)
    ensures Obeys(w, at, s, None, base, env, fuel, n, base')
  {
    assert StmtCode(w.nm, s, None, w.cx).value.code == [IPush(Undefined)] + [IReturn];
    n := RunReturnNothing(w, at, base, env, fuel);
    base' := base;
  }

  // ---- If ----

  /** What an `if` statement does once its condition is evaluated. */
  function Branch(nm: Numerics, s: Stmt, condition: Evaluation, fuel: nat): Outcome
    requires s.If?
  {
    match condition
    case Fail(err, g) => Failed(err, g)
    case Val(v, env1) =>
      if IsTruthy(nm, v) then Exec(nm, Compiled, s.thenBranch, None, env1, fuel)
      else if s.elseBranch.Some? then Exec(nm, Compiled, s.elseBranch.value, None, env1, fuel)
      else Normal(env1)
  }

  lemma IfMeaning(nm: Numerics, s: Stmt, cx: Context, env: Env, fuel: nat)
      returns (c: seq<Instr>, t: seq<Instr>, f: seq<Instr>)
    requires s.If? && Tidy(s, cx.depth) && Shaped(cx.locals, cx.depth) && StmtCode(nm, s, None, cx).Ok?
    ensures ExprCode(nm, s.condition, cx.locals) == Ok(c)
    ensures StmtCode(nm, s.thenBranch, None, cx) == Ok(Gen(t, cx.locals))
    ensures s.elseBranch.Some? ==> StmtCode(nm, s.elseBranch.value, None, cx) == Ok(Gen(f, cx.locals))
    ensures StmtCode(nm, s, None, cx).value
              == Gen(if s.elseBranch.None? then c + [J(IfFalse, 1 + |t|)] + t
                     else c + [J(IfFalse, 2 + |t|)] + t + [J(Always, 1 + |f|)] + f, cx.locals)
    ensures Exec(nm, Compiled, s, None, env, fuel) == Branch(nm, s, Eval(nm, Compiled, s.condition, env), fuel)
  {
    StmtSlots(nm, s.thenBranch, None, cx);
    c, t := ExprCode(nm, s.condition, cx.locals).value, StmtCode(nm, s.thenBranch, None, cx).value.code;
    f := [];
    if s.elseBranch.Some? {
      StmtSlots(nm, s.elseBranch.value, None, cx);
      f := StmtCode(nm, s.elseBranch.value, None, cx).value.code;
    }
  }

  lemma {:induction false} RunIf(w: Place, at: nat, s: Stmt, base: seq<Value>, env: Env, fuel: nat)
      returns (n: nat, base': seq<Value>)
    requires s.If? && Ready(w, at, s, None, base, env)
    ensures Obeys(w, at, s, None, base, env, fuel, n, base')
    decreases fuel, s, 1
  {
    hide RunN, Eval, ExprCode, Exec, StmtCode, Mirrors, Placed, Nested, Ends, CodeAt;
    assert Shaped(w.cx.locals, w.cx.depth) by { MirrorsShape(w, base, env); }
    var c, t, f := IfMeaning(w.nm, s, w.cx, env, fuel);
    if s.elseBranch.None? {
      PlacedSplit3(w.P, at, c, [J(IfFalse, 1 + |t|)], t, w.links);
      n, base' := RunIfThen(w, at, s, c, t, base, env, fuel);
    } else {
      PlacedSplit5(w.P, at, c, [J(IfFalse, 2 + |t|)], t, [J(Always, 1 + |f|)], f, w.links);
      n, base' := RunIfElse(w, at, s, c, t, f, base, env, fuel);
    }
  }

  lemma MirrorsShape(w: Place, base: seq<Value>, env: Env)
    requires Mirrors(w.cx.locals, w.cx.depth, base, env.frames)
    ensures Shaped(w.cx.locals, w.cx.depth) && |base| == |w.cx.locals| && |env.frames| == w.cx.depth
  {
  }

  lemma PlacedJump(P: seq<Instr>, at: nat, kind: JumpKind, delta: int, links: seq<Link>)
    requires Placed(P, at, [J(kind, delta)], links)
    ensures CodeAt(P, at, [J(kind, delta)])
  {
    PlacedOne(P, at, J(kind, delta), links);
  }

  /** A condition and the test on it. */
  lemma RunCondition(w: Place, at: nat, e: Expr, c: seq<Instr>, delta: int, base: seq<Value>, env: Env)
      returns (n: nat, base': seq<Value>)
    requires ExprCode(w.nm, e, w.cx.locals) == Ok(c)
    requires Placed(w.P, at, c, w.links) && Placed(w.P, at + |c|, [J(IfFalse, delta)], w.links)
    requires Mirrors(w.cx.locals, w.cx.depth, base, env.frames)
    ensures n > 0
    ensures var r := Eval(w.nm, Compiled, e, env);
            var m := RunN(w.nm, w.P, Running(at, base, env.globals), n);
            && (r.Fail? ==> m == Crashed(r.error, r.globals))
            && (r.Val? ==>
                  && m == Running(if IsTruthy(w.nm, r.value) then at + |c| + 1 else at + |c| + delta, base',
                                  r.env.globals)
                  && Mirrors(w.cx.locals, w.cx.depth, base', r.env.frames))
  {
    hide RunN, Eval, ExprCode, Mirrors, Placed, CodeAt;
    n, base' := RunTop(w, at, e, base, env);
    PlacedJump(w.P, at + |c|, IfFalse, delta, w.links);
    var r := Eval(w.nm, Compiled, e, env);
    if r.Val? {
      LeavesTest(w, Running(at, base, env.globals), n, at + |c|, delta, base', r.value, r.env);
      n := n + 1;
    }
  }

  lemma {:induction false} RunIfThen(w: Place, at: nat, s: Stmt, c: seq<Instr>, t: seq<Instr>, base: seq<Value>,
                                     env: Env, fuel: nat) returns (n: nat, base': seq<Value>)
    requires s.If? && s.elseBranch.None? && Tidy(s.thenBranch, w.cx.depth) && Nested(w)
    requires ExprCode(w.nm, s.condition, w.cx.locals) == Ok(c)
    requires StmtCode(w.nm, s.thenBranch, None, w.cx) == Ok(Gen(t, w.cx.locals))
    requires Placed(w.P, at, c, w.links) && Placed(w.P, at + |c|, [J(IfFalse, 1 + |t|)], w.links)
    requires Placed(w.P, at + |c| + 1, t, w.links)
    requires Mirrors(w.cx.locals, w.cx.depth, base, env.frames)
    ensures Ends(w, Running(at, base, env.globals), n, at + |c| + 1 + |t|, w.cx.locals,
                 Branch(w.nm, s, Eval(w.nm, Compiled, s.condition, env), fuel), fuel, base')
    decreases fuel, s, 0
  {
    hide RunN, Eval, ExprCode, Exec, StmtCode, Mirrors, Placed, Nested, Escapes;
    var m0 := Running(at, base, env.globals);
    n, base' := RunCondition(w, at, s.condition, c, 1 + |t|, base, env);
    var r := Eval(w.nm, Compiled, s.condition, env);
    if r.Val? && IsTruthy(w.nm, r.value) {
      var n2, base2 := RunStmt(w, at + |c| + 1, s.thenBranch, None, base', r.env, fuel);
      EndsAfter(w, m0, n, Running(at + |c| + 1, base', r.env.globals), n2, at + |c| + 1 + |t|, w.cx.locals,
                Exec(w.nm, Compiled, s.thenBranch, None, r.env, fuel), fuel, fuel, base2);
      n, base' := n + n2, base2;
    }
  }

  lemma {:induction false} RunIfElse(w: Place, at: nat, s: Stmt, c: seq<Instr>, t: seq<Instr>, f: seq<Instr>,
                                     base: seq<Value>, env: Env, fuel: nat) returns (n: nat, base': seq<Value>)
    requires s.If? && s.elseBranch.Some? && Nested(w)
    requires Tidy(s.thenBranch, w.cx.depth) && Tidy(s.elseBranch.value, w.cx.depth)
    requires ExprCode(w.nm, s.condition, w.cx.locals) == Ok(c)
    requires StmtCode(w.nm, s.thenBranch, None, w.cx) == Ok(Gen(t, w.cx.locals))
    requires StmtCode(w.nm, s.elseBranch.value, None, w.cx) == Ok(Gen(f, w.cx.locals))
    requires Placed(w.P, at, c, w.links) && Placed(w.P, at + |c|, [J(IfFalse, 2 + |t|)], w.links)
    requires Placed(w.P, at + |c| + 1, t, w.links)
    requires Placed(w.P, at + |c| + 1 + |t|, [J(Always, 1 + |f|)], w.links)
    requires Placed(w.P, at + |c| + 2 + |t|, f, w.links)
    requires Mirrors(w.cx.locals, w.cx.depth, base, env.frames)
    ensures Ends(w, Running(at, base, env.globals), n, at + |c| + 2 + |t| + |f|, w.cx.locals,
                 Branch(w.nm, s, Eval(w.nm, Compiled, s.condition, env), fuel), fuel, base')
    decreases fuel, s, 0
  {
    hide RunN, Eval, ExprCode, Exec, StmtCode, Mirrors, Placed, Nested, Escapes;
    var m0 := Running(at, base, env.globals);
    n, base' := RunCondition(w, at, s.condition, c, 2 + |t|, base, env);
    var r := Eval(w.nm, Compiled, s.condition, env);
    if r.Val? {
      if IsTruthy(w.nm, r.value) {
        var o := Exec(w.nm, Compiled, s.thenBranch, None, r.env, fuel);
        var n2, base2 := RunStmt(w, at + |c| + 1, s.thenBranch, None, base', r.env, fuel);
        PlacedJump(w.P, at + |c| + 1 + |t|, Always, 1 + |f|, w.links);
        n2 := EndsGoto(w, Running(at + |c| + 1, base', r.env.globals), n2, at + |c| + 1 + |t|, 1 + |f|, w.cx.locals, o,
                       fuel, base2);
        EndsAfter(w, m0, n, Running(at + |c| + 1, base', r.env.globals), n2, at + |c| + 2 + |t| + |f|, w.cx.locals, o,
                  fuel, fuel, base2);
        n, base' := n + n2, base2;
      } else {
        var n2, base2 := RunStmt(w, at + |c| + 2 + |t|, s.elseBranch.value, None, base', r.env, fuel);
        EndsAfter(w, m0, n, Running(at + |c| + 2 + |t|, base', r.env.globals), n2, at + |c| + 2 + |t| + |f|,
                  w.cx.locals, Exec(w.nm, Compiled, s.elseBranch.value, None, r.env, fuel), fuel, fuel, base2);
        n, base' := n + n2, base2;
      }
    }
  }

  // ---- While ----

  lemma WhileMeaning(nm: Numerics, s: Stmt, tag: Option<Name>, cx: Context)
      returns (c: seq<Instr>, b: seq<Instr>)
    requires s.While? && Tidy(s, cx.depth) && Shaped(cx.locals, cx.depth) && StmtCode(nm, s, tag, cx).Ok?
    ensures ExprCode(nm, s.condition, cx.locals) == Ok(c)
    ensures StmtCode(nm, s.body, None, InLoop(cx, tag, true)) == Ok(Gen(b, cx.locals))
    ensures var k := |c| + 1 + |b| + 1;
            StmtCode(nm, s, tag, cx).value
              == Gen(CloseLoop(c + [J(IfFalse, k - |c|)] + b + [J(Always, 1 - k)], |cx.loops|, k, 0), cx.locals)
  {
    hide CloseLoop, ExprCode;
    StmtSlots(nm, s.body, None, InLoop(cx, tag, true));
    c := ExprCode(nm, s.condition, cx.locals).value;
    b := StmtCode(nm, s.body, None, InLoop(cx, tag, true)).value.code;
  }

  /** One more test of a `while`, unfolded. */
  function WhileFrom(nm: Numerics, s: Stmt, tag: Option<Name>, env: Env, fuel: nat): Outcome
    requires s.While?
  {
    if fuel == 0 then OutOfFuel
    else
      match Eval(nm, Compiled, s.condition, env)
      case Fail(err, g) => Failed(err, g)
      case Val(v, env1) =>
        if !IsTruthy(nm, v) then Normal(env1)
        else
          match AfterBody(Exec(nm, Compiled, s.body, None, env1, fuel), tag)
          case Again(env2) => Exec(nm, Compiled, s, tag, env2, fuel - 1)
          case Stop(o) => o
  }

  lemma {:induction false} RunWhile(w: Place, at: nat, s: Stmt, tag: Option<Name>, base: seq<Value>, env: Env,
                                    fuel: nat)
      returns (n: nat, base': seq<Value>)
    requires s.While? && Ready(w, at, s, tag, base, env)
    ensures Obeys(w, at, s, tag, base, env, fuel, n, base')
    decreases fuel, s, 1
  {
    hide RunN, Eval, ExprCode, Exec, StmtCode, Mirrors, Placed, Nested, Ends, CodeAt;
    MirrorsShape(w, base, env);
    var c, b := WhileMeaning(w.nm, s, tag, w.cx);
    WhileAgain(w.nm, s, tag, env, fuel);
    var k := |c| + 1 + |b| + 1;
    var link := Link(at + k, at, w.cx.depth);
    var links := w.links + [link];
    assert |w.cx.loops| == |w.links| by { LinksMatch(w); }
    PlacedClose(w.P, at, c + [J(IfFalse, k - |c|)] + b + [J(Always, 1 - k)], k, 0, w.links, w.cx.depth);
    PlacedSplit4(w.P, at, c, [J(IfFalse, k - |c|)], b, [J(Always, 1 - k)], links);
    n, base' := RunIterations(w, at, s, tag, link, c, b, base, env, fuel);
  }

  lemma RunZero(nm: Numerics, P: seq<Instr>, m: Machine)
    ensures RunN(nm, P, m, 0) == m
  {
  }

  lemma LinksMatch(w: Place)
    requires Nested(w)
    ensures |w.cx.loops| == |w.links|
  {
  }

  /** Expression code placed under the loop's links is placed under the outer ones. */
  lemma PlacedOutside(w: Place, at: nat, e: Expr, links: seq<Link>)
    requires ExprCode(w.nm, e, w.cx.locals).Ok? && Placed(w.P, at, ExprCode(w.nm, e, w.cx.locals).value, links)
    ensures Placed(w.P, at, ExprCode(w.nm, e, w.cx.locals).value, w.links)
  {
    var c := ExprCode(w.nm, e, w.cx.locals).value;
    hide ExprCode;
    ExprClosed(w.nm, e, w.cx.locals);
    ClosedAnywhere(w.P, at, c, links, w.links);
  }

  lemma ClosedAnywhere(P: seq<Instr>, at: nat, c: seq<Instr>, links: seq<Link>, links': seq<Link>)
    requires Closed(c) && Placed(P, at, c, links)
    ensures Placed(P, at, c, links')
  {
    forall k | 0 <= k < |c|
      ensures P[at + k] == LinkInstr(c[k], at + k, links')
    {
      assert P[at + k] == LinkInstr(c[k], at + k, links);
    }
  }

  lemma {:induction false} RunIterations(w: Place, at: nat, s: Stmt, tag: Option<Name>, link: Link, c: seq<Instr>,
                                         b: seq<Instr>, base: seq<Value>, env: Env, fuel: nat)
      returns (n: nat, base': seq<Value>)
    requires s.While? && Tidy(s.body, w.cx.depth) && Nested(w) && link == Link(at + |c| + |b| + 2, at, w.cx.depth)
    requires ExprCode(w.nm, s.condition, w.cx.locals) == Ok(c)
    requires StmtCode(w.nm, s.body, None, InLoop(w.cx, tag, true)) == Ok(Gen(b, w.cx.locals))
    requires Placed(w.P, at, c, w.links + [link])
    requires Placed(w.P, at + |c|, [J(IfFalse, |b| + 2)], w.links + [link])
    requires Placed(w.P, at + |c| + 1, b, w.links + [link])
    requires Placed(w.P, at + |c| + 1 + |b|, [J(Always, 1 - (|c| + |b| + 2))], w.links + [link])
    requires Mirrors(w.cx.locals, w.cx.depth, base, env.frames)
    ensures Ends(w, Running(at, base, env.globals), n, link.breakAt, w.cx.locals, WhileFrom(w.nm, s, tag, env, fuel),
                 fuel,
                 base')
    decreases fuel, s, 0
  {
    hide RunN, Eval, ExprCode, Exec, StmtCode, Mirrors, Placed, Nested, Escapes, CodeAt, AfterBody;
    n, base' := 0, base;
    RunZero(w.nm, w.P, Running(at, base, env.globals));
    if fuel > 0 {
      var m0 := Running(at, base, env.globals);
      PlacedOutside(w, at, s.condition, w.links + [link]);
      PlacedJump(w.P, at + |c|, IfFalse, |b| + 2, w.links + [link]);
      JumpAnywhere(w, at + |c|, IfFalse, |b| + 2);
      n, base' := RunCondition(w, at, s.condition, c, |b| + 2, base, env);
      var r := Eval(w.nm, Compiled, s.condition, env);
      if r.Val? && IsTruthy(w.nm, r.value) {
        var n2, base2 := RunWhileBody(w, at, s, tag, link, c, b, base', r.env, fuel);
        EndsAfter(w, m0, n, Running(at + |c| + 1, base', r.env.globals), n2, link.breakAt, w.cx.locals,
                  WhileFrom(w.nm, s, tag, env, fuel), fuel - 1, fuel, base2);
        n, base' := n + n2, base2;
      }
    }
  }

  lemma JumpAnywhere(w: Place, at: nat, kind: JumpKind, delta: int)
    requires CodeAt(w.P, at, [J(kind, delta)])
    ensures Placed(w.P, at, [J(kind, delta)], w.links)
  {
    assert w.P[at] == w.P[at..at + 1][0];
  }

  /** The body and all later iterations. */
  lemma {:induction false} RunWhileBody(w: Place, at: nat, s: Stmt, tag: Option<Name>, link: Link, c: seq<Instr>,
                                        b: seq<Instr>, base: seq<Value>, env: Env, fuel: nat)
      returns (n: nat, base': seq<Value>)
    requires s.While? && Tidy(s.body, w.cx.depth) && Nested(w) && link == Link(at + |c| + |b| + 2, at, w.cx.depth)
    requires fuel > 0
    requires ExprCode(w.nm, s.condition, w.cx.locals) == Ok(c)
    requires StmtCode(w.nm, s.body, None, InLoop(w.cx, tag, true)) == Ok(Gen(b, w.cx.locals))
    requires Placed(w.P, at, c, w.links + [link])
    requires Placed(w.P, at + |c|, [J(IfFalse, |b| + 2)], w.links + [link])
    requires Placed(w.P, at + |c| + 1, b, w.links + [link])
    requires Placed(w.P, at + |c| + 1 + |b|, [J(Always, 1 - (|c| + |b| + 2))], w.links + [link])
    requires Mirrors(w.cx.locals, w.cx.depth, base, env.frames)
    ensures Ends(w, Running(at + |c| + 1, base, env.globals), n, link.breakAt, w.cx.locals,
                 match AfterBody(Exec(w.nm, Compiled, s.body, None, env, fuel), tag)
                 case Again(env2) => Exec(w.nm, Compiled, s, tag, env2, fuel - 1)
                 case Stop(o) => o, fuel - 1, base')
    decreases fuel, s, -1
  {
    hide RunN, Eval, ExprCode, Exec, StmtCode, Mirrors, Placed, Nested, Escapes, CodeAt, AfterBody;
    var w' := Inside(w, tag, true, link);
    var m0 := Running(at + |c| + 1, base, env.globals);
    MirrorsShape(w, base, env);
    LinksMatch(w);
    NestedInside(w, tag, true, link);
    n, base' := RunStmt(w', at + |c| + 1, s.body, None, base, env, fuel);
    var o := Exec(w.nm, Compiled, s.body, None, env, fuel);
    BodyEnds(w, tag, link, m0, n, at + |c| + 1 + |b|, o, fuel, base');
    match AfterBody(o, tag)
    case Stop(_) =>
    case Again(env2) =>
      PlacedJump(w.P, at + |c| + 1 + |b|, Always, 1 - (|c| + |b| + 2), w.links + [link]);
      n := BackTo(w, m0, n, at + |c| + 1 + |b|, at, o.Normal?, base', env2.globals);
      var n2, base2 := RunIterations(w, at, s, tag, link, c, b, base', env2, fuel - 1);
      WhileAgain(w.nm, s, tag, env2, fuel - 1);
      EndsAfter(w, m0, n, Running(at, base', env2.globals), n2, link.breakAt, w.cx.locals,
                Exec(w.nm, Compiled, s, tag, env2, fuel - 1), fuel - 1, fuel - 1, base2);
      n, base' := n + n2, base2;
  }

  lemma WhileAgain(nm: Numerics, s: Stmt, tag: Option<Name>, env: Env, fuel: nat)
    requires s.While?
    ensures Exec(nm, Compiled, s, tag, env, fuel) == WhileFrom(nm, s, tag, env, fuel)
  {
  }

  /** A body that ended normally jumps back; one that continued is already there. */
  lemma BackTo(w: Place, m0: Machine, n: nat, at: nat, to: int, normal: bool, base: seq<Value>, g: Globals)
      returns (n': nat)
    requires CodeAt(w.P, at, [J(Always, to - at)])
    requires RunN(w.nm, w.P, m0, n) == Running(if normal then at else to, base, g)
    ensures n' >= n && RunN(w.nm, w.P, m0, n') == Running(to, base, g)
  {
    hide RunN;
    n' := n;
    if normal {
      RunGoto(Site(w.nm, w.P, [], 0, [], map[]), at, to - at, base, g);
      RunAdd(w.nm, w.P, m0, n, 1);
      n' := n + 1;
    }
  }

  // ---- Do-while ----

  lemma DoWhileMeaning(nm: Numerics, s: Stmt, tag: Option<Name>, cx: Context) returns (c: seq<Instr>, b: seq<Instr>)
    requires s.DoWhile? && Tidy(s, cx.depth) && Shaped(cx.locals, cx.depth) && StmtCode(nm, s, tag, cx).Ok?
    ensures ExprCode(nm, s.condition, cx.locals) == Ok(c)
    ensures StmtCode(nm, s.body, None, InLoop(cx, tag, true)) == Ok(Gen(b, cx.locals))
    ensures var k := |b| + |c| + 2;
            StmtCode(nm, s, tag, cx).value
              == Gen(CloseLoop(b + c + [J(IfFalse, 2)] + [J(Always, 1 - k)], |cx.loops|, k, |b|), cx.locals)
  {
    hide CloseLoop, ExprCode;
    StmtSlots(nm, s.body, None, InLoop(cx, tag, true));
    c := ExprCode(nm, s.condition, cx.locals).value;
    b := StmtCode(nm, s.body, None, InLoop(cx, tag, true)).value.code;
  }

  /** One more run of a `do` body, unfolded. */
  function DoWhileFrom(nm: Numerics, s: Stmt, tag: Option<Name>, env: Env, fuel: nat): Outcome
    requires s.DoWhile?
  {
    if fuel == 0 then OutOfFuel
    else
      match AfterBody(Exec(nm, Compiled, s.body, None, env, fuel), tag)
      case Stop(o) => o
      case Again(env1) => DoWhileTest(nm, s, tag, env1, fuel)
  }

  function DoWhileTest(nm: Numerics, s: Stmt, tag: Option<Name>, env: Env, fuel: nat): Outcome
    requires s.DoWhile? && fuel > 0
  {
    match Eval(nm, Compiled, s.condition, env)
    case Fail(err, g) => Failed(err, g)
    case Val(v, env2) => if IsTruthy(nm, v) then Exec(nm, Compiled, s, tag, env2, fuel - 1) else Normal(env2)
  }

  lemma DoWhileAgain(nm: Numerics, s: Stmt, tag: Option<Name>, env: Env, fuel: nat)
    requires s.DoWhile?
    ensures Exec(nm, Compiled, s, tag, env, fuel) == DoWhileFrom(nm, s, tag, env, fuel)
  {
  }

  lemma {:induction false} RunDoWhile(w: Place, at: nat, s: Stmt, tag: Option<Name>, base: seq<Value>, env: Env,
                                      fuel: nat)
      returns (n: nat, base': seq<Value>)
    requires s.DoWhile? && Ready(w, at, s, tag, base, env)
    ensures Obeys(w, at, s, tag, base, env, fuel, n, base')
    decreases fuel, s, 1
  {
    hide RunN, Eval, ExprCode, Exec, StmtCode, Mirrors, Placed, Nested, Ends, CodeAt;
    MirrorsShape(w, base, env);
    var c, b := DoWhileMeaning(w.nm, s, tag, w.cx);
    DoWhileAgain(w.nm, s, tag, env, fuel);
    var k := |b| + |c| + 2;
    var link := Link(at + k, at + |b|, w.cx.depth);
    LinksMatch(w);
    PlacedClose(w.P, at, b + c + [J(IfFalse, 2)] + [J(Always, 1 - k)], k, |b|, w.links, w.cx.depth);
    PlacedSplit4(w.P, at, b, c, [J(IfFalse, 2)], [J(Always, 1 - k)], w.links + [link]);
    n, base' := RunRounds(w, at, s, tag, link, c, b, base, env, fuel);
  }

  /** The loop's code in place, under its own link. */
  ghost predicate DoPlaced(w: Place, at: nat, s: Stmt, tag: Option<Name>, link: Link, c: seq<Instr>, b: seq<Instr>) {
    var links := w.links + [link];
    && s.DoWhile? && Tidy(s.body, w.cx.depth) && Nested(w) && link == Link(at + |b| + |c| + 2, at + |b|, w.cx.depth)
    && ExprCode(w.nm, s.condition, w.cx.locals) == Ok(c)
    && StmtCode(w.nm, s.body, None, InLoop(w.cx, tag, true)) == Ok(Gen(b, w.cx.locals))
    && Placed(w.P, at, b, links) && Placed(w.P, at + |b|, c, links)
    && Placed(w.P, at + |b| + |c|, [J(IfFalse, 2)], links)
    && Placed(w.P, at + |b| + |c| + 1, [J(Always, 1 - (|b| + |c| + 2))], links)
  }

  lemma {:induction false} RunRounds(w: Place, at: nat, s: Stmt, tag: Option<Name>, link: Link, c: seq<Instr>,
                                     b: seq<Instr>, base: seq<Value>, env: Env, fuel: nat)
      returns (n: nat, base': seq<Value>)
    requires DoPlaced(w, at, s, tag, link, c, b)
    requires Mirrors(w.cx.locals, w.cx.depth, base, env.frames)
    ensures Ends(w, Running(at, base, env.globals), n, link.breakAt, w.cx.locals, DoWhileFrom(w.nm, s, tag, env, fuel),
                 fuel, base')
    decreases fuel, s, 0
  {
    hide RunN, Eval, ExprCode, Exec, StmtCode, Mirrors, Placed, Nested, Escapes, CodeAt, AfterBody;
    n, base' := 0, base;
    RunZero(w.nm, w.P, Running(at, base, env.globals));
    if fuel > 0 {
      var m0 := Running(at, base, env.globals);
      MirrorsShape(w, base, env);
      LinksMatch(w);
      NestedInside(w, tag, true, link);
      n, base' := RunStmt(Inside(w, tag, true, link), at, s.body, None, base, env, fuel);
      var o := Exec(w.nm, Compiled, s.body, None, env, fuel);
      BodyEnds(w, tag, link, m0, n, at + |b|, o, fuel, base');
      match AfterBody(o, tag)
      case Stop(_) =>
      case Again(env1) =>
        var n2, base2 := RunDoTest(w, at, s, tag, link, c, b, base', env1, fuel);
        EndsAfter(w, m0, n, Running(at + |b|, base', env1.globals), n2, link.breakAt, w.cx.locals,
                  DoWhileTest(w.nm, s, tag, env1, fuel), fuel, fuel, base2);
        n, base' := n + n2, base2;
    }
  }

  lemma {:induction false} RunDoTest(w: Place, at: nat, s: Stmt, tag: Option<Name>, link: Link, c: seq<Instr>,
                                     b: seq<Instr>, base: seq<Value>, env: Env, fuel: nat)
      returns (n: nat, base': seq<Value>)
    requires DoPlaced(w, at, s, tag, link, c, b) && fuel > 0
    requires Mirrors(w.cx.locals, w.cx.depth, base, env.frames)
    ensures Ends(w, Running(at + |b|, base, env.globals), n, link.breakAt, w.cx.locals,
                 DoWhileTest(w.nm, s, tag, env, fuel), fuel, base')
    decreases fuel, s, -1
  {
    hide RunN, Eval, ExprCode, Exec, StmtCode, Mirrors, Placed, Nested, Escapes, CodeAt;
    var links := w.links + [link];
    var m0 := Running(at + |b|, base, env.globals);
    PlacedOutside(w, at + |b|, s.condition, links);
    PlacedJump(w.P, at + |b| + |c|, IfFalse, 2, links);
    JumpAnywhere(w, at + |b| + |c|, IfFalse, 2);
    PlacedJump(w.P, at + |b| + |c| + 1, Always, 1 - (|b| + |c| + 2), links);
    n, base' := RunCondition(w, at + |b|, s.condition, c, 2, base, env);
    var r := Eval(w.nm, Compiled, s.condition, env);
    if r.Val? && IsTruthy(w.nm, r.value) {
      n := BackTo(w, m0, n, at + |b| + |c| + 1, at, true, base', r.env.globals);
      var n2, base2 := RunRounds(w, at, s, tag, link, c, b, base', r.env, fuel - 1);
      DoWhileAgain(w.nm, s, tag, r.env, fuel - 1);
      EndsAfter(w, m0, n, Running(at, base', r.env.globals), n2, link.breakAt, w.cx.locals,
                Exec(w.nm, Compiled, s, tag, r.env, fuel - 1), fuel - 1, fuel, base2);
      n, base' := n + n2, base2;
    }
  }

  // ---- Labels ----

  lemma {:induction false} RunLabeled(w: Place, at: nat, s: Stmt, base: seq<Value>, env: Env, fuel: nat)
      returns (n: nat, base': seq<Value>)
    requires s.Labeled? && Ready(w, at, s, None, base, env)
    ensures Obeys(w, at, s, None, base, env, fuel, n, base')
    decreases fuel, s, 1
  {
    hide RunN, Exec, StmtCode, Mirrors, Placed, Nested, Ends;
    if IsLoop(s.body) {
      LabeledLoop(w.nm, s, w.cx, env, fuel);
      n, base' := RunStmt(w, at, s.body, Some(s.tag), base, env, fuel);
    } else {
      MirrorsShape(w, base, env);
      var b := LabeledMeaning(w.nm, s, w.cx);
      LabeledExec(w.nm, s, env, fuel);
      n, base' := RunLabeledBody(w, at, s, b, base, env, fuel);
    }
  }

  lemma {:induction false} RunLabeledBody(w: Place, at: nat, s: Stmt, b: seq<Instr>, base: seq<Value>, env: Env,
                                          fuel: nat)
      returns (n: nat, base': seq<Value>)
    requires s.Labeled? && Tidy(s.body, w.cx.depth) && Nested(w) && Mirrors(w.cx.locals, w.cx.depth, base, env.frames)
    requires StmtCode(w.nm, s.body, None, InLoop(w.cx, Some(s.tag), false)) == Ok(Gen(b, w.cx.locals))
    requires Placed(w.P, at, CloseLoop(b, |w.cx.loops|, |b|, 0), w.links)
    ensures Ends(w, Running(at, base, env.globals), n, at + |b|, w.cx.locals,
                 LabelOutcome(s.tag, Exec(w.nm, Compiled, s.body, None, env, fuel)), fuel, base')
    decreases fuel, s, 0
  {
    hide RunN, Exec, StmtCode, Mirrors, Placed, Nested, Ends;
    MirrorsShape(w, base, env);
    LinksMatch(w);
    var link := Link(at + |b|, at, w.cx.depth);
    PlacedClose(w.P, at, b, |b|, 0, w.links, w.cx.depth);
    NestedInside(w, Some(s.tag), false, link);
    n, base' := RunStmt(Inside(w, Some(s.tag), false, link), at, s.body, None, base, env, fuel);
    LabelEnds(w, s.tag, link, Running(at, base, env.globals), n, Exec(w.nm, Compiled, s.body, None, env, fuel), fuel,
              base');
  }

  lemma LabeledLoop(nm: Numerics, s: Stmt, cx: Context, env: Env, fuel: nat)
    requires s.Labeled? && IsLoop(s.body)
    ensures StmtCode(nm, s, None, cx) == StmtCode(nm, s.body, Some(s.tag), cx)
    ensures Exec(nm, Compiled, s, None, env, fuel) == Exec(nm, Compiled, s.body, Some(s.tag), env, fuel)
  {
  }

  lemma LabeledMeaning(nm: Numerics, s: Stmt, cx: Context) returns (b: seq<Instr>)
    requires s.Labeled? && !IsLoop(s.body) && Tidy(s, cx.depth) && Shaped(cx.locals, cx.depth)
    requires StmtCode(nm, s, None, cx).Ok?
    ensures StmtCode(nm, s.body, None, InLoop(cx, Some(s.tag), false)) == Ok(Gen(b, cx.locals))
    ensures StmtCode(nm, s, None, cx).value == Gen(CloseLoop(b, |cx.loops|, |b|, 0), cx.locals)
  {
    hide CloseLoop;
    StmtSlots(nm, s.body, None, InLoop(cx, Some(s.tag), false));
    b := StmtCode(nm, s.body, None, InLoop(cx, Some(s.tag), false)).value.code;
  }

  lemma LabeledExec(nm: Numerics, s: Stmt, env: Env, fuel: nat)
    requires s.Labeled? && !IsLoop(s.body)
    ensures Exec(nm, Compiled, s, None, env, fuel) == LabelOutcome(s.tag, Exec(nm, Compiled, s.body, None, env, fuel))
  {
  }

  // ---- Scopes ----

  /** `inner` is inside a scope opened at `w`: same loops, one level deeper, more slots. */
  ghost predicate Opens(w: Place, inner: Place) {
    && inner.nm == w.nm && inner.P == w.P && inner.links == w.links && inner.cx.loops == w.cx.loops
    && inner.cx.depth == w.cx.depth + 1
    && |w.cx.locals| <= |inner.cx.locals| && inner.cx.locals[..|w.cx.locals|] == w.cx.locals
    && forall j :: |w.cx.locals| <= j < |inner.cx.locals| ==> inner.cx.locals[j].depth == w.cx.depth + 1
  }

  lemma NestedOpens(w: Place, inner: Place)
    requires Nested(w) && Opens(w, inner)
    ensures Nested(inner)
    ensures forall i :: 0 <= i < |inner.links| ==> inner.links[i].depth < inner.cx.depth
  {
    forall i, j | 0 <= i < |w.links| && 0 <= j < |inner.cx.locals|
      ensures if j < w.cx.loops[i].localsCount then inner.cx.locals[j].depth <= w.links[i].depth
              else inner.cx.locals[j].depth > w.links[i].depth
    {
      if j < |w.cx.locals| {
        assert inner.cx.locals[j] == inner.cx.locals[..|w.cx.locals|][j];
      }
    }
  }

  lemma EscapesScope(w: Place, inner: Place, m: Machine, i: Option<nat>, isBreak: bool, env: Env, base: seq<Value>)
    requires Opens(w, inner) && Nested(w) && Escapes(inner, m, i, isBreak, env, base)
    ensures Escapes(w, m, i, isBreak, LeaveEnv(env), base)
  {
    hide Mirrors;
    var keep, d := w.cx.loops[i.value].localsCount, w.links[i.value].depth;
    assert inner.cx.locals[..keep] == inner.cx.locals[..|w.cx.locals|][..keep];
    assert LeaveEnv(env).frames[..d] == env.frames[..d];
  }

  /** The slots a scope ends with: those it began with, perhaps initialized, and more of the same depth. */
  ghost predicate EndsScope(w: Place, after: seq<Local>) {
    && |w.cx.locals| <= |after| && after[..|w.cx.locals|] == w.cx.locals
    && forall j :: |w.cx.locals| <= j < |after| ==> after[j].depth == w.cx.depth + 1
  }

  /** Leaving the scope: the pops take its slots off, and a jump out has already done so. */
  lemma LeaveEnds(w: Place, inner: Place, m0: Machine, n: nat, at: nat, after: seq<Local>, o: Outcome, fuel: nat,
                  base: seq<Value>) returns (n': nat, base': seq<Value>)
    requires Opens(w, inner) && Nested(w) && EndsScope(w, after) && Shaped(w.cx.locals, w.cx.depth)
    requires CodeAt(w.P, at, Pops(|after| - |w.cx.locals|))
    requires Ends(inner, m0, n, at, after, o, fuel, base)
    ensures n' >= n
    ensures Ends(w, m0, n', at + |after| - |w.cx.locals|, w.cx.locals, LeaveScope(o), fuel, base')
  {
    hide RunN, Mirrors, Escapes, CodeAt;
    n', base' := n, base;
    var m := RunN(w.nm, w.P, m0, n);
    match o
    case Normal(env) =>
      n', base' := LeaveNormally(w, m0, n, at, after, env, base);
    case Broke(l, env) => EscapesScope(w, inner, m, FindLoop(w.cx.loops, l, false), true, env, base);
    case Continued(l, env) => EscapesScope(w, inner, m, FindLoop(w.cx.loops, l, true), false, env, base);
    case _ =>
  }

  lemma LeaveNormally(w: Place, m0: Machine, n: nat, at: nat, after: seq<Local>, env: Env, base: seq<Value>)
      returns (n': nat, base': seq<Value>)
    requires EndsScope(w, after) && Shaped(w.cx.locals, w.cx.depth)
    requires CodeAt(w.P, at, Pops(|after| - |w.cx.locals|))
    requires RunN(w.nm, w.P, m0, n) == Running(at, base, env.globals)
    requires Mirrors(after, w.cx.depth + 1, base, env.frames)
    ensures n' >= n
    ensures RunN(w.nm, w.P, m0, n') == Running(at + |after| - |w.cx.locals|, base', LeaveEnv(env).globals)
    ensures Mirrors(w.cx.locals, w.cx.depth, base', LeaveEnv(env).frames)
  {
    hide RunN, CodeAt;
    var keep := |w.cx.locals|;
    RunPops(w, at, |after| - keep, base, env.globals);
    RunAdd(w.nm, w.P, m0, n, |after| - keep);
    forall i | 0 <= i < keep
      ensures after[i].depth <= w.cx.depth
    {
      assert after[i] == after[..keep][i];
    }
    MirrorsCut(after, w.cx.depth + 1, base, env.frames, keep, w.cx.depth);
    n', base' := n + |after| - keep, base[..keep];
  }

  // ---- Blocks ----

  lemma {:induction false} RunBlock(w: Place, at: nat, block: Block, base: seq<Value>, env: Env, fuel: nat)
      returns (n: nat, base': seq<Value>)
    requires Ready(w, at, BlockStmt(block), None, base, env)
    ensures Obeys(w, at, BlockStmt(block), None, base, env, fuel, n, base')
    decreases fuel, block, 4
  {
    var s := BlockStmt(block);
    assert Exec(w.nm, Compiled, s, None, env, fuel) == ExecBlock(w.nm, Compiled, block, env, fuel);
    assert StmtCode(w.nm, s, None, w.cx) == BlockCode(w.nm, block, w.cx);
    hide RunN, Exec, ExecBlock, StmtCode, BlockCode, Mirrors, Placed, Nested, Escapes;
    n, base' := RunBlockCode(w, at, block, base, env, fuel);
  }

  lemma BlockMeaning(nm: Numerics, block: Block, cx: Context) returns (g: Gen)
    requires TidyBlock(block, cx.depth) && Shaped(cx.locals, cx.depth) && BlockCode(nm, block, cx).Ok?
    ensures ListCode(nm, block.stmts, BlockContext(block, cx)) == Ok(g)
    ensures SameSlots(g.locals, BlockContext(block, cx).locals, cx.depth + 1)
    ensures BlockCode(nm, block, cx).value
              == Gen(Undefineds(|Reserved(block.stmts, cx.depth + 1)|) + g.code + Pops(|g.locals| - |cx.locals|),
                     cx.locals)
  {
    hide ListCode, Reserved;
    BlockSlots(nm, block, cx);
    g := ListCode(nm, block.stmts, BlockContext(block, cx)).value;
  }

  lemma {:induction false} RunBlockCode(w: Place, at: nat, block: Block, base: seq<Value>, env: Env, fuel: nat)
      returns (n: nat, base': seq<Value>)
    requires TidyBlock(block, w.cx.depth) && Nested(w) && BlockCode(w.nm, block, w.cx).Ok?
    requires Placed(w.P, at, BlockCode(w.nm, block, w.cx).value.code, w.links)
    requires Mirrors(w.cx.locals, w.cx.depth, base, env.frames)
    ensures var g := BlockCode(w.nm, block, w.cx).value;
            && g.locals == w.cx.locals
            && Ends(w, Running(at, base, env.globals), n, at + |g.code|, w.cx.locals,
                    ExecBlock(w.nm, Compiled, block, env, fuel), fuel, base')
    decreases fuel, block, 3
  {
    hide RunN, ExecList, BlockCode, ListCode, Mirrors, Placed, Nested, Escapes, CodeAt, Ends, Reserved, SameSlots;
    MirrorsShape(w, base, env);
    var rs := Reserved(block.stmts, w.cx.depth + 1);
    var g := BlockMeaning(w.nm, block, w.cx);
    PlacedSplit3(w.P, at, Undefineds(|rs|), g.code, Pops(|g.locals| - |w.cx.locals|), w.links);
    PlacedClosed(w.P, at, Undefineds(|rs|), w.links);
    PlacedClosed(w.P, at + |rs| + |g.code|, Pops(|g.locals| - |w.cx.locals|), w.links);
    n, base' := RunBlockBody(w, at, block, g, base, env, fuel);
  }

  lemma {:induction false} RunBlockBody(w: Place, at: nat, block: Block, g: Gen, base: seq<Value>, env: Env, fuel: nat)
      returns (n: nat, base': seq<Value>)
    requires TidyBlock(block, w.cx.depth) && Nested(w) && Mirrors(w.cx.locals, w.cx.depth, base, env.frames)
    requires var cx1 := BlockContext(block, w.cx);
             && ListCode(w.nm, block.stmts, cx1) == Ok(g)
             && SameSlots(g.locals, cx1.locals, w.cx.depth + 1)
    requires var k := |Reserved(block.stmts, w.cx.depth + 1)|;
             && CodeAt(w.P, at, Undefineds(k))
             && Placed(w.P, at + k, g.code, w.links)
             && CodeAt(w.P, at + k + |g.code|, Pops(|g.locals| - |w.cx.locals|))
    ensures Ends(w, Running(at, base, env.globals), n,
                 at + |Reserved(block.stmts, w.cx.depth + 1)| + |g.code| + |g.locals| - |w.cx.locals|, w.cx.locals,
                 ExecBlock(w.nm, Compiled, block, env, fuel), fuel, base')
    decreases fuel, block, 2
  {
    hide RunN, ExecList, BlockCode, ListCode, Mirrors, Placed, Nested, Escapes, CodeAt, Ends, Shaped, SameSlots,
         Declared, EndsScope, Opens, Reserved, TidyList, TidyBlock, LeaveScope;
    var rs := Reserved(block.stmts, w.cx.depth + 1);
    var k := |rs|;
    var w1 := w.(cx := BlockContext(block, w.cx));
    BlockOpens(w, block);
    var env1 := EnterBlock(env, block.stmts);
    var m0, m1 := Running(at, base, env.globals), Running(at + k, base + Blanks(k), env.globals);
    MirrorsShape(w, base, env);
    RunBlanks(w, at, k, base, env.globals);
    MirrorsBlock(w.cx.locals, w.cx.depth, base, env, block.stmts);
    NestedOpens(w, w1);
    ReservedDeclared(block.stmts, w.cx.locals, w.cx.depth + 1);
    ShapedBlock(w.cx.locals, w.cx.depth, rs);
    n, base' := RunList(w1, at + k, block.stmts, base + Blanks(k), env1, fuel);
    var o := ExecList(w.nm, Compiled, block.stmts, env1, fuel);
    EndsAfter(w1, m0, k, m1, n, at + k + |g.code|, g.locals, o, fuel, fuel, base');
    ScopeOf(w, rs, g.locals);
    n, base' := LeaveEnds(w, w1, m0, k + n, at + k + |g.code|, g.locals, o, fuel, base');
  }

  lemma BlockOpens(w: Place, block: Block)
    ensures Opens(w, w.(cx := BlockContext(block, w.cx)))
    ensures TidyBlock(block, w.cx.depth) ==> TidyList(block.stmts, w.cx.depth + 1)
  {
  }

  lemma ScopeOf(w: Place, rs: seq<Local>, after: seq<Local>)
    requires Shaped(w.cx.locals, w.cx.depth) && SameSlots(after, w.cx.locals + rs, w.cx.depth + 1)
    requires forall i :: 0 <= i < |rs| ==> rs[i].depth == w.cx.depth + 1
    ensures EndsScope(w, after)
  {
    var all := w.cx.locals + rs;
    forall i | 0 <= i < |all|
      ensures if i < |w.cx.locals| then after[i] == w.cx.locals[i] else after[i].depth == w.cx.depth + 1
    {
      assert after[i].depth == all[i].depth;
    }
  }

  // ---- Statement lists ----

  /** Recording an initialization in the current scope changes nothing a jump out depends on. */
  lemma EndsShift(w: Place, locals: seq<Local>, m0: Machine, n: nat, to: int, after: seq<Local>, o: Outcome, fuel: nat,
                  base: seq<Value>)
    requires Nested(w) && SameSlots(w.cx.locals, locals, w.cx.depth)
    requires forall i :: 0 <= i < |w.links| ==> w.links[i].depth < w.cx.depth
    requires Ends(w.(cx := w.cx.(locals := locals)), m0, n, to, after, o, fuel, base)
    ensures Ends(w, m0, n, to, after, o, fuel, base)
  {
    hide RunN, Mirrors;
    forall i | 0 <= i < |w.links|
      ensures w.cx.locals[..w.cx.loops[i].localsCount] == locals[..w.cx.loops[i].localsCount]
    {
    }
  }

  lemma NestedShift(w: Place, locals: seq<Local>)
    requires Nested(w) && SameSlots(w.cx.locals, locals, w.cx.depth)
    ensures Nested(w.(cx := w.cx.(locals := locals)))
  {
  }

  lemma ListEnd(w: Place, at: nat, base: seq<Value>, env: Env, fuel: nat)
    ensures ListCode(w.nm, [], w.cx) == Ok(Gen([], w.cx.locals))
    ensures ExecList(w.nm, Compiled, [], env, fuel) == Normal(env)
    ensures RunN(w.nm, w.P, Running(at, base, env.globals), 0) == Running(at, base, env.globals)
  {
  }

  lemma ListMeaning(nm: Numerics, stmts: seq<Stmt>, cx: Context, env: Env, fuel: nat) returns (h: Gen, t: Gen)
    requires |stmts| > 0 && ListCode(nm, stmts, cx).Ok?
    ensures ItemCode(nm, stmts[0], cx) == Ok(h) && ListCode(nm, stmts[1..], cx.(locals := h.locals)) == Ok(t)
    ensures ListCode(nm, stmts, cx).value == Gen(h.code + t.code, t.locals)
    ensures var o := Exec(nm, Compiled, stmts[0], None, env, fuel);
            ExecList(nm, Compiled, stmts, env, fuel) == if o.Normal?
              then ExecList(nm, Compiled, stmts[1..], o.env, fuel) else o
  {
    hide Exec, ItemCode;
    h := ItemCode(nm, stmts[0], cx).value;
    t := ListCode(nm, stmts[1..], cx.(locals := h.locals)).value;
  }

  lemma {:induction false} RunList(w: Place, at: nat, stmts: seq<Stmt>, base: seq<Value>, env: Env, fuel: nat)
      returns (n: nat, base': seq<Value>)
    requires TidyList(stmts, w.cx.depth) && Nested(w) && Declared(stmts, w.cx.locals, w.cx.depth)
    requires forall i :: 0 <= i < |w.links| ==> w.links[i].depth < w.cx.depth
    requires ListCode(w.nm, stmts, w.cx).Ok? && Placed(w.P, at, ListCode(w.nm, stmts, w.cx).value.code, w.links)
    requires Mirrors(w.cx.locals, w.cx.depth, base, env.frames)
    ensures var g := ListCode(w.nm, stmts, w.cx).value;
            Ends(w, Running(at, base, env.globals), n, at + |g.code|, g.locals,
                 ExecList(w.nm, Compiled, stmts, env, fuel), fuel, base')
    decreases fuel, stmts, 0
  {
    hide RunN, Exec, ExecList, ItemCode, ListCode, Mirrors, Placed, Nested, Escapes, ResolveLocal, TidyList, Declared;
    if stmts == [] {
      n, base' := 0, base;
      ListEnd(w, at, base, env, fuel);
    } else {
      var h, t := ListMeaning(w.nm, stmts, w.cx, env, fuel);
      var o := Exec(w.nm, Compiled, stmts[0], None, env, fuel);
      MirrorsShape(w, base, env);
      PlacedSplit(w.P, at, h.code, t.code, w.links);
      n, base' := RunItem(w, at, stmts, base, env, fuel);
      if o.Normal? {
        n, base' := RunRest(w, at, stmts, h, base, env, o.env, n, base', fuel);
      }
    }
  }

  lemma {:induction false} RunRest(w: Place, at: nat, stmts: seq<Stmt>, h: Gen, base: seq<Value>, env: Env, env1: Env,
                                   n1: nat, base1: seq<Value>, fuel: nat) returns (n: nat, base': seq<Value>)
    requires |stmts| > 0 && TidyList(stmts, w.cx.depth) && Nested(w) && Declared(stmts, w.cx.locals, w.cx.depth)
    requires forall i :: 0 <= i < |w.links| ==> w.links[i].depth < w.cx.depth
    requires Shaped(w.cx.locals, w.cx.depth) && ItemCode(w.nm, stmts[0], w.cx) == Ok(h)
    requires var cx1 := w.cx.(locals := h.locals);
             && ListCode(w.nm, stmts[1..], cx1).Ok?
             && Placed(w.P, at + |h.code|, ListCode(w.nm, stmts[1..], cx1).value.code, w.links)
    requires RunN(w.nm, w.P, Running(at, base, env.globals), n1) == Running(at + |h.code|, base1, env1.globals)
    requires Mirrors(h.locals, w.cx.depth, base1, env1.frames)
    ensures var g := ListCode(w.nm, stmts[1..], w.cx.(locals := h.locals)).value;
            Ends(w, Running(at, base, env.globals), n, at + |h.code| + |g.code|, g.locals,
                 ExecList(w.nm, Compiled, stmts[1..], env1, fuel), fuel, base')
    decreases fuel, stmts, -1
  {
    hide RunN, ExecList, ItemCode, ListCode, Mirrors, Placed, Nested, Ends, ResolveLocal;
    var w1 := w.(cx := w.cx.(locals := h.locals));
    ItemSlots(w.nm, stmts[0], w.cx, stmts);
    DeclaredSame(stmts, w.cx.locals, h.locals, w.cx.depth);
    NestedShift(w, h.locals);
    assert Declared(stmts[1..], h.locals, w.cx.depth) by { DeclaredTail(stmts, h.locals, w.cx.depth); }
    var n2;
    n2, base' := RunList(w1, at + |h.code|, stmts[1..], base1, env1, fuel);
    n := n1 + n2;
    var g := ListCode(w.nm, stmts[1..], w1.cx).value;
    var o := ExecList(w.nm, Compiled, stmts[1..], env1, fuel);
    EndsAfter(w1, Running(at, base, env.globals), n1, Running(at + |h.code|, base1, env1.globals), n2,
              at + |h.code| + |g.code|, g.locals, o, fuel, fuel, base');
    EndsShift(w, h.locals, Running(at, base, env.globals), n, at + |h.code| + |g.code|, g.locals, o, fuel, base');
  }

  lemma DeclaredTail(stmts: seq<Stmt>, locals: seq<Local>, depth: nat)
    requires |stmts| > 0 && Declared(stmts, locals, depth)
    ensures Declared(stmts[1..], locals, depth)
  {
    var tail := stmts[1..];
    forall i | 0 <= i < |tail| && tail[i].VarDecl?
      ensures ResolveLocal(locals, tail[i].name).Some?
      ensures locals[ResolveLocal(locals, tail[i].name).value].depth == depth
    {
      assert tail[i] == stmts[i + 1];
    }
  }

  lemma {:induction false} RunItem(w: Place, at: nat, stmts: seq<Stmt>, base: seq<Value>, env: Env, fuel: nat)
      returns (n: nat, base': seq<Value>)
    requires |stmts| > 0 && TidyList(stmts, w.cx.depth) && Nested(w) && Declared(stmts, w.cx.locals, w.cx.depth)
    requires ItemCode(w.nm, stmts[0], w.cx).Ok?
    requires Placed(w.P, at, ItemCode(w.nm, stmts[0], w.cx).value.code, w.links)
    requires Mirrors(w.cx.locals, w.cx.depth, base, env.frames)
    ensures var g := ItemCode(w.nm, stmts[0], w.cx).value;
            Ends(w, Running(at, base, env.globals), n, at + |g.code|, g.locals,
                 Exec(w.nm, Compiled, stmts[0], None, env, fuel), fuel,
                 base')
    decreases fuel, stmts[0], 6
  {
    hide RunN, Exec, StmtCode, Mirrors, Placed, Nested, Ends, ResolveLocal;
    if stmts[0].VarDecl? {
      n, base' := RunDeclaration(w, at, stmts[0], base, env, fuel);
    } else {
      n, base' := RunStmt(w, at, stmts[0], None, base, env, fuel);
    }
  }

  lemma ItemMeaning(nm: Numerics, s: Stmt, cx: Context) returns (c: seq<Instr>)
    requires s.VarDecl? && ItemCode(nm, s, cx).Ok? && ResolveLocal(cx.locals, s.name).Some?
    ensures ExprCode(nm, s.init, cx.locals) == Ok(c)
    ensures ItemCode(nm, s, cx).value
              == Gen(c + [ISetLocal(ResolveLocal(cx.locals, s.name).value)] + [IPop],
                     MarkInitialized(cx.locals, s.name))
  {
    hide MarkInitialized, ResolveLocal, ExprCode;
    c := ExprCode(nm, s.init, cx.locals).value;
  }

  /** A declaration in a list stores into its reserved slot. */
  lemma RunDeclaration(w: Place, at: nat, s: Stmt, base: seq<Value>, env: Env, fuel: nat)
      returns (n: nat, base': seq<Value>)
    requires s.VarDecl? && ResolveLocal(w.cx.locals, s.name).Some?
    requires w.cx.locals[ResolveLocal(w.cx.locals, s.name).value].depth == w.cx.depth
    requires ItemCode(w.nm, s, w.cx).Ok? && Placed(w.P, at, ItemCode(w.nm, s, w.cx).value.code, w.links)
    requires Mirrors(w.cx.locals, w.cx.depth, base, env.frames)
    ensures var g := ItemCode(w.nm, s, w.cx).value;
            Ends(w, Running(at, base, env.globals), n, at + |g.code|, g.locals,
                 Exec(w.nm, Compiled, s, None, env, fuel), fuel, base')
  {
    hide RunN, Eval, ExprCode, Exec, ItemCode, Mirrors, Placed, CodeAt, ResolveLocal, MarkInitialized, DeclareVar;
    var slot := ResolveLocal(w.cx.locals, s.name).value;
    var c := ItemMeaning(w.nm, s, w.cx);
    DeclMeaning(w.nm, s, env, fuel);
    PlacedSplit3(w.P, at, c, [ISetLocal(slot)], [IPop], w.links);
    PlacedOne(w.P, at + |c|, ISetLocal(slot), w.links);
    PlacedOne(w.P, at + |c| + 1, IPop, w.links);
    n, base' := RunTop(w, at, s.init, base, env);
    var r := Eval(w.nm, Compiled, s.init, env);
    if r.Val? {
      MirrorsShape(w, base', r.env);
      StoreAndPop(w, Running(at, base, env.globals), n, at + |c|, slot, base', r.value, r.env);
      MirrorsDeclare(w.cx.locals, w.cx.depth, base', r.env, s.name, r.value, s.isConst);
      n, base' := n + 2, base'[slot := r.value];
    }
  }

  lemma DeclMeaning(nm: Numerics, s: Stmt, env: Env, fuel: nat)
    requires s.VarDecl?
    ensures var r := Eval(nm, Compiled, s.init, env);
            Exec(nm, Compiled, s, None, env, fuel)
            == if r.Fail? then Failed(r.error, r.globals)
              else Normal(DeclareVar(Compiled, r.env, s.name, r.value, s.isConst))
  {
  }

  lemma StoreAndPop(w: Place, m0: Machine, n: nat, at: nat, slot: nat, base: seq<Value>, v: Value, env: Env)
    requires Leaves(w, m0, n, at, base, Val(v, env)) && slot < |base|
    requires CodeAt(w.P, at, [ISetLocal(slot)]) && CodeAt(w.P, at + 1, [IPop])
    ensures RunN(w.nm, w.P, m0, n + 2) == Running(at + 2, base[slot := v], env.globals)
  {
    hide Mirrors, RunN;
    var m1, m2 := Running(at, base + [v], env.globals), Running(at + 1, base[slot := v] + [v], env.globals);
    assert (base + [v])[slot := v] == base[slot := v] + [v];
    CodeAtStep(w.nm, w.P, at, ISetLocal(slot), m1);
    RunAdd(w.nm, w.P, m0, n, 1);
    assert (base[slot := v] + [v])[..|base|] == base[slot := v];
    CodeAtStep(w.nm, w.P, at + 1, IPop, m2);
    RunAdd(w.nm, w.P, m0, n + 1, 1);
  }

  // ---- For ----

  lemma ForMeaning(nm: Numerics, s: Stmt, tag: Option<Name>, cx: Context) returns (p: ForParts)
    requires s.For? && Tidy(s, cx.depth) && Shaped(cx.locals, cx.depth) && StmtCode(nm, s, tag, cx).Ok?
    ensures ForPieces(nm, s, tag, cx) == Ok(p)
    ensures p.body.locals == p.init.locals == cx.locals + ForSlot(s, cx.depth + 1)
    ensures StmtCode(nm, s, tag, cx).value
              == Gen(ForCode(p, s.forCondition.Some?, s.update.Some?, |cx.loops|)
                     + Pops(|p.init.locals| - |cx.locals|), cx.locals)
  {
    hide *;
    p := ForUnfold(nm, s, tag, cx);
    ForPiecesSlots(nm, s, tag, cx);
    ForScopeEnds(s, cx, p);
  }

  lemma ForUnfold(nm: Numerics, s: Stmt, tag: Option<Name>, cx: Context) returns (p: ForParts)
    requires s.For? && StmtCode(nm, s, tag, cx).Ok?
    ensures ForPieces(nm, s, tag, cx) == Ok(p)
    ensures StmtCode(nm, s, tag, cx).value
              == LeaveCode(Gen(ForCode(p, s.forCondition.Some?, s.update.Some?, |cx.loops|), p.body.locals),
                           cx.depth + 1)
  {
    hide ForCode, ForPieces;
    p := ForPieces(nm, s, tag, cx).value;
  }

  lemma ForScopeEnds(s: Stmt, cx: Context, p: ForParts)
    requires s.For? && Shaped(cx.locals, cx.depth)
    requires p.body.locals == p.init.locals
    requires p.init.locals == cx.locals + (if s.forInit.Some? && s.forInit.value.VarDecl?
                                           then [Local(Some(s.forInit.value.name), cx.depth + 1,
                                                       s.forInit.value.isConst, true)]
                                           else [])
    ensures p.init.locals == cx.locals + ForSlot(s, cx.depth + 1)
    ensures forall code :: LeaveCode(Gen(code, p.body.locals), cx.depth + 1)
                             == Gen(code + Pops(|p.init.locals| - |cx.locals|), cx.locals)
  {
    SurvivingScope(cx.locals, p.body.locals, cx.depth);
  }

  /** The slot of a `for` header's declaration. */
  function ForSlot(s: Stmt, depth: nat): seq<Local>
    requires s.For?
  {
    if s.forInit.Some? && s.forInit.value.VarDecl?
    then [Local(Some(s.forInit.value.name), depth, s.forInit.value.isConst, true)]
    else []
  }

  function ForInit(nm: Numerics, s: Stmt, env: Env, fuel: nat): Outcome
    requires s.For?
  {
    if s.forInit.Some? then Exec(nm, Compiled, s.forInit.value, None, env, fuel) else Normal(env)
  }

  function ForTest(nm: Numerics, s: Stmt, env: Env): Evaluation
    requires s.For?
  {
    if s.forCondition.Some? then Eval(nm, Compiled, s.forCondition.value, env) else Val(Bool(true), env)
  }

  /** The rest of a `for` from its update on. */
  function ForUpdate(nm: Numerics, s: Stmt, tag: Option<Name>, env: Env, fuel: nat): Outcome
    requires s.For? && fuel > 0
  {
    match (if s.update.Some? then Eval(nm, Compiled, s.update.value, env) else Val(Undefined, env))
    case Fail(err, g) => Failed(err, g)
    case Val(_, env1) => ExecFor(nm, Compiled, s.forCondition, s.update, s.body, tag, env1, fuel - 1)
  }

  /** The rest of a `for` from its body on. */
  function ForBody(nm: Numerics, s: Stmt, tag: Option<Name>, env: Env, fuel: nat): Outcome
    requires s.For? && fuel > 0
  {
    match AfterBody(Exec(nm, Compiled, s.body, None, env, fuel), tag)
    case Stop(o) => o
    case Again(env1) => ForUpdate(nm, s, tag, env1, fuel)
  }

  function ForFrom(nm: Numerics, s: Stmt, tag: Option<Name>, env: Env, fuel: nat): Outcome
    requires s.For?
  {
    if fuel == 0 then OutOfFuel
    else
      match ForTest(nm, s, env)
      case Fail(err, g) => Failed(err, g)
      case Val(v, env1) => if IsTruthy(nm, v) then ForBody(nm, s, tag, env1, fuel) else Normal(env1)
  }

  lemma ForAgain(nm: Numerics, s: Stmt, tag: Option<Name>, env: Env, fuel: nat)
    requires s.For?
    ensures ExecFor(nm, Compiled, s.forCondition, s.update, s.body, tag, env, fuel) == ForFrom(nm, s, tag, env, fuel)
  {
  }

  lemma ForExec(nm: Numerics, s: Stmt, tag: Option<Name>, env: Env, fuel: nat)
    requires s.For?
    ensures var o := ForInit(nm, s, EnterScope(env), fuel);
            Exec(nm, Compiled, s, tag, env, fuel)
              == LeaveScope(if o.Normal? then ExecFor(nm, Compiled, s.forCondition, s.update, s.body, tag, o.env, fuel)
                              else o)
  {
  }

  /** The loop of a `for` in place, under its own link: `at` is where its test begins, `w` is inside its scope. */
  ghost predicate ForPlaced(w: Place, at: nat, s: Stmt, tag: Option<Name>, link: Link, c: seq<Instr>, u: seq<Instr>,
                            b: seq<Instr>) {
    var links := w.links + [link];
    var jumpAt := at + |c| + if s.For? && s.forCondition.Some? then 1 else 0;
    var bodyAt := link.continueAt + |u| + 1;
    && s.For? && Tidy(s.body, w.cx.depth) && Nested(w) && link == Link(bodyAt + |b| + 1, jumpAt + 1, w.cx.depth)
    && (if s.forCondition.Some?
        then ExprCode(w.nm, s.forCondition.value, w.cx.locals) == Ok(c)
             && Placed(w.P, at + |c|, [J(IfFalse, |u| + |b| + 4)], links)
        else c == [])
    && UpdatePlaced(w, s, u)
    && StmtCode(w.nm, s.body, None, InLoop(w.cx, tag, true)) == Ok(Gen(b, w.cx.locals))
    && Placed(w.P, at, c, links)
    && CodeAt(w.P, jumpAt, [J(Always, |u| + 2)])
    && Placed(w.P, link.continueAt, u, links)
    && CodeAt(w.P, bodyAt - 1, [J(Always, at - (bodyAt - 1))])
    && Placed(w.P, bodyAt, b, links)
    && CodeAt(w.P, bodyAt + |b|, [J(Always, link.continueAt - (bodyAt + |b|))])
  }

  ghost predicate UpdatePlaced(w: Place, s: Stmt, u: seq<Instr>)
    requires s.For?
  {
    if s.update.Some?
    then ExprCode(w.nm, s.update.value, w.cx.locals).Ok?
         && u == ExprCode(w.nm, s.update.value, w.cx.locals).value + [IPop]
    else u == []
  }

  /** The header's first part runs in the loop's scope, before the loop. */
  lemma RunForInit(w: Place, at: nat, s: Stmt, c: seq<Instr>, links: seq<Link>, base: seq<Value>, env: Env, fuel: nat)
      returns (n: nat, base': seq<Value>)
    requires s.For? && w.cx.depth > 0 && Tidy(s, w.cx.depth - 1) && Mirrors(w.cx.locals, w.cx.depth, base, env.frames)
    requires s.forInit.Some? ==>
               StmtCode(w.nm, s.forInit.value, None, w.cx) == Ok(Gen(c, w.cx.locals + ForSlot(s, w.cx.depth)))
    requires s.forInit.None? ==> c == []
    requires Placed(w.P, at, c, links)
    ensures var r := ForInit(w.nm, s, env, fuel);
            var m := RunN(w.nm, w.P, Running(at, base, env.globals), n);
            && (r.Normal? || r.Failed?)
            && (r.Failed? ==> m == Crashed(r.error, r.globals))
            && (r.Normal? ==>
                  && m == Running(at + |c|, base', r.env.globals)
                  && Mirrors(w.cx.locals + ForSlot(s, w.cx.depth), w.cx.depth, base', r.env.frames))
  {
    n, base' := 0, base;
    if s.forInit.None? {
      assert w.cx.locals + [] == w.cx.locals;
    } else {
      InitClosed(w, s.forInit.value, c);
      ClosedAnywhere(w.P, at, c, links, w.links);
      InitOutcome(w.nm, s.forInit.value, env, fuel);
      hide RunN, Exec, StmtCode, Mirrors, Placed;
      if s.forInit.value.VarDecl? {
        n, base' := RunVarDecl(w, at, s.forInit.value, base, env, fuel);
      } else {
        n, base' := RunExprStmt(w, at, s.forInit.value, base, env, fuel);
      }
    }
  }

  lemma InitClosed(w: Place, s: Stmt, c: seq<Instr>)
    requires s.VarDecl? || s.ExprStmt?
    requires w.cx.depth > 0 && StmtCode(w.nm, s, None, w.cx).Ok? && StmtCode(w.nm, s, None, w.cx).value.code == c
    ensures Closed(c)
  {
    ExprClosed(w.nm, if s.VarDecl? then s.init else s.expr, w.cx.locals);
  }

  lemma InitOutcome(nm: Numerics, s: Stmt, env: Env, fuel: nat)
    requires s.VarDecl? || s.ExprStmt?
    ensures Exec(nm, Compiled, s, None, env, fuel).Normal? || Exec(nm, Compiled, s, None, env, fuel).Failed?
  {
  }

  lemma RunForTest(w: Place, at: nat, s: Stmt, tag: Option<Name>, link: Link, c: seq<Instr>, u: seq<Instr>,
                   b: seq<Instr>, base: seq<Value>, env: Env) returns (n: nat, base': seq<Value>)
    requires ForPlaced(w, at, s, tag, link, c, u, b)
    requires Mirrors(w.cx.locals, w.cx.depth, base, env.frames)
    ensures n > 0
    ensures var r := ForTest(w.nm, s, env);
            var m := RunN(w.nm, w.P, Running(at, base, env.globals), n);
            && (r.Fail? ==> m == Crashed(r.error, r.globals))
            && (r.Val? ==>
                  && m == Running(if IsTruthy(w.nm, r.value) then link.continueAt + |u| + 1 else link.breakAt, base',
                                  r.env.globals)
                  && Mirrors(w.cx.locals, w.cx.depth, base', r.env.frames))
  {
    hide RunN, Eval, ExprCode, StmtCode, Mirrors, Placed, Nested, CodeAt;
    var m0 := Running(at, base, env.globals);
    n, base' := 0, base;
    RunZero(w.nm, w.P, m0);
    if s.forCondition.Some? {
      var e := s.forCondition.value;
      PlacedOutside(w, at, e, w.links + [link]);
      PlacedJump(w.P, at + |c|, IfFalse, |u| + |b| + 4, w.links + [link]);
      JumpAnywhere(w, at + |c|, IfFalse, |u| + |b| + 4);
      n, base' := RunCondition(w, at, e, c, |u| + |b| + 4, base, env);
    }
    var r := ForTest(w.nm, s, env);
    if r.Val? && IsTruthy(w.nm, r.value) {
      n := BackTo(w, m0, n, link.continueAt - 1, link.continueAt + |u| + 1, true, base', r.env.globals);
    }
  }

  lemma {:induction false} RunForLoop(w: Place, at: nat, s: Stmt, tag: Option<Name>, link: Link, c: seq<Instr>,
                                      u: seq<Instr>, b: seq<Instr>, base: seq<Value>, env: Env, fuel: nat)
      returns (n: nat, base': seq<Value>)
    requires s.For? && ForPlaced(w, at, s, tag, link, c, u, b)
    requires Mirrors(w.cx.locals, w.cx.depth, base, env.frames)
    ensures Ends(w, Running(at, base, env.globals), n, link.breakAt, w.cx.locals, ForFrom(w.nm, s, tag, env, fuel),
                 fuel,
                 base')
    decreases fuel, s, 2
  {
    hide RunN, ForTest, ForBody, ForPlaced, Mirrors, Escapes;
    n, base' := 0, base;
    RunZero(w.nm, w.P, Running(at, base, env.globals));
    if fuel > 0 {
      n, base' := RunForTest(w, at, s, tag, link, c, u, b, base, env);
      var r := ForTest(w.nm, s, env);
      if r.Val? && IsTruthy(w.nm, r.value) {
        var n2, base2 := RunForBody(w, at, s, tag, link, c, u, b, base', r.env, fuel);
        EndsAfter(w, Running(at, base, env.globals), n, Running(link.continueAt + |u| + 1, base', r.env.globals), n2,
                  link.breakAt, w.cx.locals, ForBody(w.nm, s, tag, r.env, fuel), fuel - 1, fuel, base2);
        n, base' := n + n2, base2;
      }
    }
  }

  lemma {:induction false} RunForBody(w: Place, at: nat, s: Stmt, tag: Option<Name>, link: Link, c: seq<Instr>,
                                      u: seq<Instr>, b: seq<Instr>, base: seq<Value>, env: Env, fuel: nat)
      returns (n: nat, base': seq<Value>)
    requires ForPlaced(w, at, s, tag, link, c, u, b) && fuel > 0
    requires Mirrors(w.cx.locals, w.cx.depth, base, env.frames)
    ensures Ends(w, Running(link.continueAt + |u| + 1, base, env.globals), n, link.breakAt, w.cx.locals,
                 ForBody(w.nm, s, tag, env, fuel), fuel - 1, base')
    decreases fuel, s, 1
  {
    hide RunN, Exec, StmtCode, Mirrors, Placed, Nested, Escapes, CodeAt, AfterBody, ForUpdate;
    var bodyAt := link.continueAt + |u| + 1;
    var m0 := Running(bodyAt, base, env.globals);
    MirrorsShape(w, base, env);
    LinksMatch(w);
    NestedInside(w, tag, true, link);
    n, base' := RunStmt(Inside(w, tag, true, link), bodyAt, s.body, None, base, env, fuel);
    var o := Exec(w.nm, Compiled, s.body, None, env, fuel);
    BodyEnds(w, tag, link, m0, n, bodyAt + |b|, o, fuel, base');
    match AfterBody(o, tag)
    case Stop(_) =>
    case Again(env1) =>
      n := BackTo(w, m0, n, bodyAt + |b|, link.continueAt, o.Normal?, base', env1.globals);
      var n2, base2 := RunForUpdate(w, at, s, tag, link, c, u, b, base', env1, fuel);
      EndsAfter(w, m0, n, Running(link.continueAt, base', env1.globals), n2, link.breakAt, w.cx.locals,
                ForUpdate(w.nm, s, tag, env1, fuel), fuel - 1, fuel - 1, base2);
      n, base' := n + n2, base2;
  }

  lemma {:induction false} RunForUpdate(w: Place, at: nat, s: Stmt, tag: Option<Name>, link: Link, c: seq<Instr>,
                                        u: seq<Instr>, b: seq<Instr>, base: seq<Value>, env: Env, fuel: nat)
      returns (n: nat, base': seq<Value>)
    requires ForPlaced(w, at, s, tag, link, c, u, b) && fuel > 0
    requires Mirrors(w.cx.locals, w.cx.depth, base, env.frames)
    ensures Ends(w, Running(link.continueAt, base, env.globals), n, link.breakAt, w.cx.locals,
                 ForUpdate(w.nm, s, tag, env, fuel), fuel - 1, base')
    decreases fuel, s, 0
  {
    hide RunN, Eval, ExecFor, ExprCode, StmtCode, Mirrors, Placed, Nested, Escapes, CodeAt, ForFrom;
    var m0 := Running(link.continueAt, base, env.globals);
    n, base' := 0, base;
    RunZero(w.nm, w.P, m0);
    if s.update.Some? {
      n, base' := RunUpdate(w, link.continueAt, s.update.value, u, w.links + [link], base, env);
    }
    var r := if s.update.Some? then Eval(w.nm, Compiled, s.update.value, env) else Val(Undefined, env);
    if r.Val? {
      n := BackTo(w, m0, n, link.continueAt + |u|, at, true, base', r.env.globals);
      var n2, base2 := RunForLoop(w, at, s, tag, link, c, u, b, base', r.env, fuel - 1);
      ForAgain(w.nm, s, tag, r.env, fuel - 1);
      EndsAfter(w, m0, n, Running(at, base', r.env.globals), n2, link.breakAt, w.cx.locals,
                ForFrom(w.nm, s, tag, r.env, fuel - 1), fuel - 1, fuel - 1, base2);
      n, base' := n + n2, base2;
    }
  }

  lemma RunUpdate(w: Place, at: nat, e: Expr, u: seq<Instr>, links: seq<Link>, base: seq<Value>, env: Env)
      returns (n: nat, base': seq<Value>)
    requires ExprCode(w.nm, e, w.cx.locals).Ok? && u == ExprCode(w.nm, e, w.cx.locals).value + [IPop]
    requires Placed(w.P, at, u, links) && Mirrors(w.cx.locals, w.cx.depth, base, env.frames)
    ensures var r := Eval(w.nm, Compiled, e, env);
            var m := RunN(w.nm, w.P, Running(at, base, env.globals), n);
            && (r.Fail? ==> m == Crashed(r.error, r.globals))
            && (r.Val? ==>
                  && m == Running(at + |u|, base', r.env.globals)
                  && Mirrors(w.cx.locals, w.cx.depth, base', r.env.frames))
  {
    hide RunN, Eval, ExprCode, Mirrors, Placed, CodeAt;
    var c := ExprCode(w.nm, e, w.cx.locals).value;
    PlacedSplit(w.P, at, c, [IPop], links);
    PlacedOutside(w, at, e, links);
    PlacedOne(w.P, at + |c|, IPop, links);
    n, base' := RunTop(w, at, e, base, env);
    var r := Eval(w.nm, Compiled, e, env);
    if r.Val? {
      LeavesPop(w, Running(at, base, env.globals), n, at + |c|, base', r.value, r.env);
      n := n + 1;
    }
  }

  /** The pieces of a loop body in a row, linked. */
  ghost predicate ForLaid(P: seq<Instr>, at: nat, c: seq<Instr>, jif: seq<Instr>, over: Instr, u: seq<Instr>,
                          back: Instr, b: seq<Instr>, next: Instr, links: seq<Link>) {
    && Placed(P, at, c, links) && Placed(P, at + |c|, jif, links)
    && Placed(P, at + |c| + |jif|, [over], links)
    && Placed(P, at + |c| + |jif| + 1, u, links)
    && Placed(P, at + |c| + |jif| + 1 + |u|, [back], links)
    && Placed(P, at + |c| + |jif| + 2 + |u|, b, links)
    && Placed(P, at + |c| + |jif| + 2 + |u| + |b|, [next], links)
  }

  lemma ForLayout(P: seq<Instr>, at: nat, c: seq<Instr>, jif: seq<Instr>, over: Instr, u: seq<Instr>, back: Instr,
                  b: seq<Instr>, next: Instr, links: seq<Link>)
    requires Placed(P, at, (c + jif) + [over] + (u + [back]) + b + [next], links)
    ensures ForLaid(P, at, c, jif, over, u, back, b, next, links)
  {
    hide Placed;
    PlacedSplit5(P, at, c + jif, [over], u + [back], b, [next], links);
    PlacedSplit(P, at, c, jif, links);
    PlacedSplit(P, at + |c| + |jif| + 1, u, [back], links);
  }

  lemma ForShape(p: ForParts, hasCond: bool, hasUpdate: bool, idx: nat, u: seq<Instr>, jif: seq<Instr>, updateAt: int,
                 bodyAt: int, exit: int)
    requires u == Update(p.update, hasUpdate)
    requires jif == if hasCond then [J(IfFalse, |u| + |p.body.code| + 4)] else []
    requires updateAt == |p.init.code| + |p.cond| + |jif| + 1 && bodyAt == updateAt + |u| + 1
    requires exit == bodyAt + |p.body.code| + 1
    ensures ForCode(p, hasCond, hasUpdate, idx)
              == CloseLoop(p.init.code
                           + ((p.cond + jif) + [J(Always, |u| + 2)] + (u + [J(Always, |p.init.code| - (bodyAt - 1))])
                                          + p.body.code + [J(Always, updateAt - (exit - 1))]), idx, exit, updateAt)
  {
    hide CloseLoop, Update, J;
  }

  /** Where the pieces of a `for` are, once its jumps are filled in. */
  lemma ForSplit(w: Place, at: nat, s: Stmt, tag: Option<Name>, p: ForParts) returns (link: Link)
    requires s.For? && Tidy(s, w.cx.depth) && |w.cx.loops| == |w.links|
    requires ForPieces(w.nm, s, tag, w.cx) == Ok(p) && p.body.locals == p.init.locals
    requires Placed(w.P, at, ForCode(p, s.forCondition.Some?, s.update.Some?, |w.cx.loops|), w.links)
    requires Nested(w.(cx := Deeper(w.cx).(locals := p.init.locals)))
    ensures Placed(w.P, at, p.init.code, w.links + [link])
    ensures link.breakAt == at + |ForCode(p, s.forCondition.Some?, s.update.Some?, |w.cx.loops|)|
    ensures ForPlaced(w.(cx := Deeper(w.cx).(locals := p.init.locals)), at + |p.init.code|, s, tag, link, p.cond,
                      Update(p.update, s.update.Some?), p.body.code)
  {
    hide *;
    var u := Update(p.update, s.update.Some?);
    var jif := if s.forCondition.Some? then [J(IfFalse, |u| + |p.body.code| + 4)] else [];
    var updateAt := |p.init.code| + |p.cond| + |jif| + 1;
    var bodyAt := updateAt + |u| + 1;
    var exit := bodyAt + |p.body.code| + 1;
    link := Link(at + exit, at + updateAt, w.cx.depth + 1);
    ForShape(p, s.forCondition.Some?, s.update.Some?, |w.cx.loops|, u, jif, updateAt, bodyAt, exit);
    ForLinked(w.P, at, p.init.code, p.cond, jif, J(Always, |u| + 2), u, J(Always, |p.init.code| - (bodyAt - 1)),
              p.body.code,
              J(Always, updateAt - (exit - 1)), exit, updateAt, w.links, link);
    ForAssemble(w, at, s, tag, p, jif, link);
  }

  lemma ForLinked(P: seq<Instr>, at: nat, i: seq<Instr>, c: seq<Instr>, jif: seq<Instr>, over: Instr, u: seq<Instr>,
                  back: Instr, b: seq<Instr>, next: Instr, exit: nat, updateAt: nat, links: seq<Link>, link: Link)
    requires link == Link(at + exit, at + updateAt, link.depth)
    requires Placed(P, at, CloseLoop(i + ((c + jif) + [over] + (u + [back]) + b + [next]), |links|, exit, updateAt),
                    links)
    ensures Placed(P, at, i, links + [link])
    ensures ForLaid(P, at + |i|, c, jif, over, u, back, b, next, links + [link])
  {
    hide Placed, CloseLoop, ForLaid;
    var rest := (c + jif) + [over] + (u + [back]) + b + [next];
    PlacedClose(P, at, i + rest, exit, updateAt, links, link.depth);
    PlacedSplit(P, at, i, rest, links + [link]);
    ForLayout(P, at + |i|, c, jif, over, u, back, b, next, links + [link]);
  }

  lemma ForAssemble(w: Place, at: nat, s: Stmt, tag: Option<Name>, p: ForParts, jif: seq<Instr>, link: Link)
    requires s.For? && Tidy(s, w.cx.depth)
    requires ForPieces(w.nm, s, tag, w.cx) == Ok(p) && p.body.locals == p.init.locals
    requires Nested(w.(cx := Deeper(w.cx).(locals := p.init.locals)))
    requires var u := Update(p.update, s.update.Some?);
             var updateAt := |p.init.code| + |p.cond| + |jif| + 1;
             var bodyAt := updateAt + |u| + 1;
             && jif == (if s.forCondition.Some? then [J(IfFalse, |u| + |p.body.code| + 4)] else [])
             && link == Link(at + bodyAt + |p.body.code| + 1, at + updateAt, w.cx.depth + 1)
             && ForLaid(w.P, at + |p.init.code|, p.cond, jif, J(Always, |u| + 2), u,
                        J(Always, |p.init.code| - (bodyAt - 1)), p.body.code,
                        J(Always, updateAt - (bodyAt + |p.body.code|)), w.links + [link])
    ensures ForPlaced(w.(cx := Deeper(w.cx).(locals := p.init.locals)), at + |p.init.code|, s, tag, link, p.cond,
                      Update(p.update, s.update.Some?), p.body.code)
  {
    hide Nested, Placed, CodeAt, StmtCode, ExprCode, Update, ForPieces, UpdatePlaced;
    var w1 := w.(cx := Deeper(w.cx).(locals := p.init.locals));
    var u := Update(p.update, s.update.Some?);
    var updateAt := |p.init.code| + |p.cond| + |jif| + 1;
    var bodyAt := updateAt + |u| + 1;
    PlacedJump(w.P, at + updateAt - 1, Always, |u| + 2, w.links + [link]);
    PlacedJump(w.P, at + bodyAt - 1, Always, |p.init.code| - (bodyAt - 1), w.links + [link]);
    PlacedJump(w.P, at + bodyAt + |p.body.code|, Always, updateAt - (bodyAt + |p.body.code|), w.links + [link]);
    UpdateCode(w1, s, tag, p, w.cx);
    PiecesOf(w.nm, s, tag, w.cx, p);
  }

  lemma UpdateCode(w1: Place, s: Stmt, tag: Option<Name>, p: ForParts, cx: Context)
    requires s.For? && ForPieces(w1.nm, s, tag, cx) == Ok(p) && w1.cx.locals == p.init.locals
    ensures UpdatePlaced(w1, s, Update(p.update, s.update.Some?))
  {
    if s.update.None? {
      assert p.update + [] == [];
    }
  }

  lemma PiecesOf(nm: Numerics, s: Stmt, tag: Option<Name>, cx: Context, p: ForParts)
    requires s.For? && ForPieces(nm, s, tag, cx) == Ok(p)
    ensures if s.forCondition.Some? then ExprCode(nm, s.forCondition.value, p.init.locals) == Ok(p.cond)
              else p.cond == []
    ensures if s.forInit.Some? then StmtCode(nm, s.forInit.value, None, Deeper(cx)) == Ok(p.init)
            else p.init == Gen([], cx.locals)
    ensures StmtCode(nm, s.body, None, InLoop(Deeper(cx).(locals := p.init.locals), tag, true)) == Ok(p.body)
  {
  }

  lemma {:induction false} RunFor(w: Place, at: nat, s: Stmt, tag: Option<Name>, base: seq<Value>, env: Env, fuel: nat)
      returns (n: nat, base': seq<Value>)
    requires s.For? && Ready(w, at, s, tag, base, env)
    ensures Obeys(w, at, s, tag, base, env, fuel, n, base')
    decreases fuel, s, 4
  {
    hide RunN, Exec, ExecFor, StmtCode, Mirrors, Placed, Nested, Ends, CodeAt, ForPieces, ForCode, ForInit, Tidy;
    MirrorsShape(w, base, env);
    LinksMatch(w);
    var p := ForMeaning(w.nm, s, tag, w.cx);
    var c := ForCode(p, s.forCondition.Some?, s.update.Some?, |w.cx.loops|);
    var k := |p.init.locals| - |w.cx.locals|;
    PlacedSplit(w.P, at, c, Pops(k), w.links);
    PlacedClosed(w.P, at + |c|, Pops(k), w.links);
    n, base' := RunForScope(w, at, s, tag, p, base, env, fuel);
  }

  lemma {:induction false} RunForScope(w: Place, at: nat, s: Stmt, tag: Option<Name>, p: ForParts, base: seq<Value>,
                                       env: Env, fuel: nat) returns (n: nat, base': seq<Value>)
    requires s.For? && Tidy(s, w.cx.depth) && Nested(w) && Mirrors(w.cx.locals, w.cx.depth, base, env.frames)
    requires ForPieces(w.nm, s, tag, w.cx) == Ok(p)
    requires p.body.locals == p.init.locals == w.cx.locals + ForSlot(s, w.cx.depth + 1)
    requires var c := ForCode(p, s.forCondition.Some?, s.update.Some?, |w.cx.loops|);
             && Placed(w.P, at, c, w.links)
             && CodeAt(w.P, at + |c|, Pops(|p.init.locals| - |w.cx.locals|))
    ensures Ends(w, Running(at, base, env.globals), n,
                 at + |ForCode(p, s.forCondition.Some?, s.update.Some?, |w.cx.loops|)|
                   + |p.init.locals| - |w.cx.locals|,
                 w.cx.locals, Exec(w.nm, Compiled, s, tag, env, fuel), fuel, base')
    decreases fuel, s, 3
  {
    hide RunN, Exec, ExecFor, StmtCode, Mirrors, Placed, Nested, Escapes, CodeAt, ForPieces, ForCode, ForInit,
         ForPlaced, Tidy, ForFrom, LeaveScope;
    MirrorsShape(w, base, env);
    LinksMatch(w);
    var wi, w1 := w.(cx := Deeper(w.cx)), w.(cx := Deeper(w.cx).(locals := p.init.locals));
    var env0 := EnterScope(env);
    var m0 := Running(at, base, env.globals);
    NestedOpens(w, w1);
    var link := ForSplit(w, at, s, tag, p);
    MirrorsEnter(w.cx.locals, w.cx.depth, base, env, []);
    assert w.cx.locals + Nameless(0, w.cx.depth + 1) == w.cx.locals && base + [] == base;
    PiecesOf(w.nm, s, tag, w.cx, p);
    assert ForSlot(s, w.cx.depth + 1) == [] || s.forInit.Some?;
    assert p.init == Gen(p.init.code, w.cx.locals + ForSlot(s, w.cx.depth + 1));
    n, base' := RunForInit(wi, at, s, p.init.code, w.links + [link], base, env0, fuel);
    var o := ForInit(w.nm, s, env0, fuel);
    if o.Normal? {
      var n2, base2 := RunForLoop(w1, at + |p.init.code|, s, tag, link, p.cond, Update(p.update, s.update.Some?),
                                  p.body.code,
                                  base', o.env, fuel);
      ForAgain(w.nm, s, tag, o.env, fuel);
      EndsAfter(w1, m0, n, Running(at + |p.init.code|, base', o.env.globals), n2, link.breakAt, p.init.locals,
                ForFrom(w.nm, s, tag, o.env, fuel), fuel, fuel, base2);
      n, base' := n + n2, base2;
      o := ForFrom(w.nm, s, tag, o.env, fuel);
    }
    ForExec(w.nm, s, tag, env, fuel);
    n, base' := LeaveEnds(w, w1, m0, n, link.breakAt, p.init.locals, o, fuel, base');
  }

  // ---- Switch ----

  lemma SwitchMeaning(nm: Numerics, s: Stmt, cx: Context) returns (p: SwitchParts)
    requires s.Switch? && Tidy(s, cx.depth) && Shaped(cx.locals, cx.depth) && StmtCode(nm, s, None, cx).Ok?
    ensures SwitchPieces(nm, s, cx) == Ok(p)
    ensures StmtCode(nm, s, None, cx).value == Gen(SwitchCode(p, |cx.locals|) + Pops(1), cx.locals)
  {
    hide SwitchPieces, SwitchCode, Tidy, BlockCode;
    p := SwitchPieces(nm, s, cx).value;
    SwitchPiecesSlots(nm, s, cx);
    SurvivingScope(cx.locals, SwitchContext(cx).locals, cx.depth);
  }

  /** A `switch` once its scrutinee has a value. */
  function SwitchRest(nm: Numerics, s: Stmt, v: Value, env: Env, fuel: nat): Outcome
    requires s.Switch?
  {
    match Select(nm, Compiled, v, s.cases, 0, env)
    case Raised(err, g) => Failed(err, g)
    case Chosen(i, env1) => ExecBlock(nm, Compiled, s.cases[i].body, env1, fuel)
    case NoMatch(env1) => if s.defaultBlock.None? then Normal(env1)
      else ExecBlock(nm, Compiled, s.defaultBlock.value, env1, fuel)
  }

  lemma SwitchExec(nm: Numerics, s: Stmt, env: Env, fuel: nat)
    requires s.Switch?
    ensures Exec(nm, Compiled, s, None, env, fuel) == SwitchFrom(nm, s, Eval(nm, Compiled, s.scrutinee, env), fuel)
  {
  }

  function SwitchFrom(nm: Numerics, s: Stmt, r: Evaluation, fuel: nat): Outcome
    requires s.Switch?
  {
    match r
    case Fail(err, g) => Failed(err, g)
    case Val(v, env) => LeaveScope(SwitchRest(nm, s, v, EnterScope(env), fuel))
  }

  lemma {:induction false} CaseTestsAt(nm: Numerics, cases: seq<SwitchCase>, locals: seq<Local>, i: nat)
    requires CaseTests(nm, cases, locals).Ok? && i < |cases|
    ensures ExprCode(nm, cases[i].value, locals) == Ok(CaseTests(nm, cases, locals).value[i])
  {
    if i > 0 {
      CaseTestsAt(nm, cases[1..], locals, i - 1);
    }
  }

  lemma {:induction false} CaseBodiesAt(nm: Numerics, cases: seq<SwitchCase>, cx: Context, i: nat)
    requires forall k :: 0 <= k < |cases| ==> TidyBlock(cases[k].body, cx.depth)
    requires Shaped(cx.locals, cx.depth) && CaseBodies(nm, cases, cx).Ok? && i < |cases|
    ensures BlockCode(nm, cases[i].body, cx).Ok?
    ensures BlockCode(nm, cases[i].body, cx).value.code == CaseBodies(nm, cases, cx).value.codes[i]
  {
    hide BlockCode, CaseBodies;
    CaseBodiesSlots(nm, cases, cx);
    if i > 0 {
      CaseBodiesAt(nm, cases[1..], cx, i - 1);
    }
  }

  /** Body `j` among the bodies from `i` on, with the jump behind it that leaves the `switch`. */
  lemma {:induction false} BodyPlaced(P: seq<Instr>, at: nat, bodies: seq<seq<Instr>>, tail: nat, i: nat, j: nat,
                                      links: seq<Link>) returns (pos: nat)
    requires i <= j < |bodies| && Placed(P, at, BodiesFrom(bodies, tail, i), links)
    ensures pos == at + BodiesSize(bodies[..j]) - BodiesSize(bodies[..i])
    ensures Placed(P, pos, bodies[j], links)
    ensures CodeAt(P, pos + |bodies[j]|,
                   [J(Always, at + |BodiesFrom(bodies, tail, i)| + tail - (pos + |bodies[j]|))])
    decreases j - i
  {
    var rest := BodiesFrom(bodies, tail, i + 1);
    assert BodiesFrom(bodies, tail, i) == bodies[i] + [J(Always, 1 + |rest| + tail)] + rest;
    hide Placed, CodeAt, BodiesFrom;
    PlacedSplit3(P, at, bodies[i], [J(Always, 1 + |rest| + tail)], rest, links);
    BodiesSizeNext(bodies, i);
    if i == j {
      pos := at;
      PlacedJump(P, at + |bodies[i]|, Always, 1 + |rest| + tail, links);
    } else {
      pos := BodyPlaced(P, at + |bodies[i]| + 1, bodies, tail, i + 1, j, links);
    }
  }

  /** The comparisons in place: `w` is inside the scope of the `switch`, whose first slot holds the scrutinee `v`. */
  ghost predicate TestsPlaced(w: Place, at: nat, cases: seq<SwitchCase>, tests: seq<seq<Instr>>,
                              bodies: seq<seq<Instr>>, disc: nat, i: nat) {
    && i <= |cases| == |tests| == |bodies| && disc < |w.cx.locals| && w.cx.locals[disc].name.None?
    && CaseTests(w.nm, cases, w.cx.locals) == Ok(tests)
    && Placed(w.P, at, TestsFrom(tests, bodies, disc, i), w.links)
  }

  /** Where the comparisons send the machine. */
  function Landing(at: nat, tests: seq<seq<Instr>>, bodies: seq<seq<Instr>>, disc: nat, i: nat, r: Selection): int
    requires i <= |tests| == |bodies| && (r.Chosen? ==> r.index < |bodies|)
  {
    var end := at + |TestsFrom(tests, bodies, disc, i)|;
    if r.Chosen? then end + 1 + BodiesSize(bodies[..r.index]) else end
  }

  ghost predicate Selects(w: Place, m0: Machine, n: nat, to: int, disc: nat, v: Value, r: Selection, base: seq<Value>) {
    if r.Raised? then RunN(w.nm, w.P, m0, n) == Crashed(r.error, r.globals)
    else
      && RunN(w.nm, w.P, m0, n) == Running(to, base, r.env.globals)
      && Mirrors(w.cx.locals, w.cx.depth, base, r.env.frames)
      && disc < |base| && base[disc] == v
  }

  lemma TestsUnfold(tests: seq<seq<Instr>>, bodies: seq<seq<Instr>>, disc: nat, i: nat)
    requires i < |tests| == |bodies|
    ensures var rest := TestsFrom(tests, bodies, disc, i + 1);
            TestsFrom(tests, bodies, disc, i)
              == [IGetLocal(disc)] + tests[i] + [IBinary(StrictEqOp)] + [J(IfFalse, 2)]
                 + [J(Always, |rest| + 2 + BodiesSize(bodies[..i]))] + rest
  {
  }

  lemma TestParts(w: Place, at: nat, cases: seq<SwitchCase>, tests: seq<seq<Instr>>, bodies: seq<seq<Instr>>, disc: nat,
                  i: nat) returns (rest: seq<Instr>)
    requires TestsPlaced(w, at, cases, tests, bodies, disc, i) && i < |cases|
    ensures rest == TestsFrom(tests, bodies, disc, i + 1)
    ensures |TestsFrom(tests, bodies, disc, i)| == |tests[i]| + 4 + |rest|
    ensures ExprCode(w.nm, cases[i].value, w.cx.locals) == Ok(tests[i])
    ensures CodeAt(w.P, at, [IGetLocal(disc)]) && CodeAt(w.P, at + 1, tests[i])
    ensures CodeAt(w.P, at + 1 + |tests[i]|, [IBinary(StrictEqOp)])
    ensures CodeAt(w.P, at + 2 + |tests[i]|, [J(IfFalse, 2)])
    ensures CodeAt(w.P, at + 3 + |tests[i]|, [J(Always, |rest| + 2 + BodiesSize(bodies[..i]))])
    ensures TestsPlaced(w, at + 4 + |tests[i]|, cases, tests, bodies, disc, i + 1)
  {
    hide Placed, CodeAt, TestsFrom, BodiesSize, ExprCode, CaseTests, Closed;
    rest := TestsFrom(tests, bodies, disc, i + 1);
    var t, go := tests[i], J(Always, |rest| + 2 + BodiesSize(bodies[..i]));
    TestsUnfold(tests, bodies, disc, i);
    CaseTestsAt(w.nm, cases, w.cx.locals, i);
    ExprClosed(w.nm, cases[i].value, w.cx.locals);
    PlacedSplit(w.P, at, [IGetLocal(disc)] + t + [IBinary(StrictEqOp)] + [J(IfFalse, 2)] + [go], rest, w.links);
    PlacedSplit5(w.P, at, [IGetLocal(disc)], t, [IBinary(StrictEqOp)], [J(IfFalse, 2)], [go], w.links);
    PlacedOne(w.P, at, IGetLocal(disc), w.links);
    PlacedClosed(w.P, at + 1, t, w.links);
    PlacedOne(w.P, at + 1 + |t|, IBinary(StrictEqOp), w.links);
    PlacedOne(w.P, at + 2 + |t|, J(IfFalse, 2), w.links);
    PlacedOne(w.P, at + 3 + |t|, go, w.links);
  }

  /** One case value is computed and compared with the scrutinee. */
  lemma RunCompare(w: Place, at: nat, e: Expr, t: seq<Instr>, disc: nat, v: Value, base: seq<Value>, env: Env)
      returns (n: nat, base': seq<Value>)
    requires ExprCode(w.nm, e, w.cx.locals) == Ok(t)
    requires CodeAt(w.P, at, [IGetLocal(disc)]) && CodeAt(w.P, at + 1, t)
    requires CodeAt(w.P, at + 1 + |t|, [IBinary(StrictEqOp)]) && CodeAt(w.P, at + 2 + |t|, [J(IfFalse, 2)])
    requires Mirrors(w.cx.locals, w.cx.depth, base, env.frames)
    requires disc < |base| && base[disc] == v && w.cx.locals[disc].name.None?
    ensures var r := Eval(w.nm, Compiled, e, env);
            var m := RunN(w.nm, w.P, Running(at, base, env.globals), n);
            && (r.Fail? ==> m == Crashed(r.error, r.globals))
            && (r.Val? ==>
                  && m == Running(if StrictEq(w.nm, v, r.value) then at + 3 + |t| else at + 4 + |t|, base',
                                  r.env.globals)
                  && Mirrors(w.cx.locals, w.cx.depth, base', r.env.frames)
                  && disc < |base'| && base'[disc] == v)
  {
    hide RunN, Eval, ExprCode, Mirrors, CodeAt, StrictEq;
    var m0 := Running(at, base, env.globals);
    var s0 := Site(w.nm, w.P, w.cx.locals, w.cx.depth, [], map[disc := v]);
    var s1 := s0.(temps := [v]);
    CodeAtStep(w.nm, w.P, at, IGetLocal(disc), m0);
    n, base' := RunExpr(s1, at + 1, e, base, env);
    ComputesAfter(s1, m0, 1, At(s1, at + 1, base, env.globals), n, at + 1 + |t|, base', Eval(w.nm, Compiled, e, env));
    n := n + 1;
    var r := Eval(w.nm, Compiled, e, env);
    if r.Val? {
      n := RunVerdict(s0, at + 1 + |t|, v, m0, n, base', r.value, r.env);
    }
  }

  lemma RunVerdict(s: Site, at: nat, v: Value, m0: Machine, n: nat, base: seq<Value>, x: Value, env: Env)
      returns (n': nat)
    requires s.temps == [] && CodeAt(s.P, at, [IBinary(StrictEqOp)]) && CodeAt(s.P, at + 1, [J(IfFalse, 2)])
    requires Computes(s.(temps := [v]), m0, n, at, base, Val(x, env))
    ensures RunN(s.nm, s.P, m0, n')
              == Running(if StrictEq(s.nm, v, x) then at + 2 else at + 3, base, env.globals)
  {
    hide RunN, Mirrors, CodeAt, StrictEq;
    var verdict := Bool(StrictEq(s.nm, v, x));
    assert s.temps + [v] == [v];
    RunBinary(s, at, StrictEqOp, v, x, base, env);
    ComputesAfter(s, m0, n, Running(at, base + [v] + [x], env.globals), 1, at + 1, base, Val(verdict, env));
    JoinTest(s, at + 1, 2, m0, n + 1, base, verdict, env);
    assert base + [] == base;
    n' := n + 2;
  }

  lemma {:induction false} RunTests(w: Place, at: nat, cases: seq<SwitchCase>, tests: seq<seq<Instr>>,
                                    bodies: seq<seq<Instr>>, disc: nat, v: Value, i: nat, base: seq<Value>, env: Env)
      returns (n: nat, base': seq<Value>)
    requires TestsPlaced(w, at, cases, tests, bodies, disc, i)
    requires Mirrors(w.cx.locals, w.cx.depth, base, env.frames) && disc < |base| && base[disc] == v
    ensures var r := Select(w.nm, Compiled, v, cases, i, env);
            Selects(w, Running(at, base, env.globals), n, Landing(at, tests, bodies, disc, i, r), disc, v, r, base')
    decreases |cases| - i
  {
    hide RunN, Eval, ExprCode, Mirrors, CodeAt, StrictEq, Placed, CaseTests, BodiesSize;
    var m0 := Running(at, base, env.globals);
    if i == |cases| {
      n, base' := 0, base;
      RunZero(w.nm, w.P, m0);
    } else {
      var t := tests[i];
      var rest := TestParts(w, at, cases, tests, bodies, disc, i);
      MirrorsShape(w, base, env);
      n, base' := RunCompare(w, at, cases[i].value, t, disc, v, base, env);
      var r := Eval(w.nm, Compiled, cases[i].value, env);
      if r.Val? {
        if StrictEq(w.nm, v, r.value) {
          n := BackTo(w, m0, n, at + 3 + |t|, at + 5 + |t| + |rest| + BodiesSize(bodies[..i]), true, base',
                      r.env.globals);
        } else {
          var n2;
          n2, base' := RunTests(w, at + 4 + |t|, cases, tests, bodies, disc, v, i + 1, base', r.env);
          RunAdd(w.nm, w.P, m0, n, n2);
          n := n + n2;
        }
      }
    }
  }

  /** What follows the scrutinee, in place: comparisons, the jump to the default, bodies, default. */
  ghost predicate SwitchPlaced(w: Place, at: nat, s: Stmt, p: SwitchParts, disc: nat) {
    && s.Switch? && |p.tests| == |p.bodies| == |s.cases| && Nested(w)
    && w.cx.depth > 0 && Tidy(s, w.cx.depth - 1)
    && CaseBodies(w.nm, s.cases, w.cx) == Ok(Bodies(p.bodies, w.cx.locals))
    && (if s.defaultBlock.Some?
        then BlockCode(w.nm, s.defaultBlock.value, w.cx).Ok?
          && BlockCode(w.nm, s.defaultBlock.value, w.cx).value.code == p.default
        else p.default == [])
    && TestsPlaced(w, at, s.cases, p.tests, p.bodies, disc, 0)
    && BodiesPlaced(w, at + |TestsFrom(p.tests, p.bodies, disc, 0)|, p)
  }

  ghost predicate BodiesPlaced(w: Place, at: nat, p: SwitchParts) {
    var bodies := BodiesFrom(p.bodies, |p.default|, 0);
    && CodeAt(w.P, at, [J(Always, 1 + |bodies|)])
    && Placed(w.P, at + 1, bodies, w.links)
    && Placed(w.P, at + 1 + |bodies|, p.default, w.links)
  }

  lemma SwitchPiecesAre(nm: Numerics, s: Stmt, cx: Context, p: SwitchParts)
    requires s.Switch? && Tidy(s, cx.depth) && Shaped(cx.locals, cx.depth) && SwitchPieces(nm, s, cx) == Ok(p)
    ensures var inner := SwitchContext(cx);
            && ExprCode(nm, s.scrutinee, cx.locals) == Ok(p.scrutinee)
            && CaseTests(nm, s.cases, inner.locals) == Ok(p.tests)
            && CaseBodies(nm, s.cases, inner) == Ok(Bodies(p.bodies, inner.locals))
            && (if s.defaultBlock.Some?
                then BlockCode(nm, s.defaultBlock.value, inner).Ok?
                     && BlockCode(nm, s.defaultBlock.value, inner).value.code == p.default
                else p.default == [])
  {
    SwitchPiecesSlots(nm, s, cx);
    assert SwitchContext(cx).(locals := SwitchContext(cx).locals) == SwitchContext(cx);
  }

  lemma SwitchSplit(w: Place, at: nat, s: Stmt, p: SwitchParts)
    requires s.Switch? && SwitchPieces(w.nm, s, w.cx) == Ok(p) && Tidy(s, w.cx.depth) && Shaped(w.cx.locals, w.cx.depth)
    requires Placed(w.P, at, SwitchCode(p, |w.cx.locals|), w.links)
    requires Nested(w.(cx := SwitchContext(w.cx)))
    ensures ExprCode(w.nm, s.scrutinee, w.cx.locals) == Ok(p.scrutinee) && Placed(w.P, at, p.scrutinee, w.links)
    ensures SwitchPlaced(w.(cx := SwitchContext(w.cx)), at + |p.scrutinee|, s, p, |w.cx.locals|)
    ensures |SwitchCode(p, |w.cx.locals|)|
              == |p.scrutinee| + |TestsFrom(p.tests, p.bodies, |w.cx.locals|, 0)| + 1
                 + |BodiesFrom(p.bodies, |p.default|, 0)| + |p.default|
  {
    hide ExprCode, BlockCode, CaseBodies, CaseTests, Placed, CodeAt, TestsFrom, BodiesFrom, Nested, Tidy, SwitchPieces;
    var disc := |w.cx.locals|;
    var bodies := BodiesFrom(p.bodies, |p.default|, 0);
    var tests := TestsFrom(p.tests, p.bodies, disc, 0);
    SwitchPiecesAre(w.nm, s, w.cx, p);
    PlacedSplit5(w.P, at, p.scrutinee, tests, [J(Always, 1 + |bodies|)], bodies, p.default, w.links);
    PlacedOne(w.P, at + |p.scrutinee| + |tests|, J(Always, 1 + |bodies|), w.links);
  }

  lemma {:induction false} RunSwitch(w: Place, at: nat, s: Stmt, base: seq<Value>, env: Env, fuel: nat)
      returns (n: nat, base': seq<Value>)
    requires s.Switch? && Ready(w, at, s, None, base, env)
    ensures Obeys(w, at, s, None, base, env, fuel, n, base')
    decreases fuel, s, 3
  {
    hide RunN, Eval, Exec, StmtCode, Mirrors, Placed, Nested, CodeAt, Escapes, SwitchPieces, SwitchCode, SwitchRest,
         Tidy, SwitchPlaced, LeaveScope, ExprCode;
    MirrorsShape(w, base, env);
    var p := SwitchMeaning(w.nm, s, w.cx);
    var c := SwitchCode(p, |w.cx.locals|);
    PlacedSplit(w.P, at, c, Pops(1), w.links);
    PlacedClosed(w.P, at + |c|, Pops(1), w.links);
    NestedOpens(w, w.(cx := SwitchContext(w.cx)));
    SwitchSplit(w, at, s, p);
    SwitchExec(w.nm, s, env, fuel);
    n, base' := RunTop(w, at, s.scrutinee, base, env);
    var r := Eval(w.nm, Compiled, s.scrutinee, env);
    if r.Val? {
      n, base' := RunSwitchScope(w, at + |p.scrutinee|, s, p, Running(at, base, env.globals), n, base', r.value, r.env,
                                 fuel);
    }
  }

  lemma {:induction false} RunSwitchScope(w: Place, at: nat, s: Stmt, p: SwitchParts, m0: Machine, n0: nat,
                                          base: seq<Value>, v: Value, env: Env, fuel: nat) returns (n: nat,
                                                                                                    base': seq<Value>)
    requires s.Switch? && Nested(w) && Leaves(w, m0, n0, at, base, Val(v, env))
    requires |p.tests| == |p.bodies|
    requires SwitchPlaced(w.(cx := SwitchContext(w.cx)), at, s, p, |w.cx.locals|)
    requires CodeAt(w.P,
                    at + |TestsFrom(p.tests, p.bodies, |w.cx.locals|, 0)| + 1 + |BodiesFrom(p.bodies, |p.default|, 0)|
                         + |p.default|, Pops(1))
    ensures Ends(w, m0, n,
                 at + |TestsFrom(p.tests, p.bodies, |w.cx.locals|, 0)| + 2 + |BodiesFrom(p.bodies, |p.default|, 0)|
                           + |p.default|, w.cx.locals, LeaveScope(SwitchRest(w.nm, s, v, EnterScope(env),
                                                                             fuel)), fuel, base')
    decreases fuel, s, 2
  {
    hide RunN, Mirrors, Placed, Nested, CodeAt, Escapes, SwitchRest, SwitchPlaced, LeaveScope, TestsFrom, BodiesFrom,
         Ends;
    var w1 := w.(cx := SwitchContext(w.cx));
    var disc := |w.cx.locals|;
    var env1 := EnterScope(env);
    var end := at + |TestsFrom(p.tests, p.bodies, disc, 0)| + 1 + |BodiesFrom(p.bodies, |p.default|, 0)| + |p.default|;
    MirrorsShape(w, base, env);
    MirrorsEnter(w.cx.locals, w.cx.depth, base, env, [v]);
    assert w1.cx.locals == w.cx.locals + Nameless(1, w.cx.depth + 1);
    assert (base + [v])[disc] == v;
    n, base' := RunSwitchRest(w1, at, s, p, disc, base + [v], v, env1, fuel);
    var o := SwitchRest(w.nm, s, v, env1, fuel);
    EndsAfter(w1, m0, n0, Running(at, base + [v], env.globals), n, end, w1.cx.locals, o, fuel, fuel, base');
    n, base' := LeaveEnds(w, w1, m0, n0 + n, end, w1.cx.locals, o, fuel, base');
  }

  lemma {:induction false} RunSwitchRest(w: Place, at: nat, s: Stmt, p: SwitchParts, disc: nat, base: seq<Value>,
                                         v: Value, env: Env, fuel: nat) returns (n: nat, base': seq<Value>)
    requires SwitchPlaced(w, at, s, p, disc)
    requires Mirrors(w.cx.locals, w.cx.depth, base, env.frames) && disc < |base| && base[disc] == v
    ensures s.Switch? && |p.tests| == |p.bodies|
    ensures Ends(w, Running(at, base, env.globals), n,
                 at + |TestsFrom(p.tests, p.bodies, disc, 0)| + 1 + |BodiesFrom(p.bodies, |p.default|, 0)|
                   + |p.default|,
                 w.cx.locals, SwitchRest(w.nm, s, v, env, fuel), fuel, base')
    decreases fuel, s, 1
  {
    hide RunN, Mirrors, Placed, Nested, CodeAt, Escapes, TestsFrom, BodiesFrom, BodiesSize, TestsPlaced, CaseBodies,
         BlockCode, Tidy, Select, ExecBlock;
    var m0 := Running(at, base, env.globals);
    var r := Select(w.nm, Compiled, v, s.cases, 0, env);
    n, base' := RunTests(w, at, s.cases, p.tests, p.bodies, disc, v, 0, base, env);
    if !r.Raised? {
      var to := Landing(at, p.tests, p.bodies, disc, 0, r);
      var end := at + |TestsFrom(p.tests, p.bodies, disc, 0)| + 1 + |BodiesFrom(p.bodies, |p.default|, 0)|
        + |p.default|;
      var o := SwitchRest(w.nm, s, v, env, fuel);
      var n2, base2;
      if r.Chosen? {
        n2, base2 := RunChosen(w, at + |TestsFrom(p.tests, p.bodies, disc, 0)|, s, p, r.index, base', r.env, fuel);
      } else {
        n2, base2 := RunDefault(w, at + |TestsFrom(p.tests, p.bodies, disc, 0)|, s, p, base', r.env, fuel);
      }
      EndsAfter(w, m0, n, Running(to, base', r.env.globals), n2, end, w.cx.locals, o, fuel, fuel, base2);
      n, base' := n + n2, base2;
    }
  }

  lemma {:induction false} RunChosen(w: Place, at: nat, s: Stmt, p: SwitchParts, i: nat, base: seq<Value>, env: Env,
                                     fuel: nat)
      returns (n: nat, base': seq<Value>)
    requires s.Switch? && w.cx.depth > 0 && Tidy(s, w.cx.depth - 1) && Nested(w) && i < |s.cases| == |p.bodies|
    requires CaseBodies(w.nm, s.cases, w.cx) == Ok(Bodies(p.bodies, w.cx.locals)) && BodiesPlaced(w, at, p)
    requires Mirrors(w.cx.locals, w.cx.depth, base, env.frames)
    ensures Ends(w, Running(at + 1 + BodiesSize(p.bodies[..i]), base, env.globals), n,
                 at + 1 + |BodiesFrom(p.bodies, |p.default|, 0)| + |p.default|, w.cx.locals,
                 ExecBlock(w.nm, Compiled, s.cases[i].body, env, fuel), fuel, base')
    decreases fuel, s, 0
  {
    hide RunN, Mirrors, Placed, Nested, CodeAt, Ends, BodiesFrom, CaseBodies, BlockCode, ExecBlock;
    var bodies := BodiesFrom(p.bodies, |p.default|, 0);
    var pos := BodyPlaced(w.P, at + 1, p.bodies, |p.default|, 0, i, w.links);
    MirrorsShape(w, base, env);
    CaseBodiesAt(w.nm, s.cases, w.cx, i);
    n, base' := RunBlockCode(w, pos, s.cases[i].body, base, env, fuel);
    n := EndsGoto(w, Running(pos, base, env.globals), n, pos + |p.bodies[i]|,
                  at + 1 + |bodies| + |p.default| - (pos + |p.bodies[i]|), w.cx.locals,
                  ExecBlock(w.nm, Compiled, s.cases[i].body, env, fuel), fuel, base');
  }

  lemma {:induction false} RunDefault(w: Place, at: nat, s: Stmt, p: SwitchParts, base: seq<Value>, env: Env, fuel: nat)
      returns (n: nat, base': seq<Value>)
    requires s.Switch? && w.cx.depth > 0 && Tidy(s, w.cx.depth - 1) && Nested(w) && BodiesPlaced(w, at, p)
    requires if s.defaultBlock.Some?
             then BlockCode(w.nm, s.defaultBlock.value, w.cx).Ok?
                  && BlockCode(w.nm, s.defaultBlock.value, w.cx).value.code == p.default
             else p.default == []
    requires Mirrors(w.cx.locals, w.cx.depth, base, env.frames)
    ensures Ends(w, Running(at, base, env.globals), n, at + 1 + |BodiesFrom(p.bodies, |p.default|, 0)| + |p.default|,
                 w.cx.locals,
                 if s.defaultBlock.None? then Normal(env)
                   else ExecBlock(w.nm, Compiled, s.defaultBlock.value, env, fuel), fuel, base')
    decreases fuel, s, 0
  {
    hide RunN, Mirrors, Placed, Nested, CodeAt, Escapes, BodiesFrom, BlockCode, ExecBlock;
    var m0 := Running(at, base, env.globals);
    var to := at + 1 + |BodiesFrom(p.bodies, |p.default|, 0)|;
    RunZero(w.nm, w.P, m0);
    n := BackTo(w, m0, 0, at, to, true, base, env.globals);
    base' := base;
    if s.defaultBlock.Some? {
      var n2;
      n2, base' := RunBlockCode(w, to, s.defaultBlock.value, base, env, fuel);
      EndsAfter(w, m0, n, Running(to, base, env.globals), n2, to + |p.default|, w.cx.locals,
                ExecBlock(w.nm, Compiled, s.defaultBlock.value, env, fuel), fuel, fuel, base');
      n := n + n2;
    }
  }
}
