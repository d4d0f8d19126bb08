/** What compiling a statement does to the compiler's own bookkeeping: slots come and go in step with scopes. */
module StmtShape {
  import opened Syntax
  import opened Values
  import opened Codegen
  import opened Slots

  /** No bare declaration is the body of an `if`, a loop or a label inside a local scope: `depth` is that of the scope
      the statement stands in, and declarations at depth 0 make globals, not slots. */
  predicate Tidy(s: Stmt, depth: nat) {
    match s
    case BlockStmt(block) => TidyBlock(block, depth)
    case If(_, t, f) => Alone(t, depth) && Tidy(t, depth) && (f.Some? ==> Alone(f.value, depth) && Tidy(f.value, depth))
    case While(_, body) => Alone(body, depth) && Tidy(body, depth)
    case DoWhile(body, _) => Alone(body, depth) && Tidy(body, depth)
    case For(init, _, _, body) =>
      && (init.Some? ==> init.value.VarDecl? || init.value.ExprStmt?)
      && Alone(body, depth + 1) && Tidy(body, depth + 1)
    case Switch(_, cases, d) =>
      && (forall i :: 0 <= i < |cases| ==> TidyBlock(cases[i].body, depth + 1))
      && (d.Some? ==> TidyBlock(d.value, depth + 1))
    case Labeled(_, body) => Alone(body, depth) && Tidy(body, depth)
    case _ => true
  }

  /** A statement that may stand alone at `depth`. */
  predicate Alone(s: Stmt, depth: nat) {
    s.VarDecl? ==> depth == 0
  }

  predicate TidyBlock(block: Block, depth: nat) {
    forall i :: 0 <= i < |block.stmts| ==> Tidy(block.stmts[i], depth + 1)
  }

  predicate TidyList(stmts: seq<Stmt>, depth: nat) {
    forall i :: 0 <= i < |stmts| ==> Tidy(stmts[i], depth)
  }

  /** Same slots, with initialization recorded only at the current depth. */
  ghost predicate SameSlots(a: seq<Local>, b: seq<Local>, depth: nat) {
    && |a| == |b|
    && forall i :: 0 <= i < |a| ==>
         && a[i].name == b[i].name && a[i].depth == b[i].depth && a[i].isConst == b[i].isConst
         && (a[i].depth < depth ==> a[i] == b[i])
  }

  /** Every name declared in the list has its slot in the current scope. */
  ghost predicate Declared(stmts: seq<Stmt>, locals: seq<Local>, depth: nat) {
    forall i :: 0 <= i < |stmts| && stmts[i].VarDecl? ==>
      && ResolveLocal(locals, stmts[i].name).Some?
      && locals[ResolveLocal(locals, stmts[i].name).value].depth == depth
  }

  lemma ResolveSame(a: seq<Local>, b: seq<Local>, depth: nat, x: Name)
    requires SameSlots(a, b, depth)
    ensures ResolveLocal(a, x) == ResolveLocal(b, x)
  {
    var p, q := ResolveLocal(a, x), ResolveLocal(b, x);
    assert p.Some? ==> b[p.value].name == Some(x);
    assert q.Some? ==> a[q.value].name == Some(x);
  }

  lemma DeclaredSame(stmts: seq<Stmt>, a: seq<Local>, b: seq<Local>, depth: nat)
    requires SameSlots(a, b, depth) && Declared(stmts, a, depth)
    ensures Declared(stmts, b, depth)
  {
    forall i | 0 <= i < |stmts| && stmts[i].VarDecl?
      ensures ResolveLocal(b, stmts[i].name) == ResolveLocal(a, stmts[i].name)
    {
      ResolveSame(a, b, depth, stmts[i].name);
    }
  }

  lemma {:induction false} ReservedHas(stmts: seq<Stmt>, d: nat, i: nat)
    requires i < |stmts| && stmts[i].VarDecl?
    ensures exists k :: 0 <= k < |Reserved(stmts, d)| && Reserved(stmts, d)[k].name == Some(stmts[i].name)
  {
    ReservedNames(stmts, d, stmts[i].name);
    assert stmts[i] in stmts;
  }

  lemma ReservedDeclared(stmts: seq<Stmt>, locals: seq<Local>, d: nat)
    ensures Declared(stmts, locals + Reserved(stmts, d), d)
  {
    var all := locals + Reserved(stmts, d);
    forall i | 0 <= i < |stmts| && stmts[i].VarDecl?
      ensures ResolveLocal(all, stmts[i].name).Some? && all[ResolveLocal(all, stmts[i].name).value].depth == d
    {
      ReservedHas(stmts, d, i);
      var k :| 0 <= k < |Reserved(stmts, d)| && Reserved(stmts, d)[k].name == Some(stmts[i].name);
      assert all[|locals| + k].name == Some(stmts[i].name);
    }
  }

  lemma ShapedBlock(locals: seq<Local>, depth: nat, rs: seq<Local>)
    requires Shaped(locals, depth)
    requires forall k :: 0 <= k < |rs| ==> rs[k].depth == depth + 1
    ensures Shaped(locals + rs, depth + 1)
  {
  }

  /** Leaving a scope leaves exactly the slots it was entered with. */
  lemma SurvivingScope(locals: seq<Local>, inner: seq<Local>, depth: nat)
    requires Shaped(locals, depth) && |locals| <= |inner| && inner[..|locals|] == locals
    requires forall i :: |locals| <= i < |inner| ==> inner[i].depth == depth + 1
    ensures Surviving(inner, depth + 1) == locals
  {
  }

  /** Compiling anything but a declaration leaves the slots as they were. */
  lemma {:induction false} StmtSlots(nm: Numerics, s: Stmt, tag: Option<Name>, cx: Context)
    requires Tidy(s, cx.depth) && Shaped(cx.locals, cx.depth) && StmtCode(nm, s, tag, cx).Ok?
    ensures StmtCode(nm, s, tag, cx).value.locals
              == if s.VarDecl?
                && cx.depth > 0 then cx.locals + [Local(Some(s.name), cx.depth, s.isConst, true)] else cx.locals
    decreases s, 1
  {
    hide ExprCode, CloseLoop, ForPieces, BlockCode, SwitchPieces, SwitchCode, BreakCode, ContinueCode;
    match s
    case BlockStmt(block) => BlockSlots(nm, block, cx);
    case If(_, t, f) =>
      StmtSlots(nm, t, None, cx);
      if f.Some? {
        StmtSlots(nm, f.value, None, cx);
      }
    case While(_, body) => StmtSlots(nm, body, None, InLoop(cx, tag, true));
    case DoWhile(body, _) => StmtSlots(nm, body, None, InLoop(cx, tag, true));
    case For(_, _, _, _) => ForSlots(nm, s, tag, cx);
    case Switch(_, _, _) => SwitchSlots(nm, s, cx);
    case Labeled(l, body) =>
      if IsLoop(body) {
        StmtSlots(nm, body, Some(l), cx);
      } else {
        StmtSlots(nm, body, None, InLoop(cx, Some(l), false));
      }
    case _ =>
  }

  lemma {:induction false} SwitchSlots(nm: Numerics, s: Stmt, cx: Context)
    requires s.Switch? && Tidy(s, cx.depth) && Shaped(cx.locals, cx.depth) && StmtCode(nm, s, None, cx).Ok?
    ensures StmtCode(nm, s, None, cx).value.locals == cx.locals
    decreases s, 0
  {
    hide SwitchPieces, SwitchCode, Tidy, BlockCode;
    SwitchPiecesSlots(nm, s, cx);
    SurvivingScope(cx.locals, SwitchContext(cx).locals, cx.depth);
  }

  lemma {:induction false} SwitchPiecesSlots(nm: Numerics, s: Stmt, cx: Context)
    requires s.Switch? && Tidy(s, cx.depth) && Shaped(cx.locals, cx.depth) && SwitchPieces(nm, s, cx).Ok?
    ensures CaseBodies(nm, s.cases, SwitchContext(cx)).Ok?
    ensures CaseBodies(nm, s.cases, SwitchContext(cx)).value.locals == SwitchContext(cx).locals
    ensures SwitchPieces(nm, s, cx).value.locals == SwitchContext(cx).locals
    decreases s, -1
  {
    hide ExprCode, CaseTests, CaseBodies, BlockCode;
    var inner := SwitchContext(cx);
    ShapedBlock(cx.locals, cx.depth, [Local(None, cx.depth + 1, false, true)]);
    CaseBodiesSlots(nm, s.cases, inner);
    if s.defaultBlock.Some? {
      BlockSlots(nm, s.defaultBlock.value, inner);
    }
  }

  lemma {:induction false} CaseBodiesSlots(nm: Numerics, cases: seq<SwitchCase>, cx: Context)
    requires forall i :: 0 <= i < |cases| ==> TidyBlock(cases[i].body, cx.depth)
    requires Shaped(cx.locals, cx.depth) && CaseBodies(nm, cases, cx).Ok?
    ensures CaseBodies(nm, cases, cx).value.locals == cx.locals
    ensures cases != [] ==>
              && BlockCode(nm, cases[0].body, cx).Ok? && BlockCode(nm, cases[0].body, cx).value.locals == cx.locals
              && CaseBodies(nm, cases[1..], cx).Ok?
              && CaseBodies(nm, cases, cx).value.codes
                   == [BlockCode(nm, cases[0].body, cx).value.code] + CaseBodies(nm, cases[1..], cx).value.codes
    decreases cases, 0
  {
    if cases != [] {
      assert cases[0].body < cases[0];
      BlockSlots(nm, cases[0].body, cx);
      assert cx.(locals := cx.locals) == cx;
      CaseBodiesSlots(nm, cases[1..], cx);
    }
  }

  lemma {:induction false} ForSlots(nm: Numerics, s: Stmt, tag: Option<Name>, cx: Context)
    requires s.For? && Tidy(s, cx.depth) && Shaped(cx.locals, cx.depth) && StmtCode(nm, s, tag, cx).Ok?
    ensures StmtCode(nm, s, tag, cx).value.locals == cx.locals
    decreases s, 0
  {
    hide ForCode, ForPieces, ExprCode, Tidy, CloseLoop;
    var p := ForPieces(nm, s, tag, cx).value;
    ForPiecesSlots(nm, s, tag, cx);
    SurvivingScope(cx.locals, p.body.locals, cx.depth);
  }

  /** The header's declaration, if any, is the only slot a `for` adds to its scope. */
  lemma {:induction false} ForPiecesSlots(nm: Numerics, s: Stmt, tag: Option<Name>, cx: Context)
    requires s.For? && Tidy(s, cx.depth) && Shaped(cx.locals, cx.depth) && ForPieces(nm, s, tag, cx).Ok?
    ensures var p := ForPieces(nm, s, tag, cx).value;
            && p.body.locals == p.init.locals
            && p.init.locals == cx.locals + (if s.forInit.Some? && s.forInit.value.VarDecl?
                                             then [Local(Some(s.forInit.value.name), cx.depth + 1,
                                                         s.forInit.value.isConst, true)]
                                             else [])
    decreases s, -1
  {
    hide ExprCode, StmtCode;
    var p := ForPieces(nm, s, tag, cx).value;
    if s.forInit.Some? {
      StmtSlots(nm, s.forInit.value, None, Deeper(cx));
    }
    StmtSlots(nm, s.body, None, InLoop(Deeper(cx).(locals := p.init.locals), tag, true));
  }

  lemma {:induction false} BlockSlots(nm: Numerics, block: Block, cx: Context)
    requires TidyBlock(block, cx.depth) && Shaped(cx.locals, cx.depth) && BlockCode(nm, block, cx).Ok?
    ensures BlockCode(nm, block, cx).value.locals == cx.locals
    ensures var cx1 := BlockContext(block, cx);
            && ListCode(nm, block.stmts, cx1).Ok?
            && SameSlots(ListCode(nm, block.stmts, cx1).value.locals, cx1.locals, cx.depth + 1)
    decreases block, 1
  {
    var rs := Reserved(block.stmts, cx.depth + 1);
    var cx1 := BlockContext(block, cx);
    ShapedBlock(cx.locals, cx.depth, rs);
    ReservedDeclared(block.stmts, cx.locals, cx.depth + 1);
    ListSlots(nm, block.stmts, cx1);
    ScopeEnds(cx, rs, ListCode(nm, block.stmts, cx1).value.locals);
  }

  lemma ScopeEnds(cx: Context, rs: seq<Local>, inner: seq<Local>)
    requires Shaped(cx.locals, cx.depth) && SameSlots(inner, cx.locals + rs, cx.depth + 1)
    requires forall k :: 0 <= k < |rs| ==> rs[k].depth == cx.depth + 1
    ensures Surviving(inner, cx.depth + 1) == cx.locals
  {
    forall i | 0 <= i < |cx.locals|
      ensures inner[i] == cx.locals[i]
    {
      assert (cx.locals + rs)[i] == cx.locals[i] && cx.locals[i].depth <= cx.depth;
    }
    SurvivingScope(cx.locals, inner, cx.depth);
  }

  function BlockContext(block: Block, cx: Context): Context {
    Deeper(cx).(locals := cx.locals + Reserved(block.stmts, cx.depth + 1))
  }

  lemma {:induction false} ListSlots(nm: Numerics, stmts: seq<Stmt>, cx: Context)
    requires TidyList(stmts, cx.depth) && Shaped(cx.locals, cx.depth) && ListCode(nm, stmts, cx).Ok?
    requires Declared(stmts, cx.locals, cx.depth)
    ensures SameSlots(ListCode(nm, stmts, cx).value.locals, cx.locals, cx.depth)
    decreases stmts, 0
  {
    if stmts != [] {
      ItemSlots(nm, stmts[0], cx, stmts);
      var cx1 := cx.(locals := ItemCode(nm, stmts[0], cx).value.locals);
      DeclaredSame(stmts, cx.locals, cx1.locals, cx.depth);
      ListSlots(nm, stmts[1..], cx1);
    }
  }

  lemma {:induction false} ItemSlots(nm: Numerics, s: Stmt, cx: Context, stmts: seq<Stmt>)
    requires |stmts| > 0 && stmts[0] == s
    requires Tidy(s, cx.depth) && Shaped(cx.locals, cx.depth) && ItemCode(nm, s, cx).Ok?
    requires Declared(stmts, cx.locals, cx.depth)
    ensures SameSlots(ItemCode(nm, s, cx).value.locals, cx.locals, cx.depth)
    ensures SameSlots(cx.locals, ItemCode(nm, s, cx).value.locals, cx.depth)
    ensures Shaped(ItemCode(nm, s, cx).value.locals, cx.depth)
    decreases s, 2
  {
    if !s.VarDecl? {
      StmtSlots(nm, s, None, cx);
    }
  }
}
