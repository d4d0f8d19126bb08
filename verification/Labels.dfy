/** What a label is for: on a loop it names the target of the jumps inside, and on any other statement it is a target of
    `break` alone. Both for the code of a statement and for its meaning. */
module Labels {
  import opened Syntax
  import opened Values
  import opened Semantics
  import opened Bytecode
  import opened Codegen

  /** The statements a `continue` may go to. */
  predicate Repeats(s: Stmt) {
    s.While? || s.DoWhile? || s.For?
  }

  // ---- Aiming the jumps of a loop's body ----

  /** The unlabelled jumps of `s` that go to the loop around it, aimed at label `l`. Those inside inner loops go to the
      inner loop. */
  function Aim(s: Stmt, l: Name): Stmt
    decreases s
  {
    match s
    case BlockStmt(block) => BlockStmt(AimBlock(block, l))
    case If(c, t, f) => If(c, Aim(t, l), if f.Some? then Some(Aim(f.value, l)) else None)
    case For(init, c, u, body) => For(if init.Some? then Some(Aim(init.value, l)) else None, c, u, body)
    case Switch(e, cases, d) => Switch(e, AimCases(cases, l), if d.Some? then Some(AimBlock(d.value, l)) else None)
    case Labeled(m, body) => Labeled(m, Aim(body, l))
    case Break(None) => Break(Some(l))
    case Continue(None) => Continue(Some(l))
    case _ => s
  }

  function AimBlock(block: Block, l: Name): Block
    decreases block
  {
    Block(AimList(block.stmts, l))
  }

  function AimList(ss: seq<Stmt>, l: Name): (r: seq<Stmt>)
    ensures |r| == |ss|
    decreases ss
  {
    if ss == [] then [] else [Aim(ss[0], l)] + AimList(ss[1..], l)
  }

  function AimCases(cases: seq<SwitchCase>, l: Name): (r: seq<SwitchCase>)
    ensures |r| == |cases|
    decreases cases
  {
    if cases == [] then []
    else
      assert cases[0].body < cases[0];
      [SwitchCase(cases[0].value, AimBlock(cases[0].body, l))] + AimCases(cases[1..], l)
  }

  /** The loop with the jumps of its own body aimed at `l`. */
  function AimLoop(s: Stmt, l: Name): Stmt
    requires Repeats(s)
  {
    match s
    case While(c, body) => While(c, Aim(body, l))
    case DoWhile(body, c) => DoWhile(Aim(body, l), c)
    case For(init, c, u, body) => For(init, c, u, Aim(body, l))
  }

  /** `l` is neither a label nor the target of a jump in `s`. */
  predicate Avoids(s: Stmt, l: Name)
    decreases s
  {
    match s
    case BlockStmt(block) => ListAvoids(block.stmts, l)
    case If(_, t, f) => Avoids(t, l) && (f.Some? ==> Avoids(f.value, l))
    case While(_, body) => Avoids(body, l)
    case DoWhile(body, _) => Avoids(body, l)
    case For(init, _, _, body) => (init.Some? ==> Avoids(init.value, l)) && Avoids(body, l)
    case Switch(_, cases, d) => CasesAvoid(cases, l) && (d.Some? ==> ListAvoids(d.value.stmts, l))
    case Labeled(m, body) => m != l && Avoids(body, l)
    case Break(t) => t != Some(l)
    case Continue(t) => t != Some(l)
    case _ => true
  }

  predicate ListAvoids(ss: seq<Stmt>, l: Name)
    decreases ss
  {
    ss == [] || (Avoids(ss[0], l) && ListAvoids(ss[1..], l))
  }

  predicate CasesAvoid(cases: seq<SwitchCase>, l: Name)
    decreases cases
  {
    cases == [] ||
    (assert cases[0].body < cases[0]; ListAvoids(cases[0].body.stmts, l) && CasesAvoid(cases[1..], l))
  }

  /** `s`, or `s` with its jumps aimed. */
  function Given(s: Stmt, l: Name, aimed: bool): Stmt {
    if aimed then Aim(s, l) else s
  }

  function GivenBlock(block: Block, l: Name, aimed: bool): Block {
    if aimed then AimBlock(block, l) else block
  }

  function GivenList(ss: seq<Stmt>, l: Name, aimed: bool): (r: seq<Stmt>)
    ensures |r| == |ss|
  {
    if aimed then AimList(ss, l) else ss
  }

  function GivenCases(cases: seq<SwitchCase>, l: Name, aimed: bool): (r: seq<SwitchCase>)
    ensures |r| == |cases|
  {
    if aimed then AimCases(cases, l) else cases
  }

  lemma AimKeepsShape(s: Stmt, l: Name)
    ensures var t := Aim(s, l);
            && (t.VarDecl? <==> s.VarDecl?) && (s.VarDecl? ==> t == s)
            && (t.While? <==> s.While?) && (t.DoWhile? <==> s.DoWhile?) && (t.For? <==> s.For?)
  {
  }

  // ---- The code ----

  /** The same loops around, with the one at `k` labelled. */
  function Tagged(cx: Context, k: nat, l: Name): Context
    requires k < |cx.loops|
  {
    cx.(loops := cx.loops[k := cx.loops[k].(tag := Some(l))])
  }

  /** The loop at `k` has no label, and no label `l` stands inside it; if the jumps are aimed at it, it is the innermost
      loop. */
  predicate Inside(cx: Context, k: nat, l: Name, aimed: bool) {
    && k < |cx.loops| && cx.loops[k].isLoop && cx.loops[k].tag.None?
    && forall j :: k < j < |cx.loops| ==> cx.loops[j].tag != Some(l) && (aimed ==> !cx.loops[j].isLoop)
  }

  /** Jumps that are not aimed find what they found. */
  lemma {:induction false} SameTarget(loops: seq<LoopInfo>, k: nat, l: Name, tag: Option<Name>, needLoop: bool)
    requires k < |loops| && loops[k].tag.None? && tag != Some(l)
    ensures FindLoop(loops[k := loops[k].(tag := Some(l))], tag, needLoop) == FindLoop(loops, tag, needLoop)
    decreases |loops|
  {
    var tagged := loops[k := loops[k].(tag := Some(l))];
    var n := |loops| - 1;
    if !Catches(loops[n], tag, needLoop) {
      if k < n {
        assert tagged[..n] == loops[..n][k := loops[k].(tag := Some(l))];
        SameTarget(loops[..n], k, l, tag, needLoop);
      } else {
        assert tagged[..n] == loops[..n];
      }
    }
  }

  /** Aimed jumps find the loop they went to without a label. */
  lemma {:induction false} AimedTarget(loops: seq<LoopInfo>, k: nat, l: Name, needLoop: bool)
    requires k < |loops| && loops[k].isLoop && loops[k].tag.None?
    requires forall j :: k < j < |loops| ==> loops[j].tag != Some(l) && !loops[j].isLoop
    ensures FindLoop(loops[k := loops[k].(tag := Some(l))], Some(l), needLoop) == Some(k)
    ensures FindLoop(loops, None, needLoop) == Some(k)
    decreases |loops|
  {
    var n := |loops| - 1;
    if k < n {
      assert loops[k := loops[k].(tag := Some(l))][..n] == loops[..n][k := loops[k].(tag := Some(l))];
      AimedTarget(loops[..n], k, l, needLoop);
    }
  }

  lemma JumpCode(cx: Context, k: nat, l: Name, aimed: bool, tag: Option<Name>)
    requires Inside(cx, k, l, aimed) && tag != Some(l)
    ensures var to := if aimed && tag.None? then Some(l) else tag;
            && BreakCode(Tagged(cx, k, l), to) == BreakCode(cx, tag)
            && ContinueCode(Tagged(cx, k, l), to) == ContinueCode(cx, tag)
  {
    forall needLoop: bool
      ensures FindLoop(Tagged(cx, k, l).loops, if aimed && tag.None? then Some(l) else tag, needLoop)
           == FindLoop(cx.loops, tag, needLoop)
    {
      if aimed && tag.None? {
        AimedTarget(cx.loops, k, l, needLoop);
      } else {
        SameTarget(cx.loops, k, l, tag, needLoop);
      }
    }
  }

  /** One more loop or label inside. */
  lemma OneDeeper(cx: Context, k: nat, l: Name, aimed: bool, tag: Option<Name>, isLoop: bool)
    requires Inside(cx, k, l, aimed) && tag != Some(l) && (aimed ==> !isLoop)
    ensures Inside(InLoop(cx, tag, isLoop), k, l, aimed)
    ensures InLoop(Tagged(cx, k, l), tag, isLoop) == Tagged(InLoop(cx, tag, isLoop), k, l)
  {
  }

  lemma {:induction false} StmtAims(nm: Numerics, s: Stmt, l: Name, aimed: bool, tag: Option<Name>, cx: Context, k: nat)
    requires Avoids(s, l) && Inside(cx, k, l, aimed) && tag != Some(l)
    ensures StmtCode(nm, Given(s, l, aimed), tag, Tagged(cx, k, l)) == StmtCode(nm, s, tag, cx)
    decreases s, 1
  {
    hide StmtCode, Inside, Avoids, Aim, Given, Tagged;
    match s
    case BlockStmt(_) => BlockStmtAims(nm, s, l, aimed, tag, cx, k);
    case If(_, _, _) => IfAims(nm, s, l, aimed, tag, cx, k);
    case While(_, _) => InnerLoopAims(nm, s, l, aimed, tag, cx, k);
    case DoWhile(_, _) => InnerLoopAims(nm, s, l, aimed, tag, cx, k);
    case For(_, _, _, _) => ForAims(nm, s, l, aimed, tag, cx, k);
    case Switch(_, _, _) => SwitchAims(nm, s, l, aimed, tag, cx, k);
    case Labeled(_, _) => LabeledAims(nm, s, l, aimed, tag, cx, k);
    case Break(_) => JumpAims(nm, s, l, aimed, tag, cx, k);
    case Continue(_) => JumpAims(nm, s, l, aimed, tag, cx, k);
    case _ => PlainAims(nm, s, l, aimed, tag, cx, k);
  }

  lemma PlainAims(nm: Numerics, s: Stmt, l: Name, aimed: bool, tag: Option<Name>, cx: Context, k: nat)
    requires (s.VarDecl? || s.ExprStmt? || s.Empty? || s.Return? || s.Throw?) && Inside(cx, k, l, aimed)
    ensures k < |cx.loops|
    ensures StmtCode(nm, Given(s, l, aimed), tag, Tagged(cx, k, l)) == StmtCode(nm, s, tag, cx)
  {
    hide ExprCode;
  }

  lemma JumpAims(nm: Numerics, s: Stmt, l: Name, aimed: bool, tag: Option<Name>, cx: Context, k: nat)
    requires (s.Break? || s.Continue?) && Avoids(s, l) && Inside(cx, k, l, aimed)
    ensures StmtCode(nm, Given(s, l, aimed), tag, Tagged(cx, k, l)) == StmtCode(nm, s, tag, cx)
  {
    hide BreakCode, ContinueCode;
    JumpCode(cx, k, l, aimed, s.target);
  }

  lemma {:induction false} BlockStmtAims(nm: Numerics, s: Stmt, l: Name, aimed: bool, tag: Option<Name>, cx: Context,
                                         k: nat)
    requires s.BlockStmt? && Avoids(s, l) && Inside(cx, k, l, aimed)
    ensures StmtCode(nm, Given(s, l, aimed), tag, Tagged(cx, k, l)) == StmtCode(nm, s, tag, cx)
    decreases s, 0
  {
    hide BlockCode, Inside;
    BlockAims(nm, s.block, l, aimed, cx, k);
  }

  lemma {:induction false} InnerLoopAims(nm: Numerics, s: Stmt, l: Name, aimed: bool, tag: Option<Name>, cx: Context,
                                         k: nat)
    requires (s.While? || s.DoWhile?) && Avoids(s, l) && Inside(cx, k, l, aimed) && tag != Some(l)
    ensures StmtCode(nm, Given(s, l, aimed), tag, Tagged(cx, k, l)) == StmtCode(nm, s, tag, cx)
    decreases s, 0
  {
    hide ExprCode, CloseLoop, Inside, InLoop;
    Unaimed(cx, k, l, aimed);
    OneDeeper(cx, k, l, false, tag, true);
    StmtAims(nm, s.body, l, false, None, InLoop(cx, tag, true), k);
  }

  lemma {:induction false} LabeledAims(nm: Numerics, s: Stmt, l: Name, aimed: bool, tag: Option<Name>, cx: Context,
                                       k: nat)
    requires s.Labeled? && Avoids(s, l) && Inside(cx, k, l, aimed)
    ensures StmtCode(nm, Given(s, l, aimed), tag, Tagged(cx, k, l)) == StmtCode(nm, s, tag, cx)
    decreases s, 0
  {
    hide ExprCode, CloseLoop, Inside;
    AimKeepsShape(s.body, l);
    if IsLoop(s.body) {
      StmtAims(nm, s.body, l, aimed, Some(s.tag), cx, k);
    } else {
      OneDeeper(cx, k, l, aimed, Some(s.tag), false);
      StmtAims(nm, s.body, l, aimed, None, InLoop(cx, Some(s.tag), false), k);
    }
  }

  lemma Unaimed(cx: Context, k: nat, l: Name, aimed: bool)
    requires Inside(cx, k, l, aimed)
    ensures Inside(cx, k, l, false)
  {
  }

  /** Slots and depth do not matter. */
  lemma InsideWith(cx: Context, k: nat, l: Name, aimed: bool, locals: seq<Local>, depth: nat)
    requires Inside(cx, k, l, aimed)
    ensures Inside(cx.(locals := locals, depth := depth), k, l, aimed)
    ensures Tagged(cx, k, l).(locals := locals, depth := depth)
         == Tagged(cx.(locals := locals, depth := depth), k, l)
  {
  }

  lemma {:induction false} IfAims(nm: Numerics, s: Stmt, l: Name, aimed: bool, tag: Option<Name>, cx: Context, k: nat)
    requires s.If? && Avoids(s, l) && Inside(cx, k, l, aimed)
    ensures StmtCode(nm, Given(s, l, aimed), tag, Tagged(cx, k, l)) == StmtCode(nm, s, tag, cx)
    decreases s, 0
  {
    hide ExprCode, Inside;
    StmtAims(nm, s.thenBranch, l, aimed, None, cx, k);
    var t := StmtCode(nm, s.thenBranch, None, cx);
    if t.Ok? && s.elseBranch.Some? {
      InsideWith(cx, k, l, aimed, t.value.locals, cx.depth);
      StmtAims(nm, s.elseBranch.value, l, aimed, None, cx.(locals := t.value.locals), k);
    }
  }

  lemma {:induction false} ForAims(nm: Numerics, s: Stmt, l: Name, aimed: bool, tag: Option<Name>, cx: Context, k: nat)
    requires s.For? && Avoids(s, l) && Inside(cx, k, l, aimed) && tag != Some(l)
    ensures StmtCode(nm, Given(s, l, aimed), tag, Tagged(cx, k, l)) == StmtCode(nm, s, tag, cx)
    decreases s, 0
  {
    hide ExprCode, Inside, ForCode, LeaveCode;
    var inner := Deeper(cx);
    InsideWith(cx, k, l, aimed, cx.locals, cx.depth + 1);
    if s.forInit.Some? {
      StmtAims(nm, s.forInit.value, l, aimed, None, inner, k);
    }
    var ig := if s.forInit.Some? then StmtCode(nm, s.forInit.value, None, inner) else Ok(Gen([], cx.locals));
    if ig.Ok? {
      var at := inner.(locals := ig.value.locals);
      InsideWith(cx, k, l, aimed, ig.value.locals, cx.depth + 1);
      Unaimed(at, k, l, aimed);
      OneDeeper(at, k, l, false, tag, true);
      StmtAims(nm, s.body, l, false, None, InLoop(at, tag, true), k);
      assert ForPieces(nm, Given(s, l, aimed), tag, Tagged(cx, k, l)) == ForPieces(nm, s, tag, cx);
    }
  }

  lemma {:induction false} AimReserves(ss: seq<Stmt>, l: Name, depth: nat)
    ensures Reserved(AimList(ss, l), depth) == Reserved(ss, depth)
  {
    if ss != [] {
      AimKeepsShape(ss[0], l);
      AimReserves(ss[1..], l, depth);
    }
  }

  lemma {:induction false} BlockAims(nm: Numerics, block: Block, l: Name, aimed: bool, cx: Context, k: nat)
    requires ListAvoids(block.stmts, l) && Inside(cx, k, l, aimed)
    ensures BlockCode(nm, GivenBlock(block, l, aimed), Tagged(cx, k, l)) == BlockCode(nm, block, cx)
    decreases block, 1
  {
    hide Inside, LeaveCode;
    AimReserves(block.stmts, l, cx.depth + 1);
    var locals := cx.locals + Reserved(block.stmts, cx.depth + 1);
    InsideWith(cx, k, l, aimed, locals, cx.depth + 1);
    ListAims(nm, block.stmts, l, aimed, Deeper(cx).(locals := locals), k);
  }

  lemma {:induction false} ListAims(nm: Numerics, ss: seq<Stmt>, l: Name, aimed: bool, cx: Context, k: nat)
    requires ListAvoids(ss, l) && Inside(cx, k, l, aimed)
    ensures ListCode(nm, GivenList(ss, l, aimed), Tagged(cx, k, l)) == ListCode(nm, ss, cx)
    decreases ss, 0
  {
    if ss != [] {
      hide Inside, StmtCode, ExprCode;
      var given := GivenList(ss, l, aimed);
      assert given[0] == Given(ss[0], l, aimed) && given[1..] == GivenList(ss[1..], l, aimed);
      AimKeepsShape(ss[0], l);
      StmtAims(nm, ss[0], l, aimed, None, cx, k);
      assert ItemCode(nm, given[0], Tagged(cx, k, l)) == ItemCode(nm, ss[0], cx);
      var h := ItemCode(nm, ss[0], cx);
      if h.Ok? {
        InsideWith(cx, k, l, aimed, h.value.locals, cx.depth);
        ListAims(nm, ss[1..], l, aimed, cx.(locals := h.value.locals), k);
      }
    }
  }

  lemma {:induction false} CasesAim(nm: Numerics, cases: seq<SwitchCase>, l: Name, aimed: bool, cx: Context, k: nat)
    requires CasesAvoid(cases, l) && Inside(cx, k, l, aimed)
    ensures CaseBodies(nm, GivenCases(cases, l, aimed), Tagged(cx, k, l)) == CaseBodies(nm, cases, cx)
    decreases cases, 0
  {
    if cases != [] {
      hide Inside, BlockCode;
      assert cases[0].body < cases[0];
      var given := GivenCases(cases, l, aimed);
      assert given[0] == SwitchCase(cases[0].value, GivenBlock(cases[0].body, l, aimed));
      assert given[1..] == GivenCases(cases[1..], l, aimed);
      BlockAims(nm, cases[0].body, l, aimed, cx, k);
      var h := BlockCode(nm, cases[0].body, cx);
      if h.Ok? {
        InsideWith(cx, k, l, aimed, h.value.locals, cx.depth);
        CasesAim(nm, cases[1..], l, aimed, cx.(locals := h.value.locals), k);
      }
    }
  }

  lemma {:induction false} TestsAim(nm: Numerics, cases: seq<SwitchCase>, l: Name, locals: seq<Local>)
    ensures CaseTests(nm, AimCases(cases, l), locals) == CaseTests(nm, cases, locals)
  {
    if cases != [] {
      TestsAim(nm, cases[1..], l, locals);
    }
  }

  lemma {:induction false} SwitchAims(nm: Numerics, s: Stmt, l: Name, aimed: bool, tag: Option<Name>, cx: Context,
                                      k: nat)
    requires s.Switch? && Avoids(s, l) && Inside(cx, k, l, aimed)
    ensures StmtCode(nm, Given(s, l, aimed), tag, Tagged(cx, k, l)) == StmtCode(nm, s, tag, cx)
    decreases s, 0
  {
    hide Inside, BlockCode, ExprCode, SwitchCode, LeaveCode;
    var inner := SwitchContext(cx);
    InsideWith(cx, k, l, aimed, inner.locals, inner.depth);
    TestsAim(nm, s.cases, l, inner.locals);
    CasesAim(nm, s.cases, l, aimed, inner, k);
    var bodies := CaseBodies(nm, s.cases, inner);
    if bodies.Ok? && s.defaultBlock.Some? {
      InsideWith(cx, k, l, aimed, bodies.value.locals, inner.depth);
      BlockAims(nm, s.defaultBlock.value, l, aimed, inner.(locals := bodies.value.locals), k);
    }
    assert SwitchPieces(nm, Given(s, l, aimed), Tagged(cx, k, l)) == SwitchPieces(nm, s, cx);
  }

  /** Labelling a loop and aiming the jumps of its body at the label leaves its code as it was: the label goes to the
      loop. For every kind of loop, any label it does not use itself and any place. */
  lemma LoopLabelInvisible(nm: Numerics, s: Stmt, l: Name, tag: Option<Name>, cx: Context)
    requires Repeats(s) && Avoids(s, l)
    ensures StmtCode(nm, Labeled(l, AimLoop(s, l)), tag, cx) == StmtCode(nm, s, None, cx)
  {
    hide ExprCode, CloseLoop, ForCode, LeaveCode;
    var k := |cx.loops|;
    if s.For? {
      ForLabelInvisible(nm, s, l, cx);
    } else {
      var inner := InLoop(cx, None, true);
      assert InLoop(cx, Some(l), true) == Tagged(inner, k, l);
      StmtAims(nm, s.body, l, true, None, inner, k);
    }
  }

  lemma ForLabelInvisible(nm: Numerics, s: Stmt, l: Name, cx: Context)
    requires s.For? && Avoids(s, l)
    ensures ForPieces(nm, AimLoop(s, l), Some(l), cx) == ForPieces(nm, s, None, cx)
  {
    hide ExprCode;
    var ig := if s.forInit.Some? then StmtCode(nm, s.forInit.value, None, Deeper(cx)) else Ok(Gen([], cx.locals));
    if ig.Ok? {
      var at := Deeper(cx).(locals := ig.value.locals);
      assert InLoop(at, Some(l), true) == Tagged(InLoop(at, None, true), |cx.loops|, l);
      StmtAims(nm, s.body, l, true, None, InLoop(at, None, true), |cx.loops|);
    }
  }

  // ---- Labels on other statements ----

  /** A `continue` to `l` stands in `s`, under no statement labelled `l`. */
  predicate ContinuesTo(s: Stmt, l: Name)
    decreases s
  {
    match s
    case BlockStmt(block) => ListContinuesTo(block.stmts, l)
    case If(_, t, f) => ContinuesTo(t, l) || (f.Some? && ContinuesTo(f.value, l))
    case While(_, body) => ContinuesTo(body, l)
    case DoWhile(body, _) => ContinuesTo(body, l)
    case For(init, _, _, body) => (init.Some? && ContinuesTo(init.value, l)) || ContinuesTo(body, l)
    case Switch(_, cases, d) => CasesContinueTo(cases, l) || (d.Some? && ListContinuesTo(d.value.stmts, l))
    case Labeled(m, body) => m != l && ContinuesTo(body, l)
    case Continue(t) => t == Some(l)
    case _ => false
  }

  predicate ListContinuesTo(ss: seq<Stmt>, l: Name)
    decreases ss
  {
    ss != [] && (ContinuesTo(ss[0], l) || ListContinuesTo(ss[1..], l))
  }

  predicate CasesContinueTo(cases: seq<SwitchCase>, l: Name)
    decreases cases
  {
    cases != [] &&
    (assert cases[0].body < cases[0]; ListContinuesTo(cases[0].body.stmts, l) || CasesContinueTo(cases[1..], l))
  }

  predicate NoLoopFor(cx: Context, l: Name) {
    forall j :: 0 <= j < |cx.loops| ==> cx.loops[j].tag != Some(l) || !cx.loops[j].isLoop
  }

  lemma {:induction false} ContinueRefused(nm: Numerics, s: Stmt, l: Name, tag: Option<Name>, cx: Context)
    requires ContinuesTo(s, l) && NoLoopFor(cx, l) && tag != Some(l)
    ensures StmtCode(nm, s, tag, cx).Err?
    decreases s, 1
  {
    hide ExprCode, CloseLoop, ForCode, SwitchCode, LeaveCode, IsLoop;
    match s
    case BlockStmt(block) => BlockRefused(nm, block, l, cx);
    case If(_, t, f) =>
      if ContinuesTo(t, l) {
        ContinueRefused(nm, t, l, None, cx);
      } else {
        var tg := StmtCode(nm, t, None, cx);
        if tg.Ok? {
          ContinueRefused(nm, f.value, l, None, cx.(locals := tg.value.locals));
        }
      }
    case While(_, body) => ContinueRefused(nm, body, l, None, InLoop(cx, tag, true));
    case DoWhile(body, _) => ContinueRefused(nm, body, l, None, InLoop(cx, tag, true));
    case For(_, _, _, _) => ForRefused(nm, s, l, tag, cx);
    case Switch(_, _, _) => SwitchRefused(nm, s, l, cx);
    case Labeled(m, body) =>
      if IsLoop(body) {
        ContinueRefused(nm, body, l, Some(m), cx);
      } else {
        ContinueRefused(nm, body, l, None, InLoop(cx, Some(m), false));
      }
    case Continue(_) =>
    case _ =>
  }

  lemma {:induction false} ForRefused(nm: Numerics, s: Stmt, l: Name, tag: Option<Name>, cx: Context)
    requires s.For? && ContinuesTo(s, l) && NoLoopFor(cx, l) && tag != Some(l)
    ensures ForPieces(nm, s, tag, cx).Err?
    decreases s, 0
  {
    hide ExprCode, StmtCode;
    if s.forInit.Some? && ContinuesTo(s.forInit.value, l) {
      ContinueRefused(nm, s.forInit.value, l, None, Deeper(cx));
    } else {
      var ig := if s.forInit.Some? then StmtCode(nm, s.forInit.value, None, Deeper(cx)) else Ok(Gen([], cx.locals));
      if ig.Ok? {
        ContinueRefused(nm, s.body, l, None, InLoop(Deeper(cx).(locals := ig.value.locals), tag, true));
      }
    }
  }

  lemma {:induction false} SwitchRefused(nm: Numerics, s: Stmt, l: Name, cx: Context)
    requires s.Switch? && ContinuesTo(s, l) && NoLoopFor(cx, l)
    ensures SwitchPieces(nm, s, cx).Err?
    decreases s, 0
  {
    hide ExprCode, BlockCode;
    var inner := SwitchContext(cx);
    if CasesContinueTo(s.cases, l) {
      CasesRefused(nm, s.cases, l, inner);
    } else {
      var bodies := CaseBodies(nm, s.cases, inner);
      if bodies.Ok? {
        BlockRefused(nm, s.defaultBlock.value, l, inner.(locals := bodies.value.locals));
      }
    }
  }

  lemma {:induction false} CasesRefused(nm: Numerics, cases: seq<SwitchCase>, l: Name, cx: Context)
    requires CasesContinueTo(cases, l) && NoLoopFor(cx, l)
    ensures CaseBodies(nm, cases, cx).Err?
    decreases cases, 0
  {
    hide BlockCode;
    assert cases[0].body < cases[0];
    if ListContinuesTo(cases[0].body.stmts, l) {
      BlockRefused(nm, cases[0].body, l, cx);
    } else {
      var h := BlockCode(nm, cases[0].body, cx);
      if h.Ok? {
        CasesRefused(nm, cases[1..], l, cx.(locals := h.value.locals));
      }
    }
  }

  lemma {:induction false} BlockRefused(nm: Numerics, block: Block, l: Name, cx: Context)
    requires ListContinuesTo(block.stmts, l) && NoLoopFor(cx, l)
    ensures BlockCode(nm, block, cx).Err?
    decreases block, 1
  {
    ListRefused(nm, block.stmts, l, Deeper(cx).(locals := cx.locals + Reserved(block.stmts, cx.depth + 1)));
  }

  lemma {:induction false} ListRefused(nm: Numerics, ss: seq<Stmt>, l: Name, cx: Context)
    requires ListContinuesTo(ss, l) && NoLoopFor(cx, l)
    ensures ListCode(nm, ss, cx).Err?
    decreases ss, 0
  {
    hide StmtCode, ExprCode;
    if ContinuesTo(ss[0], l) {
      ContinueRefused(nm, ss[0], l, None, cx);
    } else {
      var h := ItemCode(nm, ss[0], cx);
      if h.Ok? {
        ListRefused(nm, ss[1..], l, cx.(locals := h.value.locals));
      }
    }
  }

  /** A label on any other statement takes no `continue`: unless a loop further out has the label too, the script is
      refused. */
  lemma LabelTakesNoContinue(nm: Numerics, s: Stmt, l: Name, tag: Option<Name>, cx: Context)
    requires !Repeats(s) && ContinuesTo(s, l) && NoLoopFor(cx, l)
    ensures StmtCode(nm, Labeled(l, s), tag, cx).Err?
  {
    hide StmtCode;
    ContinueRefused(nm, s, l, None, InLoop(cx, Some(l), false));
    LabelOnStatement(nm, s, l, tag, cx);
  }

  /** It takes every `break` aimed at it, to its end, and is otherwise the statement. */
  lemma LabelOnStatement(nm: Numerics, s: Stmt, l: Name, tag: Option<Name>, cx: Context)
    requires !Repeats(s)
    ensures var b, r := StmtCode(nm, s, None, InLoop(cx, Some(l), false)), StmtCode(nm, Labeled(l, s), tag, cx);
            && (r.Err? <==> b.Err?) && (r.Err? ==> r.error == b.error)
            && (r.Ok? ==>
                  && r.value.locals == b.value.locals && |r.value.code| == |b.value.code|
                  && forall i :: 0 <= i < |b.value.code| ==>
                       r.value.code[i] ==
                         if b.value.code[i] == IJump(Always, BreakOf(|cx.loops|))
                         then IJump(Always, Rel(|b.value.code| - i))
                         else CloseInstr(b.value.code[i], i, |cx.loops|, |b.value.code|, 0))
  {
    LabelUnfold(nm, s, l, tag, cx);
    hide StmtCode, CloseInstr;
    var b := StmtCode(nm, s, None, InLoop(cx, Some(l), false));
    if b.Ok? {
      forall i | 0 <= i < |b.value.code|
        ensures b.value.code[i] == IJump(Always, BreakOf(|cx.loops|)) ==>
                  CloseInstr(b.value.code[i], i, |cx.loops|, |b.value.code|, 0)
                    == IJump(Always, Rel(|b.value.code| - i))
      {
        BreakCloses(i, |cx.loops|, |b.value.code|);
      }
    }
  }

  lemma BreakCloses(at: nat, idx: nat, end: nat)
    ensures CloseInstr(IJump(Always, BreakOf(idx)), at, idx, end, 0) == IJump(Always, Rel(end - at))
  {
  }

  lemma LabelUnfold(nm: Numerics, s: Stmt, l: Name, tag: Option<Name>, cx: Context)
    requires !Repeats(s)
    ensures var b := StmtCode(nm, s, None, InLoop(cx, Some(l), false));
            StmtCode(nm, Labeled(l, s), tag, cx)
            == if b.Err? then Err(b.error)
               else Ok(Gen(CloseLoop(b.value.code, |cx.loops|, |b.value.code|, 0), b.value.locals))
  {
    hide CloseLoop;
  }

  // ---- The meaning ----

  /** The outcome when the jumps of a body are aimed at `l`. */
  function AimOut(o: Outcome, l: Name): Outcome {
    match o
    case Broke(None, env) => Broke(Some(l), env)
    case Continued(None, env) => Continued(Some(l), env)
    case _ => o
  }

  predicate Elsewhere(o: Outcome, l: Name) {
    o.Broke? || o.Continued? ==> o.target != Some(l)
  }

  /** No jump to the nearest loop comes out of it. */
  predicate Caught(o: Outcome) {
    o.Broke? || o.Continued? ==> o.target.Some?
  }

  lemma {:induction false} LoopCatches(nm: Numerics, bk: Backend, s: Stmt, tag: Option<Name>, env: Env, fuel: nat)
    requires s.While? || s.DoWhile?
    ensures Caught(Exec(nm, bk, s, tag, env, fuel))
    decreases fuel
  {
    hide Eval;
    if fuel > 0 {
      if s.While? {
        var r := Eval(nm, bk, s.condition, env);
        if r.Val? && IsTruthy(nm, r.value) {
          var again := AfterBody(Exec(nm, bk, s.body, None, r.env, fuel), tag);
          if again.Again? {
            LoopCatches(nm, bk, s, tag, again.env, fuel - 1);
          }
        }
      } else {
        var again := AfterBody(Exec(nm, bk, s.body, None, env, fuel), tag);
        if again.Again? {
          var r := Eval(nm, bk, s.condition, again.env);
          if r.Val? && IsTruthy(nm, r.value) {
            LoopCatches(nm, bk, s, tag, r.env, fuel - 1);
          }
        }
      }
    }
  }

  lemma {:induction false} ForCatches(nm: Numerics, bk: Backend, c: Option<Expr>, u: Option<Expr>, body: Stmt,
                                      tag: Option<Name>, env: Env, fuel: nat)
    ensures Caught(ExecFor(nm, bk, c, u, body, tag, env, fuel))
    decreases fuel
  {
    hide Eval, Exec;
    if fuel > 0 {
      var r := if c.Some? then Eval(nm, bk, c.value, env) else Val(Bool(true), env);
      if r.Val? && IsTruthy(nm, r.value) {
        var again := AfterBody(Exec(nm, bk, body, None, r.env, fuel), tag);
        if again.Again? {
          var r2 := if u.Some? then Eval(nm, bk, u.value, again.env) else Val(Undefined, again.env);
          if r2.Val? {
            ForCatches(nm, bk, c, u, body, tag, r2.env, fuel - 1);
          }
        }
      }
    }
  }

  /** A statement that does not mention `l` never jumps there. */
  lemma {:induction false} NeverJumpsTo(nm: Numerics, bk: Backend, s: Stmt, l: Name, tag: Option<Name>, env: Env,
                                        fuel: nat)
    requires Avoids(s, l)
    ensures Elsewhere(Exec(nm, bk, s, tag, env, fuel), l)
    decreases fuel, s, 1
  {
    hide Eval, DeclareVar, ExecBlock, ExecFor, Select, AfterBody, StopsAt;
    match s
    case BlockStmt(block) => BlockNeverJumps(nm, bk, block, l, env, fuel);
    case If(c, t, f) =>
      var r := Eval(nm, bk, c, env);
      if r.Val? && IsTruthy(nm, r.value) {
        NeverJumpsTo(nm, bk, t, l, None, r.env, fuel);
      } else if r.Val? && f.Some? {
        NeverJumpsTo(nm, bk, f.value, l, None, r.env, fuel);
      }
    case While(_, _) => LoopNeverJumps(nm, bk, s, l, tag, env, fuel);
    case DoWhile(_, _) => LoopNeverJumps(nm, bk, s, l, tag, env, fuel);
    case For(init, c, u, body) =>
      if init.Some? {
        NeverJumpsTo(nm, bk, init.value, l, None, EnterScope(env), fuel);
      }
      var o := if init.Some? then Exec(nm, bk, init.value, None, EnterScope(env), fuel) else Normal(EnterScope(env));
      if o.Normal? {
        ForNeverJumps(nm, bk, c, u, body, l, tag, o.env, fuel);
      }
    case Switch(_, _, _) => SwitchNeverJumps(nm, bk, s, l, env, fuel);
    case Labeled(m, body) => NeverJumpsTo(nm, bk, body, l, if IsLoop(body) then Some(m) else None, env, fuel);
    case _ =>
  }

  lemma BodyEndElsewhere(o: Outcome, l: Name, tag: Option<Name>)
    requires Elsewhere(o, l)
    ensures var end := AfterBody(o, tag); end.Stop? ==> Elsewhere(end.outcome, l)
  {
  }

  lemma {:induction false} LoopNeverJumps(nm: Numerics, bk: Backend, s: Stmt, l: Name, tag: Option<Name>, env: Env,
                                          fuel: nat)
    requires Avoids(s, l) && (s.While? || s.DoWhile?)
    ensures Elsewhere(Exec(nm, bk, s, tag, env, fuel), l)
    decreases fuel, s, 0
  {
    hide Eval, AfterBody;
    if fuel > 0 {
      if s.While? {
        var r := Eval(nm, bk, s.condition, env);
        if r.Val? && IsTruthy(nm, r.value) {
          var o := Exec(nm, bk, s.body, None, r.env, fuel);
          NeverJumpsTo(nm, bk, s.body, l, None, r.env, fuel);
          BodyEndElsewhere(o, l, tag);
          if AfterBody(o, tag).Again? {
            NeverJumpsTo(nm, bk, s, l, tag, AfterBody(o, tag).env, fuel - 1);
          }
        }
      } else {
        var o := Exec(nm, bk, s.body, None, env, fuel);
        NeverJumpsTo(nm, bk, s.body, l, None, env, fuel);
        BodyEndElsewhere(o, l, tag);
        if AfterBody(o, tag).Again? {
          var r := Eval(nm, bk, s.condition, AfterBody(o, tag).env);
          if r.Val? && IsTruthy(nm, r.value) {
            NeverJumpsTo(nm, bk, s, l, tag, r.env, fuel - 1);
          }
        }
      }
    }
  }

  lemma {:induction false} ForNeverJumps(nm: Numerics, bk: Backend, c: Option<Expr>, u: Option<Expr>, body: Stmt,
                                         l: Name, tag: Option<Name>, env: Env, fuel: nat)
    requires Avoids(body, l)
    ensures Elsewhere(ExecFor(nm, bk, c, u, body, tag, env, fuel), l)
    decreases fuel, body, 2
  {
    hide Eval, Exec, AfterBody;
    if fuel > 0 {
      var r := if c.Some? then Eval(nm, bk, c.value, env) else Val(Bool(true), env);
      if r.Val? && IsTruthy(nm, r.value) {
        var o := Exec(nm, bk, body, None, r.env, fuel);
        NeverJumpsTo(nm, bk, body, l, None, r.env, fuel);
        BodyEndElsewhere(o, l, tag);
        var again := AfterBody(o, tag);
        if again.Again? {
          var r2 := if u.Some? then Eval(nm, bk, u.value, again.env) else Val(Undefined, again.env);
          if r2.Val? {
            ForNeverJumps(nm, bk, c, u, body, l, tag, r2.env, fuel - 1);
          }
        }
      }
    }
  }

  lemma {:induction false} CaseAvoids(cases: seq<SwitchCase>, l: Name, i: nat)
    requires CasesAvoid(cases, l) && i < |cases|
    ensures ListAvoids(cases[i].body.stmts, l)
    decreases i
  {
    if i > 0 {
      CaseAvoids(cases[1..], l, i - 1);
    }
  }

  lemma {:induction false} SwitchNeverJumps(nm: Numerics, bk: Backend, s: Stmt, l: Name, env: Env, fuel: nat)
    requires s.Switch? && Avoids(s, l)
    ensures Elsewhere(Exec(nm, bk, s, None, env, fuel), l)
    decreases fuel, s, 0
  {
    hide Eval, Select, ExecBlock;
    var r := Eval(nm, bk, s.scrutinee, env);
    if r.Val? {
      var choice := Select(nm, bk, r.value, s.cases, 0, EnterScope(r.env));
      if choice.Chosen? {
        CaseAvoids(s.cases, l, choice.index);
        BlockNeverJumps(nm, bk, s.cases[choice.index].body, l, choice.env, fuel);
      } else if choice.NoMatch? && s.defaultBlock.Some? {
        BlockNeverJumps(nm, bk, s.defaultBlock.value, l, choice.env, fuel);
      }
    }
  }

  lemma {:induction false} BlockNeverJumps(nm: Numerics, bk: Backend, block: Block, l: Name, env: Env, fuel: nat)
    requires ListAvoids(block.stmts, l)
    ensures Elsewhere(ExecBlock(nm, bk, block, env, fuel), l)
    decreases fuel, block, 1
  {
    hide ExecList;
    ListNeverJumps(nm, bk, block.stmts, l, EnterBlock(env, block.stmts), fuel);
  }

  lemma {:induction false} ListNeverJumps(nm: Numerics, bk: Backend, ss: seq<Stmt>, l: Name, env: Env, fuel: nat)
    requires ListAvoids(ss, l)
    ensures Elsewhere(ExecList(nm, bk, ss, env, fuel), l)
    decreases fuel, ss, 0
  {
    if ss != [] {
      NeverJumpsTo(nm, bk, ss[0], l, None, env, fuel);
      var o := Exec(nm, bk, ss[0], None, env, fuel);
      if o.Normal? {
        ListNeverJumps(nm, bk, ss[1..], l, o.env, fuel);
      }
    }
  }

  // ---- Aimed jumps mean what they meant ----

  lemma {:induction false} ExecAims(nm: Numerics, bk: Backend, s: Stmt, l: Name, tag: Option<Name>, env: Env, fuel: nat)
    requires Avoids(s, l)
    ensures Exec(nm, bk, Aim(s, l), tag, env, fuel) == AimOut(Exec(nm, bk, s, tag, env, fuel), l)
    decreases s, 1
  {
    hide Eval, DeclareVar, ExecBlock, ExecFor, Select, AfterBody, IsLoop, IsTruthy, ContinueOut;
    match s
    case BlockStmt(block) => BlockExecAims(nm, bk, block, l, env, fuel);
    case If(_, _, _) => IfExecAims(nm, bk, s, l, env, fuel);
    case While(_, _) => LoopCatches(nm, bk, s, tag, env, fuel);
    case DoWhile(_, _) => LoopCatches(nm, bk, s, tag, env, fuel);
    case For(_, _, _, _) => ForExecAims(nm, bk, s, l, tag, env, fuel);
    case Switch(_, _, _) => SwitchExecAims(nm, bk, s, l, env, fuel);
    case Labeled(_, _) => LabeledExecAims(nm, bk, s, l, env, fuel);
    case _ =>
  }

  lemma {:induction false} IfExecAims(nm: Numerics, bk: Backend, s: Stmt, l: Name, env: Env, fuel: nat)
    requires s.If? && Avoids(s, l)
    ensures Exec(nm, bk, Aim(s, l), None, env, fuel) == AimOut(Exec(nm, bk, s, None, env, fuel), l)
    decreases s, 0
  {
    hide Eval, IsTruthy;
    var r := Eval(nm, bk, s.condition, env);
    if r.Val? {
      ExecAims(nm, bk, s.thenBranch, l, None, r.env, fuel);
      if s.elseBranch.Some? {
        ExecAims(nm, bk, s.elseBranch.value, l, None, r.env, fuel);
      }
    }
  }

  lemma {:induction false} ForExecAims(nm: Numerics, bk: Backend, s: Stmt, l: Name, tag: Option<Name>, env: Env,
                                       fuel: nat)
    requires s.For? && Avoids(s, l)
    ensures Exec(nm, bk, Aim(s, l), tag, env, fuel) == AimOut(Exec(nm, bk, s, tag, env, fuel), l)
    decreases s, 0
  {
    hide Eval, ExecFor;
    if s.forInit.Some? {
      ExecAims(nm, bk, s.forInit.value, l, None, EnterScope(env), fuel);
    }
    var o := if s.forInit.Some? then Exec(nm, bk, s.forInit.value, None, EnterScope(env), fuel)
             else Normal(EnterScope(env));
    if o.Normal? {
      ForCatches(nm, bk, s.forCondition, s.update, s.body, tag, o.env, fuel);
    }
  }

  lemma {:induction false} LabeledExecAims(nm: Numerics, bk: Backend, s: Stmt, l: Name, env: Env, fuel: nat)
    requires s.Labeled? && Avoids(s, l)
    ensures Exec(nm, bk, Aim(s, l), None, env, fuel) == AimOut(Exec(nm, bk, s, None, env, fuel), l)
    decreases s, 0
  {
    AimKeepsShape(s.body, l);
    ExecAims(nm, bk, s.body, l, if IsLoop(s.body) then Some(s.tag) else None, env, fuel);
  }

  lemma {:induction false} AimDeclares(ss: seq<Stmt>, l: Name)
    ensures DeclaredNames(AimList(ss, l)) == DeclaredNames(ss)
  {
    if ss != [] {
      AimKeepsShape(ss[0], l);
      AimDeclares(ss[1..], l);
      DeclaredFirst(ss);
      DeclaredFirst(AimList(ss, l));
    }
  }

  lemma DeclaredFirst(ss: seq<Stmt>)
    requires ss != []
    ensures DeclaredNames(ss) == (if ss[0].VarDecl? then {ss[0].name} else {}) + DeclaredNames(ss[1..])
  {
    assert ss == [ss[0]] + ss[1..];
  }

  lemma {:induction false} BlockExecAims(nm: Numerics, bk: Backend, block: Block, l: Name, env: Env, fuel: nat)
    requires ListAvoids(block.stmts, l)
    ensures ExecBlock(nm, bk, AimBlock(block, l), env, fuel) == AimOut(ExecBlock(nm, bk, block, env, fuel), l)
    decreases block, 1
  {
    hide ExecList;
    AimDeclares(block.stmts, l);
    ListExecAims(nm, bk, block.stmts, l, EnterBlock(env, block.stmts), fuel);
  }

  lemma {:induction false} ListExecAims(nm: Numerics, bk: Backend, ss: seq<Stmt>, l: Name, env: Env, fuel: nat)
    requires ListAvoids(ss, l)
    ensures ExecList(nm, bk, AimList(ss, l), env, fuel) == AimOut(ExecList(nm, bk, ss, env, fuel), l)
    decreases ss, 0
  {
    if ss != [] {
      hide Exec;
      ExecAims(nm, bk, ss[0], l, None, env, fuel);
      assert AimList(ss, l)[1..] == AimList(ss[1..], l);
      var o := Exec(nm, bk, ss[0], None, env, fuel);
      if o.Normal? {
        ListExecAims(nm, bk, ss[1..], l, o.env, fuel);
      }
    }
  }

  lemma {:induction false} AimedCase(cases: seq<SwitchCase>, l: Name, i: nat)
    requires i < |cases|
    ensures AimCases(cases, l)[i] == SwitchCase(cases[i].value, AimBlock(cases[i].body, l))
    decreases i
  {
    if i > 0 {
      AimedCase(cases[1..], l, i - 1);
    }
  }

  lemma {:induction false} SelectAims(nm: Numerics, bk: Backend, v: Value, cases: seq<SwitchCase>, l: Name, i: nat,
                                      env: Env)
    requires i <= |cases|
    ensures Select(nm, bk, v, AimCases(cases, l), i, env) == Select(nm, bk, v, cases, i, env)
    decreases |cases| - i
  {
    hide Eval, StrictEq;
    if i < |cases| {
      AimedCase(cases, l, i);
      var r := Eval(nm, bk, cases[i].value, env);
      if r.Val? {
        SelectAims(nm, bk, v, cases, l, i + 1, r.env);
      }
    }
  }

  function ChosenBlock(nm: Numerics, bk: Backend, cases: seq<SwitchCase>, d: Option<Block>, choice: Selection,
                       fuel: nat): Outcome
    requires choice.Chosen? ==> choice.index < |cases|
  {
    match choice
    case Raised(err, g) => Failed(err, g)
    case Chosen(i, env) => ExecBlock(nm, bk, cases[i].body, env, fuel)
    case NoMatch(env) => if d.None? then Normal(env) else ExecBlock(nm, bk, d.value, env, fuel)
  }

  lemma SwitchUnfold(nm: Numerics, bk: Backend, s: Stmt, tag: Option<Name>, env: Env, fuel: nat)
    requires s.Switch?
    ensures var r := Eval(nm, bk, s.scrutinee, env);
            Exec(nm, bk, s, tag, env, fuel)
            == if r.Fail? then Failed(r.error, r.globals)
               else LeaveScope(ChosenBlock(nm, bk, s.cases, s.defaultBlock,
                                           Select(nm, bk, r.value, s.cases, 0, EnterScope(r.env)), fuel))
  {
    hide Eval, Select, ExecBlock, LeaveScope;
  }

  lemma AimLeaves(l: Name)
    ensures forall o :: LeaveScope(AimOut(o, l)) == AimOut(LeaveScope(o), l)
    ensures forall e, g :: AimOut(Failed(e, g), l) == Failed(e, g)
    ensures forall e :: AimOut(Normal(e), l) == Normal(e)
  {
  }

  lemma {:induction false} SwitchExecAims(nm: Numerics, bk: Backend, s: Stmt, l: Name, env: Env, fuel: nat)
    requires s.Switch? && Avoids(s, l)
    ensures Exec(nm, bk, Aim(s, l), None, env, fuel) == AimOut(Exec(nm, bk, s, None, env, fuel), l)
    decreases s, 0
  {
    hide Eval, Select, ExecBlock, AimOut, ListAvoids, CasesAvoid, AimBlock, AimCases;
    SwitchUnfold(nm, bk, s, None, env, fuel);
    SwitchUnfold(nm, bk, Aim(s, l), None, env, fuel);
    AimLeaves(l);
    var r := Eval(nm, bk, s.scrutinee, env);
    if r.Val? {
      SelectAims(nm, bk, r.value, s.cases, l, 0, EnterScope(r.env));
      var choice := Select(nm, bk, r.value, s.cases, 0, EnterScope(r.env));
      if choice.Chosen? {
        var i := choice.index;
        AimedCase(s.cases, l, i);
        CaseAvoids(s.cases, l, i);
        assert s.cases[i].body < s.cases[i];
        BlockExecAims(nm, bk, s.cases[i].body, l, choice.env, fuel);
      } else if choice.NoMatch? && s.defaultBlock.Some? {
        BlockExecAims(nm, bk, s.defaultBlock.value, l, choice.env, fuel);
      }
    }
  }

  // ---- Labelled loops mean the loops ----

  lemma AimedEnd(o: Outcome, l: Name)
    requires Elsewhere(o, l)
    ensures AfterBody(AimOut(o, l), Some(l)) == AfterBody(o, None)
  {
  }

  lemma {:induction false} WhileMeansSame(nm: Numerics, bk: Backend, s: Stmt, l: Name, env: Env, fuel: nat)
    requires s.While? && Avoids(s, l)
    ensures Exec(nm, bk, AimLoop(s, l), Some(l), env, fuel) == Exec(nm, bk, s, None, env, fuel)
    decreases fuel
  {
    hide Eval, AfterBody, AimOut;
    if fuel > 0 {
      var r := Eval(nm, bk, s.condition, env);
      if r.Val? && IsTruthy(nm, r.value) {
        var o := Exec(nm, bk, s.body, None, r.env, fuel);
        ExecAims(nm, bk, s.body, l, None, r.env, fuel);
        NeverJumpsTo(nm, bk, s.body, l, None, r.env, fuel);
        AimedEnd(o, l);
        var again := AfterBody(o, None);
        if again.Again? {
          WhileMeansSame(nm, bk, s, l, again.env, fuel - 1);
        }
      }
    }
  }

  lemma {:induction false} DoWhileMeansSame(nm: Numerics, bk: Backend, s: Stmt, l: Name, env: Env, fuel: nat)
    requires s.DoWhile? && Avoids(s, l)
    ensures Exec(nm, bk, AimLoop(s, l), Some(l), env, fuel) == Exec(nm, bk, s, None, env, fuel)
    decreases fuel
  {
    hide Eval, AfterBody, AimOut;
    if fuel > 0 {
      var o := Exec(nm, bk, s.body, None, env, fuel);
      ExecAims(nm, bk, s.body, l, None, env, fuel);
      NeverJumpsTo(nm, bk, s.body, l, None, env, fuel);
      AimedEnd(o, l);
      var again := AfterBody(o, None);
      if again.Again? {
        var r := Eval(nm, bk, s.condition, again.env);
        if r.Val? && IsTruthy(nm, r.value) {
          DoWhileMeansSame(nm, bk, s, l, r.env, fuel - 1);
        }
      }
    }
  }

  lemma {:induction false} ForMeansSame(nm: Numerics, bk: Backend, c: Option<Expr>, u: Option<Expr>, body: Stmt,
                                        l: Name, env: Env, fuel: nat)
    requires Avoids(body, l)
    ensures ExecFor(nm, bk, c, u, Aim(body, l), Some(l), env, fuel) == ExecFor(nm, bk, c, u, body, None, env, fuel)
    decreases fuel
  {
    hide Eval, Exec, AfterBody, AimOut, Aim, Avoids, IsTruthy;
    if fuel > 0 {
      var r := if c.Some? then Eval(nm, bk, c.value, env) else Val(Bool(true), env);
      if r.Val? && IsTruthy(nm, r.value) {
        var o := Exec(nm, bk, body, None, r.env, fuel);
        ExecAims(nm, bk, body, l, None, r.env, fuel);
        NeverJumpsTo(nm, bk, body, l, None, r.env, fuel);
        AimedEnd(o, l);
        var again := AfterBody(o, None);
        if again.Again? {
          var r2 := if u.Some? then Eval(nm, bk, u.value, again.env) else Val(Undefined, again.env);
          if r2.Val? {
            ForMeansSame(nm, bk, c, u, body, l, r2.env, fuel - 1);
          }
        }
      }
    }
  }

  /** Labelling a loop and aiming the jumps of its body at the label leaves its meaning as it was, on the interpreter,
      for compiled code and for both. */
  lemma LoopLabelMeansNothing(nm: Numerics, bk: Backend, s: Stmt, l: Name, tag: Option<Name>, env: Env, fuel: nat)
    requires Repeats(s) && Avoids(s, l)
    ensures Exec(nm, bk, Labeled(l, AimLoop(s, l)), tag, env, fuel) == Exec(nm, bk, s, None, env, fuel)
  {
    hide Eval, ExecFor;
    if s.While? {
      WhileMeansSame(nm, bk, s, l, env, fuel);
    } else if s.DoWhile? {
      DoWhileMeansSame(nm, bk, s, l, env, fuel);
    } else {
      var env0 := EnterScope(env);
      var o := if s.forInit.Some? then Exec(nm, bk, s.forInit.value, None, env0, fuel) else Normal(env0);
      if o.Normal? {
        ForMeansSame(nm, bk, s.forCondition, s.update, s.body, l, o.env, fuel);
      }
    }
  }

  /** On any other statement the label takes the breaks aimed at it and no other jump; a `continue` that the interpreter
      takes for a break is refused when compiled. */
  lemma LabelTakesBreaks(nm: Numerics, bk: Backend, s: Stmt, l: Name, tag: Option<Name>, env: Env, fuel: nat)
    requires !Repeats(s)
    ensures var o, r := Exec(nm, bk, s, None, env, fuel), Exec(nm, bk, Labeled(l, s), tag, env, fuel);
            && (o.Broke? && o.target == Some(l) ==> r == Normal(o.env))
            && (o.Continued? && o.target == Some(l) && bk.Compiled? ==> r == o)
            && (o.Continued? && o.target == Some(l) && bk.Walking? ==> r == Normal(o.env))
            && (!(o.Broke? || o.Continued?) || o.target != Some(l) ==> r == o)
  {
    hide Eval;
  }
}
