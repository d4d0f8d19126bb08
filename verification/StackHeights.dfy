/** Stack discipline, decided without running anything: every instruction of compiled code has one operand-stack height,
    the same along every path that reaches it, by falling through, by a jump forward or back, by `break` or
    `continue`. */
module StackHeights {
  import opened Syntax
  import opened Values
  import opened Semantics
  import opened Bytecode
  import opened Folding
  import opened Codegen
  import opened ExprParts
  import opened Slots
  import opened StmtShape
  import opened StmtProof
  import opened Constructs
  import opened ScriptProof

  /** The height an instruction leaves, on every way out of it. */
  function After(i: Instr, h: int): int {
    match i
    case IPush(_) => h + 1
    case IPop => h - 1
    case IDup => h + 1
    case IUnary(_) => h
    case IBinary(_) => h - 1
    case IDefine(_, _) => h - 1
    case IGetGlobal(_) => h + 1
    case ISetGlobal(_) => h
    case IGetLocal(_) => h + 1
    case ISetLocal(_) => h
    case IJump(kind, _) => if kind.IfFalse? then h - 1 else h
    case IThrow => h - 1
    case IReturn => h - 1
  }

  /** The operands are there, and a slot that is read or written lies below them. */
  predicate Enough(i: Instr, h: int) {
    match i
    case IPush(_) => h >= 0
    case IBinary(_) => h >= 2
    case IGetGlobal(_) => h >= 0
    case IGetLocal(slot) => slot < h
    case ISetLocal(slot) => slot + 1 < h
    case IJump(kind, _) => h >= (if kind.Always? then 0 else 1)
    case _ => h >= 1
  }

  predicate FallsThrough(i: Instr) {
    !i.IThrow? && !i.IReturn? && !(i.IJump? && i.kind.Always?)
  }

  /** The height before position `k`, which may be the end. */
  function HeightAt(hs: seq<int>, exit: int, k: int): int
    requires 0 <= k <= |hs|
  {
    if k < |hs| then hs[k] else exit
  }

  /** A jump from `k` arrives at a position of `c`, or at an enclosing loop, whose height is the one it leaves. */
  ghost predicate Lands(t: Target, k: nat, h: int, hs: seq<int>, exit: int, loops: seq<nat>) {
    match t
    case Rel(d) => 0 <= k + d <= |hs| && HeightAt(hs, exit, k + d) == h
    case BreakOf(i) => i < |loops| && loops[i] == h
    case ContinueOf(i) => i < |loops| && loops[i] == h
  }

  ghost predicate LevelAt(c: seq<Instr>, hs: seq<int>, exit: int, loops: seq<nat>, k: nat)
    requires k < |c| == |hs|
  {
    && Enough(c[k], hs[k])
    && (FallsThrough(c[k]) ==> HeightAt(hs, exit, k + 1) == After(c[k], hs[k]))
    && (c[k].IJump? ==> Lands(c[k].target, k, After(c[k], hs[k]), hs, exit, loops))
  }

  /** `hs` gives `c` one height an instruction; `exit` is the height behind it, and `loops` those the enclosing loops
      are left with. */
  ghost predicate Level(c: seq<Instr>, hs: seq<int>, exit: int, loops: seq<nat>) {
    |hs| == |c| && forall k :: 0 <= k < |c| ==> LevelAt(c, hs, exit, loops, k)
  }

  // ---- Putting levelled code together ----

  lemma Part(pre: seq<Instr>, part: seq<Instr>, post: seq<Instr>, hpre: seq<int>, hpart: seq<int>, hpost: seq<int>,
             mid: int, exit: int, loops: seq<nat>)
    requires Level(part, hpart, mid, loops) && |hpre| == |pre| && |hpost| == |post| && HeightAt(hpost, exit, 0) == mid
    ensures var c, hs := pre + part + post, hpre + hpart + hpost;
            forall k :: |pre| <= k < |pre| + |part| ==> LevelAt(c, hs, exit, loops, k)
  {
    var c, hs := pre + part + post, hpre + hpart + hpost;
    forall k | |pre| <= k < |pre| + |part|
      ensures LevelAt(c, hs, exit, loops, k)
    {
      assert LevelAt(part, hpart, mid, loops, k - |pre|);
      assert c[k] == part[k - |pre|];
      forall j | 0 <= j <= |part|
        ensures HeightAt(hs, exit, |pre| + j) == HeightAt(hpart, mid, j)
      {
      }
    }
  }

  lemma Join(a: seq<Instr>, ha: seq<int>, mid: int, b: seq<Instr>, hb: seq<int>, exit: int, loops: seq<nat>)
    requires Level(a, ha, mid, loops) && Level(b, hb, exit, loops) && HeightAt(hb, exit, 0) == mid
    ensures Level(a + b, ha + hb, exit, loops)
  {
    Part([], a, b, [], ha, hb, mid, exit, loops);
    Part(a, b, [], ha, hb, [], exit, exit, loops);
    assert [] + a + b == a + b && [] + ha + hb == ha + hb;
    assert a + b + [] == a + b && ha + hb + [] == ha + hb;
  }

  lemma One(i: Instr, h: int, loops: seq<nat>)
    requires !i.IJump? && Enough(i, h)
    ensures Level([i], [h], After(i, h), loops)
  {
  }

  /** An instruction after which nothing falls through: any height may follow. */
  lemma Last(i: Instr, h: int, exit: int, loops: seq<nat>)
    requires !i.IJump? && !FallsThrough(i) && Enough(i, h)
    ensures Level([i], [h], exit, loops)
  {
  }

  lemma Nothing(h: int, loops: seq<nat>)
    ensures Level([], [], h, loops)
  {
  }

  lemma Then(a: seq<Instr>, ha: seq<int>, mid: int, i: Instr, loops: seq<nat>)
    requires Level(a, ha, mid, loops) && !i.IJump? && Enough(i, mid)
    ensures Level(a + [i], ha + [mid], After(i, mid), loops)
  {
    One(i, mid, loops);
    Join(a, ha, mid, [i], [mid], After(i, mid), loops);
  }

  /** A jump forward, to the start, the end or the middle of what follows it. */
  lemma Forward(l: seq<Instr>, hl: seq<int>, top: int, kind: JumpKind, d: int, m: seq<Instr>, hm: seq<int>, exit: int,
                loops: seq<nat>)
    requires Level(l, hl, top, loops) && Level(m, hm, exit, loops)
    requires 1 <= d <= 1 + |m| && HeightAt(hm, exit, d - 1) == After(J(kind, d), top) && Enough(J(kind, d), top)
    requires kind.Always? || HeightAt(hm, exit, 0) == After(J(kind, d), top)
    ensures Level(l + [J(kind, d)] + m, hl + [top] + hm, exit, loops)
  {
    var j := J(kind, d);
    var c, hs := l + [j] + m, hl + [top] + hm;
    Part([], l, [j] + m, [], hl, [top] + hm, top, exit, loops);
    assert [] + l + ([j] + m) == c && [] + hl + ([top] + hm) == hs;
    Part(l + [j], m, [], hl + [top], hm, [], exit, exit, loops);
    assert c + [] == c && hs + [] == hs;
    assert HeightAt(hs, exit, |l| + d) == HeightAt(hm, exit, d - 1);
    assert LevelAt(c, hs, exit, loops, |l|);
  }

  /** An unconditional jump into what follows it. */
  lemma Lead(d: int, m: seq<Instr>, hm: seq<int>, exit: int, loops: seq<nat>)
    requires exit >= 0 && Level(m, hm, exit, loops) && 1 <= d <= 1 + |m| && HeightAt(hm, exit, d - 1) == exit
    ensures Level([J(Always, d)] + m, [exit] + hm, exit, loops)
  {
    Nothing(exit, loops);
    Forward([], [], exit, Always, d, m, hm, exit, loops);
    assert [] + [J(Always, d)] + m == [J(Always, d)] + m && [] + [exit] + hm == [exit] + hm;
  }

  /** A jump over `m`. */
  lemma Skip(l: seq<Instr>, hl: seq<int>, top: int, kind: JumpKind, m: seq<Instr>, hm: seq<int>, exit: int,
             loops: seq<nat>)
    requires Level(l, hl, top, loops) && Level(m, hm, exit, loops) && !kind.Always? && top >= 1
    requires After(J(kind, 1 + |m|), top) == HeightAt(hm, exit, 0) == exit
    ensures Level(l + [J(kind, 1 + |m|)] + m, hl + [top] + hm, exit, loops)
  {
    Forward(l, hl, top, kind, 1 + |m|, m, hm, exit, loops);
  }

  /** A test with two ways on that meet again. */
  lemma Fork(l: seq<Instr>, hl: seq<int>, top: int, kind: JumpKind, t: seq<Instr>, ht: seq<int>, f: seq<Instr>,
             hf: seq<int>, exit: int, loops: seq<nat>)
    requires Level(l, hl, top, loops) && Level(t, ht, exit, loops) && Level(f, hf, exit, loops) && !kind.Always?
    requires After(J(kind, 2 + |t|), top) == HeightAt(ht, exit, 0) == HeightAt(hf, exit, 0)
    requires top >= 1 && exit >= 0
    ensures Level(l + [J(kind, 2 + |t|)] + t + [J(Always, 1 + |f|)] + f, hl + [top] + ht + [exit] + hf, exit, loops)
  {
    var j, g := J(kind, 2 + |t|), J(Always, 1 + |f|);
    var m, hm := t + [g] + f, ht + [exit] + hf;
    Forward(t, ht, exit, Always, 1 + |f|, f, hf, exit, loops);
    assert HeightAt(hm, exit, 1 + |t|) == HeightAt(hf, exit, 0) && HeightAt(hm, exit, 0) == HeightAt(ht, exit, 0);
    Forward(l, hl, top, kind, 2 + |t|, m, hm, exit, loops);
    assert l + [j] + m == l + [j] + t + [g] + f && hl + [top] + hm == hl + [top] + ht + [exit] + hf;
  }

  // ---- Expressions ----

  lemma GetLevel(locals: seq<Local>, x: Name, h: int, loops: seq<nat>)
    requires GetCode(locals, x).Ok? && |locals| <= h
    ensures Level(GetCode(locals, x).value, [h], h + 1, loops)
  {
    One(GetCode(locals, x).value[0], h, loops);
  }

  lemma SetLevel(locals: seq<Local>, x: Name, h: int, loops: seq<nat>)
    requires SetCode(locals, x).Ok? && |locals| < h
    ensures Level(SetCode(locals, x).value, [h], h, loops)
  {
    One(SetCode(locals, x).value[0], h, loops);
  }

  /** Levelled code from height `h` to height `exit`. */
  ghost predicate Between(c: seq<Instr>, hs: seq<int>, h: int, exit: int, loops: seq<nat>) {
    Level(c, hs, exit, loops) && HeightAt(hs, exit, 0) == h
  }

  /** An expression nets one value, whatever lies below. */
  lemma {:induction false} ExprLevel(nm: Numerics, e: Expr, locals: seq<Local>, h: int, loops: seq<nat>)
      returns (hs: seq<int>)
    requires ExprCode(nm, e, locals).Ok? && |locals| <= h
    ensures Between(ExprCode(nm, e, locals).value, hs, h, h + 1, loops)
    decreases e, 1
  {
    if FoldConst(nm, e).Some? {
      FoldedCode(nm, e, locals);
      hs := [h];
      One(ExprCode(nm, e, locals).value[0], h, loops);
    } else {
      match e
      case Identifier(x) =>
        hs := [h];
        GetLevel(locals, x, h, loops);
      case Lit(l) =>
        hs := [h];
        One(IPush(LiteralValue(nm, l)), h, loops);
      case Grouping(inner) => hs := ExprLevel(nm, inner, locals, h, loops);
      case Unary(op, operand) => hs := UnaryLevel(nm, e, locals, h, loops);
      case Binary(op, lhs, rhs) => hs := BinaryLevel(nm, e, locals, h, loops);
      case Assignment(x, value) => hs := StoreLevel(nm, x, value, locals, h, loops);
      case Postfix(_, _) => hs := PostfixLevel(nm, e, locals, h, loops);
      case Conditional(_, _, _) => hs := ConditionalLevel(nm, e, locals, h, loops);
    }
  }

  lemma {:induction false} UnaryLevel(nm: Numerics, e: Expr, locals: seq<Local>, h: int, loops: seq<nat>)
      returns (hs: seq<int>)
    requires e.Unary? && FoldConst(nm, e).None? && ExprCode(nm, e, locals).Ok? && |locals| <= h
    ensures Between(ExprCode(nm, e, locals).value, hs, h, h + 1, loops)
    decreases e, 0
  {
    var c := ExprCode(nm, e.operand, locals).value;
    var hc := ExprLevel(nm, e.operand, locals, h, loops);
    assert ExprCode(nm, e, locals).value == c + UnaryTail(e.uop);
    hide ExprCode, LevelAt;
    var ht := TailLevel(e.uop, h, loops);
    Join(c, hc, h + 1, UnaryTail(e.uop), ht, h + 1, loops);
    hs := hc + ht;
  }

  lemma TailLevel(op: UnaryOp, h: int, loops: seq<nat>) returns (hs: seq<int>)
    requires h >= 0
    ensures Between(UnaryTail(op), hs, h + 1, h + 1, loops)
  {
    hs := if op.Void? || op.Delete? then [h + 1, h] else [h + 1];
  }

  lemma {:induction false} StoreLevel(nm: Numerics, x: Name, value: Expr, locals: seq<Local>, h: int, loops: seq<nat>)
      returns (hs: seq<int>)
    requires ExprCode(nm, Assignment(x, value), locals).Ok? && |locals| <= h
    ensures Between(ExprCode(nm, Assignment(x, value), locals).value, hs, h, h + 1, loops)
    decreases value, 2
  {
    var c, s := ExprCode(nm, value, locals).value, SetCode(locals, x).value;
    var hc := ExprLevel(nm, value, locals, h, loops);
    hide LevelAt;
    SetLevel(locals, x, h + 1, loops);
    Join(c, hc, h + 1, s, [h + 1], h + 1, loops);
    hs := hc + [h + 1];
  }

  lemma {:induction false} BinaryLevel(nm: Numerics, e: Expr, locals: seq<Local>, h: int, loops: seq<nat>)
      returns (hs: seq<int>)
    requires e.Binary? && FoldConst(nm, e).None? && ExprCode(nm, e, locals).Ok? && |locals| <= h
    ensures Between(ExprCode(nm, e, locals).value, hs, h, h + 1, loops)
    decreases e, 0
  {
    hide LevelAt, Level;
    if e.op.Assign? {
      hs := StoreLevel(nm, e.lhs.name, e.rhs, locals, h, loops);
    } else if CompoundInstr(e.op).Some? {
      hs := CompoundLevel(nm, e, locals, h, loops);
    } else if e.op.And? || e.op.Or? || IsLogicalAssign(e.op) {
      hs := ShortLevel(nm, e, locals, h, loops);
    } else if e.op.NullishCoalescing? {
      hs := NullishLevel(nm, e, locals, h, loops);
    } else {
      hs := StrictLevel(nm, e, locals, h, loops);
    }
  }

  lemma {:induction false} StrictLevel(nm: Numerics, e: Expr, locals: seq<Local>, h: int, loops: seq<nat>)
      returns (hs: seq<int>)
    requires e.Binary? && FoldConst(nm, e).None? && BinaryInstr(e.op).Some? && ExprCode(nm, e, locals).Ok?
    requires |locals| <= h
    ensures Between(ExprCode(nm, e, locals).value, hs, h, h + 1, loops)
    decreases e, -1
  {
    hide ExprCode, LevelAt;
    var l, r := StrictCode(nm, e, locals);
    var hl := ExprLevel(nm, e.lhs, locals, h, loops);
    var hr := ExprLevel(nm, e.rhs, locals, h + 1, loops);
    Join(l, hl, h + 1, r, hr, h + 2, loops);
    Then(l + r, hl + hr, h + 2, IBinary(BinaryInstr(e.op).value), loops);
    hs := hl + hr + [h + 2];
  }

  lemma {:induction false} CompoundLevel(nm: Numerics, e: Expr, locals: seq<Local>, h: int, loops: seq<nat>)
      returns (hs: seq<int>)
    requires e.Binary? && FoldConst(nm, e).None? && CompoundInstr(e.op).Some? && ExprCode(nm, e, locals).Ok?
    requires |locals| <= h
    ensures Between(ExprCode(nm, e, locals).value, hs, h, h + 1, loops)
    decreases e, -1
  {
    hide ExprCode, LevelAt;
    var l, r, w := CompoundCode(nm, e, locals);
    var i := IBinary(CompoundInstr(e.op).value);
    GetLevel(locals, e.lhs.name, h, loops);
    var hr := ExprLevel(nm, e.rhs, locals, h + 1, loops);
    Join(l, [h], h + 1, r, hr, h + 2, loops);
    Then(l + r, [h] + hr, h + 2, i, loops);
    SetLevel(locals, e.lhs.name, h + 1, loops);
    Join(l + r + [i], [h] + hr + [h + 2], h + 1, w, [h + 1], h + 1, loops);
    hs := [h] + hr + [h + 2] + [h + 1];
  }

  lemma {:induction false} ShortLevel(nm: Numerics, e: Expr, locals: seq<Local>, h: int, loops: seq<nat>)
      returns (hs: seq<int>)
    requires e.Binary? && FoldConst(nm, e).None? && (e.op.And? || e.op.Or? || IsLogicalAssign(e.op))
    requires ExprCode(nm, e, locals).Ok? && |locals| <= h
    ensures Between(ExprCode(nm, e, locals).value, hs, h, h + 1, loops)
    decreases e, -1
  {
    hide ExprCode, LevelAt;
    var l, r := ShortCode(nm, e, locals);
    var hl := ExprLevel(nm, e.lhs, locals, h, loops);
    var hr;
    if IsLogicalAssign(e.op) {
      hr := StoreLevel(nm, e.lhs.name, e.rhs, locals, h, loops);
    } else {
      hr := ExprLevel(nm, e.rhs, locals, h, loops);
    }
    One(IPop, h + 1, loops);
    Join([IPop], [h + 1], h, r, hr, h + 1, loops);
    Skip(l, hl, h + 1, ShortJump(e.op), [IPop] + r, [h + 1] + hr, h + 1, loops);
    assert l + [J(ShortJump(e.op), 2 + |r|)] + ([IPop] + r) == ExprCode(nm, e, locals).value;
    hs := hl + [h + 1] + ([h + 1] + hr);
  }

  lemma {:induction false} NullishLevel(nm: Numerics, e: Expr, locals: seq<Local>, h: int, loops: seq<nat>)
      returns (hs: seq<int>)
    requires e.Binary? && FoldConst(nm, e).None? && e.op.NullishCoalescing?
    requires ExprCode(nm, e, locals).Ok? && |locals| <= h
    ensures Between(ExprCode(nm, e, locals).value, hs, h, h + 1, loops)
    decreases e, -1
  {
    hide ExprCode, LevelAt;
    var l, r := NullishCode(nm, e, locals);
    var hl := ExprLevel(nm, e.lhs, locals, h, loops);
    var hr := ExprLevel(nm, e.rhs, locals, h, loops);
    One(IPop, h + 1, loops);
    Join([IPop], [h + 1], h, r, hr, h + 1, loops);
    Nothing(h + 1, loops);
    Fork(l, hl, h + 1, IfNullishPeek, [], [], [IPop] + r, [h + 1] + hr, h + 1, loops);
    assert l + [J(IfNullishPeek, 2)] + [] + [J(Always, 2 + |r|)] + ([IPop] + r) == ExprCode(nm, e, locals).value;
    hs := hl + [h + 1] + [] + [h + 1] + ([h + 1] + hr);
  }

  lemma PostfixLevel(nm: Numerics, e: Expr, locals: seq<Local>, h: int, loops: seq<nat>) returns (hs: seq<int>)
    requires e.Postfix? && ExprCode(nm, e, locals).Ok? && |locals| <= h
    ensures Between(ExprCode(nm, e, locals).value, hs, h, h + 1, loops)
  {
    hide ExprCode, LevelAt;
    var g, w := PostfixCode(nm, e, locals);
    var op := IBinary(PostfixOperator(e.pop));
    GetLevel(locals, e.operand.name, h, loops);
    Then(g, [h], h + 1, IUnary(PosOp), loops);
    Then(g + [IUnary(PosOp)], [h] + [h + 1], h + 1, IDup, loops);
    var c3 := g + [IUnary(PosOp)] + [IDup];
    var h3 := [h] + [h + 1] + [h + 1];
    Then(c3, h3, h + 2, IPush(Number(nm.one)), loops);
    Then(c3 + [IPush(Number(nm.one))], h3 + [h + 2], h + 3, op, loops);
    var c5, h5 := c3 + [IPush(Number(nm.one))] + [op], h3 + [h + 2] + [h + 3];
    SetLevel(locals, e.operand.name, h + 2, loops);
    Join(c5, h5, h + 2, w, [h + 2], h + 2, loops);
    Then(c5 + w, h5 + [h + 2], h + 2, IPop, loops);
    hs := h5 + [h + 2] + [h + 2];
  }

  lemma {:induction false} ConditionalLevel(nm: Numerics, e: Expr, locals: seq<Local>, h: int, loops: seq<nat>)
      returns (hs: seq<int>)
    requires e.Conditional? && ExprCode(nm, e, locals).Ok? && |locals| <= h
    ensures Between(ExprCode(nm, e, locals).value, hs, h, h + 1, loops)
    decreases e, 0
  {
    hide ExprCode, LevelAt;
    var c, t, f := ConditionalCode(nm, e, locals);
    var hc := ExprLevel(nm, e.condition, locals, h, loops);
    var ht := ExprLevel(nm, e.thenExpr, locals, h, loops);
    var hf := ExprLevel(nm, e.elseExpr, locals, h, loops);
    Fork(c, hc, h + 1, IfFalse, t, ht, f, hf, h + 1, loops);
    hs := hc + [h + 1] + ht + [h + 1] + hf;
  }

  // ---- Loops ----

  /** The heights the enclosing loops are left with. */
  function Keeps(loops: seq<LoopInfo>): (r: seq<nat>)
    ensures |r| == |loops| && forall i :: 0 <= i < |r| ==> r[i] == loops[i].localsCount
  {
    seq(|loops|, i requires 0 <= i < |loops| => loops[i].localsCount)
  }

  ghost predicate KeepsBelow(cx: Context) {
    forall i :: 0 <= i < |cx.loops| ==> cx.loops[i].localsCount <= |cx.locals|
  }

  /** A finished loop's jumps land where its height says. */
  lemma CloseLevel(c: seq<Instr>, hs: seq<int>, exit: int, loops: seq<nat>, h: nat, breakAt: nat, continueAt: nat)
    requires Level(c, hs, exit, loops + [h]) && breakAt <= |c| && continueAt <= |c|
    requires HeightAt(hs, exit, breakAt) == HeightAt(hs, exit, continueAt) == h
    ensures Level(CloseLoop(c, |loops|, breakAt, continueAt), hs, exit, loops)
  {
    var r := CloseLoop(c, |loops|, breakAt, continueAt);
    forall k | 0 <= k < |r|
      ensures LevelAt(r, hs, exit, loops, k)
    {
      assert LevelAt(c, hs, exit, loops + [h], k);
      assert r[k] == CloseInstr(c[k], k, |loops|, breakAt, continueAt);
    }
  }

  lemma WhileLevel(c: seq<Instr>, hc: seq<int>, h: int, b: seq<Instr>, hb: seq<int>, loops: seq<nat>)
    requires h >= 0 && Between(c, hc, h, h + 1, loops) && Between(b, hb, h, h, loops)
    ensures var n := |c| + |b| + 2;
            Level(c + [J(IfFalse, n - |c|)] + b + [J(Always, 1 - n)], hc + [h + 1] + hb + [h], h, loops)
  {
    var n := |c| + |b| + 2;
    var j, g := J(IfFalse, n - |c|), J(Always, 1 - n);
    var code, hs := c + [j] + b + [g], hc + [h + 1] + hb + [h];
    Part([], c, [j] + b + [g], [], hc, [h + 1] + hb + [h], h + 1, h, loops);
    assert [] + c + ([j] + b + [g]) == code && [] + hc + ([h + 1] + hb + [h]) == hs;
    Part(c + [j], b, [g], hc + [h + 1], hb, [h], h, h, loops);
    assert HeightAt(hs, h, 0) == HeightAt(hc, h + 1, 0) && HeightAt(hs, h, |c| + 1) == HeightAt(hb, h, 0);
    assert LevelAt(code, hs, h, loops, |c|);
    assert LevelAt(code, hs, h, loops, n - 1);
  }

  lemma DoWhileLevel(b: seq<Instr>, hb: seq<int>, h: int, c: seq<Instr>, hc: seq<int>, loops: seq<nat>)
    requires h >= 0 && Between(c, hc, h, h + 1, loops) && Between(b, hb, h, h, loops)
    ensures var n := |b| + |c| + 2;
            Level(b + c + [J(IfFalse, 2)] + [J(Always, 1 - n)], hb + hc + [h + 1] + [h], h, loops)
  {
    var n := |b| + |c| + 2;
    var j, g := J(IfFalse, 2), J(Always, 1 - n);
    var code, hs := b + c + [j] + [g], hb + hc + [h + 1] + [h];
    Join(b, hb, h, c, hc, h + 1, loops);
    Part([], b + c, [j] + [g], [], hb + hc, [h + 1] + [h], h + 1, h, loops);
    assert [] + (b + c) + ([j] + [g]) == code && [] + (hb + hc) + ([h + 1] + [h]) == hs;
    assert HeightAt(hs, h, 0) == h by {
      assert |b| > 0 ==> hs[0] == hb[0];
      assert |b| == 0 && |c| > 0 ==> hs[0] == hc[0];
    }
    assert LevelAt(code, hs, h, loops, n - 2);
    assert LevelAt(code, hs, h, loops, n - 1);
  }

  /** The loop of a `for`: test, jump over the update, update, jump back, body, jump to the update. */
  lemma ForLevel(c: seq<Instr>, hc: seq<int>, h: int, tested: bool, u: seq<Instr>, hu: seq<int>, b: seq<Instr>,
                 hb: seq<int>, loops: seq<nat>) returns (hs: seq<int>)
    requires h >= 0 && Between(c, hc, h, if tested then h + 1 else h, loops)
    requires Between(u, hu, h, h, loops) && Between(b, hb, h, h, loops)
    ensures var jif := if tested then [J(IfFalse, |u| + |b| + 4)] else [];
            var front := c + jif;
            var code := front + [J(Always, |u| + 2)] + (u + [J(Always, -(|front| + 1 + |u|))]) + b
                        + [J(Always, -(|u| + 1 + |b|))];
            && Level(code, hs, h, loops)
            && HeightAt(hs, h, 0) == HeightAt(hs, h, |front| + 1) == h
  {
    assert |hc| == |c| && |hu| == |u| && |hb| == |b|;
    hide Level, LevelAt;
    var jif, hj := if tested then [J(IfFalse, |u| + |b| + 4)] else [], if tested then [h + 1] else [];
    var front, over := c + jif, J(Always, |u| + 2);
    var back, next := J(Always, -(|c + jif| + 1 + |u|)), J(Always, -(|u| + 1 + |b|));
    var code := front + [over] + (u + [back]) + b + [next];
    hs := (hc + hj) + [h] + (hu + [h]) + hb + [h];
    ForHeights(c, hc, h, hj, hu, hb, hs);
    ForPartsLevel(c, hc, h, jif, hj, over, u, hu, back, b, hb, next, code, hs, loops);
    ForJumps(c, h, jif, over, u, back, b, next, code, hs, loops);
    LevelByParts(code, hs, h, loops, |c|, |jif|, |u|, |b|);
  }

  lemma LevelByParts(code: seq<Instr>, hs: seq<int>, exit: int, loops: seq<nat>, c: nat, j: nat, u: nat, b: nat)
    requires |code| == |hs| == c + j + u + b + 3 && j <= 1
    requires forall k :: 0 <= k < c ==> LevelAt(code, hs, exit, loops, k)
    requires forall k :: c + j + 1 <= k < c + j + 1 + u ==> LevelAt(code, hs, exit, loops, k)
    requires forall k :: c + j + u + 2 <= k < c + j + u + 2 + b ==> LevelAt(code, hs, exit, loops, k)
    requires j == 1 ==> LevelAt(code, hs, exit, loops, c)
    requires LevelAt(code, hs, exit, loops, c + j) && LevelAt(code, hs, exit, loops, c + j + 1 + u)
    requires LevelAt(code, hs, exit, loops, c + j + u + b + 2)
    ensures Level(code, hs, exit, loops)
  {
    hide LevelAt;
  }

  lemma ForPartsLevel(c: seq<Instr>, hc: seq<int>, h: int, jif: seq<Instr>, hj: seq<int>, over: Instr, u: seq<Instr>,
                  hu: seq<int>, back: Instr, b: seq<Instr>, hb: seq<int>, next: Instr, code: seq<Instr>, hs: seq<int>,
                  loops: seq<nat>)
    requires Level(c, hc, if jif == [] then h else h + 1, loops) && Level(u, hu, h, loops) && Level(b, hb, h, loops)
    requires |jif| == |hj| <= 1 && (hj != [] ==> hj == [h + 1])
    requires code == (c + jif) + [over] + (u + [back]) + b + [next] && hs == (hc + hj) + [h] + (hu + [h]) + hb + [h]
    ensures |code| == |hs| == |c| + |jif| + |u| + |b| + 3
    ensures forall k :: 0 <= k < |c| ==> LevelAt(code, hs, h, loops, k)
    ensures forall k :: |c| + |jif| + 1 <= k < |c| + |jif| + 1 + |u| ==> LevelAt(code, hs, h, loops, k)
    ensures forall k :: |c| + |jif| + |u| + 2 <= k < |c| + |jif| + |u| + 2 + |b| ==> LevelAt(code, hs, h, loops, k)
  {
    assert |hc| == |c| && |hu| == |u| && |hb| == |b|;
    hide Level, LevelAt;
    var front, hf := c + jif, hc + hj;
    var post, hpost := jif + [over] + (u + [back]) + b + [next], hj + [h] + (hu + [h]) + hb + [h];
    assert code == c + post && hs == hc + hpost;
    ForPart(c, hc, post, hpost, if jif == [] then h else h + 1, h, code, hs, loops);
    assert code == front + [over] + u + ([back] + b + [next]) && hs == hf + [h] + hu + ([h] + hb + [h]);
    Part(front + [over], u, [back] + b + [next], hf + [h], hu, [h] + hb + [h], h, h, loops);
    Part(front + [over] + (u + [back]), b, [next], hf + [h] + (hu + [h]), hb, [h], h, h, loops);
  }

  lemma ForJumps(c: seq<Instr>, h: int, jif: seq<Instr>, over: Instr, u: seq<Instr>, back: Instr, b: seq<Instr>,
                 next: Instr, code: seq<Instr>, hs: seq<int>, loops: seq<nat>)
    requires h >= 0 && |jif| <= 1 && (jif != [] ==> jif == [J(IfFalse, |u| + |b| + 4)])
    requires over == J(Always, |u| + 2) && back == J(Always, -(|c + jif| + 1 + |u|))
    requires next == J(Always, -(|u| + 1 + |b|))
    requires code == (c + jif) + [over] + (u + [back]) + b + [next] && |hs| == |code|
    requires var f := |c + jif|;
             && HeightAt(hs, h, 0) == h && hs[f] == h && HeightAt(hs, h, f + 1) == h && hs[f + 1 + |u|] == h
             && HeightAt(hs, h, f + 2 + |u|) == h && hs[f + 2 + |u| + |b|] == h
             && (jif != [] ==> hs[|c|] == h + 1)
    ensures jif != [] ==> LevelAt(code, hs, h, loops, |c|)
    ensures LevelAt(code, hs, h, loops, |c| + |jif|) && LevelAt(code, hs, h, loops, |c| + |jif| + 1 + |u|)
    ensures LevelAt(code, hs, h, loops, |c| + |jif| + |u| + |b| + 2)
  {
    assert code[|c| + |jif|] == over && code[|c| + |jif| + 1 + |u|] == back
      && code[|c| + |jif| + |u| + |b| + 2] == next;
    assert jif != [] ==> code[|c|] == jif[0];
  }

  lemma ForPart(c: seq<Instr>, hc: seq<int>, post: seq<Instr>, hpost: seq<int>, mid: int, h: int, code: seq<Instr>,
                hs: seq<int>, loops: seq<nat>)
    requires Level(c, hc, mid, loops) && |post| == |hpost| > 0 && hpost[0] == mid
    requires code == c + post && hs == hc + hpost
    ensures forall k :: 0 <= k < |c| ==> LevelAt(code, hs, h, loops, k)
  {
    Part([], c, post, [], hc, hpost, mid, h, loops);
    assert [] + c + post == code && [] + hc + hpost == hs;
  }

  lemma ForHeights(c: seq<Instr>, hc: seq<int>, h: int, hj: seq<int>, hu: seq<int>, hb: seq<int>, hs: seq<int>)
    requires |hc| == |c| && hs == (hc + hj) + [h] + (hu + [h]) + hb + [h]
    requires HeightAt(hc, if hj == [] then h else h + 1, 0) == h && HeightAt(hu, h, 0) == h && HeightAt(hb, h, 0) == h
    requires hj == [] || (hj == [h + 1] && c != [])
    ensures var f := |hc + hj|;
            && HeightAt(hs, h, 0) == h && hs[f] == h && HeightAt(hs, h, f + 1) == h && hs[f + 1 + |hu|] == h
            && HeightAt(hs, h, f + 2 + |hu|) == h && hs[f + 2 + |hu| + |hb|] == h
            && (hj != [] ==> hs[|c|] == h + 1)
  {
  }

  // ---- Statements ----

  lemma {:induction false} PopsLevel(n: nat, h: int, loops: seq<nat>) returns (hs: seq<int>)
    requires h >= n
    ensures Between(Pops(n), hs, h, h - n, loops)
    decreases n
  {
    if n == 0 {
      hs := [];
    } else {
      assert Pops(n) == [IPop] + Pops(n - 1);
      var rest := PopsLevel(n - 1, h - 1, loops);
      One(IPop, h, loops);
      Join([IPop], [h], h - 1, Pops(n - 1), rest, h - n, loops);
      hs := [h] + rest;
    }
  }

  lemma {:induction false} UndefinedsLevel(n: nat, h: int, loops: seq<nat>) returns (hs: seq<int>)
    requires h >= 0
    ensures Between(Undefineds(n), hs, h, h + n, loops)
    decreases n
  {
    if n == 0 {
      hs := [];
    } else {
      assert Undefineds(n) == [IPush(Undefined)] + Undefineds(n - 1);
      var rest := UndefinedsLevel(n - 1, h + 1, loops);
      One(IPush(Undefined), h, loops);
      Join([IPush(Undefined)], [h], h + 1, Undefineds(n - 1), rest, h + n, loops);
      hs := [h] + rest;
    }
  }

  /** What the code of a statement does to the height: exactly what the compiler did to its slots. */
  ghost predicate Nets(g: Gen, hs: seq<int>, cx: Context) {
    Between(g.code, hs, |cx.locals|, |g.locals|, Keeps(cx.loops))
  }

  lemma {:induction false} StmtLevel(nm: Numerics, s: Stmt, tag: Option<Name>, cx: Context) returns (hs: seq<int>)
    requires Tidy(s, cx.depth) && Shaped(cx.locals, cx.depth) && KeepsBelow(cx) && StmtCode(nm, s, tag, cx).Ok?
    ensures Nets(StmtCode(nm, s, tag, cx).value, hs, cx)
    decreases s, 2
  {
    hide Level, LevelAt;
    match s
    case VarDecl(_, _, _) => hs := DeclLevel(nm, s, cx);
    case ExprStmt(_) => hs := SimpleLevel(nm, s, cx);
    case BlockStmt(block) => hs := BlockLevel(nm, block, cx);
    case Empty =>
      hs := [];
      Nothing(|cx.locals|, Keeps(cx.loops));
    case If(_, _, _) => hs := IfLevel(nm, s, cx);
    case While(_, _) => hs := WhileStmtLevel(nm, s, tag, cx);
    case DoWhile(_, _) => hs := DoWhileStmtLevel(nm, s, tag, cx);
    case For(_, _, _, _) => hs := ForStmtLevel(nm, s, tag, cx);
    case Switch(_, _, _) => hs := SwitchStmtLevel(nm, s, cx);
    case Labeled(_, _) => hs := LabeledLevel(nm, s, cx);
    case Break(_) => hs := JumpOutLevel(nm, s, cx);
    case Continue(_) => hs := JumpOutLevel(nm, s, cx);
    case Return(_) => hs := SimpleLevel(nm, s, cx);
    case Throw(_) => hs := SimpleLevel(nm, s, cx);
  }

  lemma DeclLevel(nm: Numerics, s: Stmt, cx: Context) returns (hs: seq<int>)
    requires s.VarDecl? && StmtCode(nm, s, None, cx).Ok?
    ensures Nets(StmtCode(nm, s, None, cx).value, hs, cx)
  {
    var c := ExprCode(nm, s.init, cx.locals).value;
    hide LevelAt, ExprCode;
    hs := ExprLevel(nm, s.init, cx.locals, |cx.locals|, Keeps(cx.loops));
    if cx.depth == 0 {
      Then(c, hs, |cx.locals| + 1, IDefine(s.name, s.isConst), Keeps(cx.loops));
      hs := hs + [|cx.locals| + 1];
    }
  }

  lemma SimpleLevel(nm: Numerics, s: Stmt, cx: Context) returns (hs: seq<int>)
    requires (s.ExprStmt? || s.Return? || s.Throw?) && StmtCode(nm, s, None, cx).Ok?
    ensures Nets(StmtCode(nm, s, None, cx).value, hs, cx)
  {
    SimpleSpec(nm, s, cx);
    hide LevelAt, ExprCode, StmtCode;
    var h, loops := |cx.locals|, Keeps(cx.loops);
    var c := [IPush(Undefined)];
    if SimpleExpr(s).Some? {
      c := ExprCode(nm, SimpleExpr(s).value, cx.locals).value;
      hs := ExprLevel(nm, SimpleExpr(s).value, cx.locals, h, loops);
    } else {
      hs := [h];
      One(IPush(Undefined), h, loops);
    }
    if s.ExprStmt? {
      Then(c, hs, h + 1, IPop, loops);
    } else {
      Last(SimpleLast(s), h + 1, h, loops);
      Join(c, hs, h + 1, [SimpleLast(s)], [h + 1], h, loops);
    }
    hs := hs + [h + 1];
  }

  lemma JumpOutLevel(nm: Numerics, s: Stmt, cx: Context) returns (hs: seq<int>)
    requires (s.Break? || s.Continue?) && KeepsBelow(cx) && StmtCode(nm, s, None, cx).Ok?
    ensures Nets(StmtCode(nm, s, None, cx).value, hs, cx)
  {
    BreakMeaning(nm, s, cx, Env([], map[]), 0);
    hide StmtCode, LevelAt;
    var i := FindLoop(cx.loops, s.target, s.Continue?).value;
    var h, keep, loops := |cx.locals|, cx.loops[i].localsCount, Keeps(cx.loops);
    var j := IJump(Always, if s.Break? then BreakOf(i) else ContinueOf(i));
    hs := PopsLevel(h - keep, h, loops);
    OutLevel(j, i, keep, h, loops);
    Join(Pops(h - keep), hs, keep, [j], [keep], h, loops);
    hs := hs + [keep];
  }

  lemma OutLevel(j: Instr, i: nat, keep: nat, h: int, loops: seq<nat>)
    requires i < |loops| && loops[i] == keep && (j == IJump(Always, BreakOf(i)) || j == IJump(Always, ContinueOf(i)))
    ensures Level([j], [keep], h, loops)
  {
  }

  lemma {:induction false} IfLevel(nm: Numerics, s: Stmt, cx: Context) returns (hs: seq<int>)
    requires s.If? && Tidy(s, cx.depth) && Shaped(cx.locals, cx.depth) && KeepsBelow(cx)
    requires StmtCode(nm, s, None, cx).Ok?
    ensures Nets(StmtCode(nm, s, None, cx).value, hs, cx)
    decreases s, 1
  {
    hide LevelAt, ExprCode, StmtCode;
    var c, t, f := IfMeaning(nm, s, cx, Env([], map[]), 0);
    var h, loops := |cx.locals|, Keeps(cx.loops);
    var hc := ExprLevel(nm, s.condition, cx.locals, h, loops);
    var ht := StmtLevel(nm, s.thenBranch, None, cx);
    if s.elseBranch.None? {
      Skip(c, hc, h + 1, IfFalse, t, ht, h, loops);
      hs := hc + [h + 1] + ht;
    } else {
      var hf := StmtLevel(nm, s.elseBranch.value, None, cx);
      Fork(c, hc, h + 1, IfFalse, t, ht, f, hf, h, loops);
      hs := hc + [h + 1] + ht + [h] + hf;
    }
  }

  lemma {:induction false} WhileStmtLevel(nm: Numerics, s: Stmt, tag: Option<Name>, cx: Context) returns (hs: seq<int>)
    requires s.While? && Tidy(s, cx.depth) && Shaped(cx.locals, cx.depth) && KeepsBelow(cx)
    requires StmtCode(nm, s, tag, cx).Ok?
    ensures Nets(StmtCode(nm, s, tag, cx).value, hs, cx)
    decreases s, 1
  {
    hide LevelAt, ExprCode, StmtCode;
    var c, b := WhileMeaning(nm, s, tag, cx);
    var h, loops := |cx.locals|, Keeps(cx.loops);
    InsideKeeps(cx, tag, true);
    var hc := ExprLevel(nm, s.condition, cx.locals, h, loops + [h]);
    var hb := StmtLevel(nm, s.body, None, InLoop(cx, tag, true));
    WhileLevel(c, hc, h, b, hb, loops + [h]);
    var n := |c| + |b| + 2;
    hs := hc + [h + 1] + hb + [h];
    CloseLevel(c + [J(IfFalse, n - |c|)] + b + [J(Always, 1 - n)], hs, h, loops, h, n, 0);
  }

  lemma {:induction false} DoWhileStmtLevel(nm: Numerics, s: Stmt, tag: Option<Name>, cx: Context)
      returns (hs: seq<int>)
    requires s.DoWhile? && Tidy(s, cx.depth) && Shaped(cx.locals, cx.depth) && KeepsBelow(cx)
    requires StmtCode(nm, s, tag, cx).Ok?
    ensures Nets(StmtCode(nm, s, tag, cx).value, hs, cx)
    decreases s, 1
  {
    hide LevelAt, ExprCode, StmtCode;
    var c, b := DoWhileMeaning(nm, s, tag, cx);
    var h, loops := |cx.locals|, Keeps(cx.loops);
    InsideKeeps(cx, tag, true);
    var hc := ExprLevel(nm, s.condition, cx.locals, h, loops + [h]);
    var hb := StmtLevel(nm, s.body, None, InLoop(cx, tag, true));
    DoWhileLevel(b, hb, h, c, hc, loops + [h]);
    var n := |b| + |c| + 2;
    hs := hb + hc + [h + 1] + [h];
    assert HeightAt(hs, h, |b|) == HeightAt(hc, h + 1, 0) && HeightAt(hs, h, 0) == h by {
      assert |hb| == |b| && |hc| == |c|;
      assert c != [];
    }
    CloseLevel(b + c + [J(IfFalse, 2)] + [J(Always, 1 - n)], hs, h, loops, h, n, |b|);
  }

  lemma InsideKeeps(cx: Context, tag: Option<Name>, isLoop: bool)
    requires KeepsBelow(cx)
    ensures KeepsBelow(InLoop(cx, tag, isLoop))
    ensures Keeps(InLoop(cx, tag, isLoop).loops) == Keeps(cx.loops) + [|cx.locals|]
  {
  }

  lemma {:induction false} LabeledLevel(nm: Numerics, s: Stmt, cx: Context) returns (hs: seq<int>)
    requires s.Labeled? && Tidy(s, cx.depth) && Shaped(cx.locals, cx.depth) && KeepsBelow(cx)
    requires StmtCode(nm, s, None, cx).Ok?
    ensures Nets(StmtCode(nm, s, None, cx).value, hs, cx)
    decreases s, 1
  {
    hide LevelAt;
    if IsLoop(s.body) {
      hs := StmtLevel(nm, s.body, Some(s.tag), cx);
    } else {
      hide StmtCode;
      var b := LabeledMeaning(nm, s, cx);
      InsideKeeps(cx, Some(s.tag), false);
      hs := StmtLevel(nm, s.body, None, InLoop(cx, Some(s.tag), false));
      CloseLevel(b, hs, |cx.locals|, Keeps(cx.loops), |cx.locals|, |b|, 0);
    }
  }

  // ---- Blocks ----

  lemma {:induction false} BlockLevel(nm: Numerics, block: Block, cx: Context) returns (hs: seq<int>)
    requires TidyBlock(block, cx.depth) && Shaped(cx.locals, cx.depth) && KeepsBelow(cx) && BlockCode(nm, block, cx).Ok?
    ensures BlockCode(nm, block, cx).value.locals == cx.locals
    ensures Nets(BlockCode(nm, block, cx).value, hs, cx)
    decreases block, 1
  {
    hide Level, LevelAt, BlockCode, ListCode, Reserved;
    var g := BlockMeaning(nm, block, cx);
    var cx1 := BlockContext(block, cx);
    var rs := Reserved(block.stmts, cx.depth + 1);
    var h, loops := |cx.locals|, Keeps(cx.loops);
    ShapedBlock(cx.locals, cx.depth, rs);
    ReservedDeclared(block.stmts, cx.locals, cx.depth + 1);
    var hu := UndefinedsLevel(|rs|, h, loops);
    var hg := ListLevel(nm, block.stmts, cx1);
    var hp := PopsLevel(|rs|, h + |rs|, loops);
    assert |g.locals| == h + |rs|;
    Join(Undefineds(|rs|), hu, h + |rs|, g.code, hg, h + |rs|, loops);
    HeightsJoin(hu, h + |rs|, hg, h + |rs|);
    Join(Undefineds(|rs|) + g.code, hu + hg, h + |rs|, Pops(|rs|), hp, h, loops);
    HeightsJoin(hu + hg, h + |rs|, hp, h);
    hs := hu + hg + hp;
  }

  lemma HeightsJoin(a: seq<int>, mid: int, b: seq<int>, exit: int)
    requires HeightAt(b, exit, 0) == mid
    ensures HeightAt(a + b, exit, 0) == HeightAt(a, mid, 0)
  {
  }

  lemma {:induction false} ListLevel(nm: Numerics, stmts: seq<Stmt>, cx: Context) returns (hs: seq<int>)
    requires TidyList(stmts, cx.depth) && Shaped(cx.locals, cx.depth) && Declared(stmts, cx.locals, cx.depth)
    requires KeepsBelow(cx) && ListCode(nm, stmts, cx).Ok?
    ensures |ListCode(nm, stmts, cx).value.locals| == |cx.locals|
    ensures Nets(ListCode(nm, stmts, cx).value, hs, cx)
    decreases stmts, 0
  {
    hide Level, LevelAt, ItemCode;
    if stmts == [] {
      hs := [];
      Nothing(|cx.locals|, Keeps(cx.loops));
    } else {
      var h, t := ListMeaning(nm, stmts, cx, Env([], map[]), 0);
      hide ListCode;
      var cx1 := cx.(locals := h.locals);
      ItemSlots(nm, stmts[0], cx, stmts);
      DeclaredSame(stmts, cx.locals, h.locals, cx.depth);
      DeclaredTail(stmts, h.locals, cx.depth);
      var hh := ItemLevel(nm, stmts, cx);
      var ht := ListLevel(nm, stmts[1..], cx1);
      Join(h.code, hh, |cx.locals|, t.code, ht, |cx.locals|, Keeps(cx.loops));
      HeightsJoin(hh, |cx.locals|, ht, |cx.locals|);
      hs := hh + ht;
    }
  }

  lemma {:induction false} ItemLevel(nm: Numerics, stmts: seq<Stmt>, cx: Context) returns (hs: seq<int>)
    requires |stmts| > 0 && TidyList(stmts, cx.depth) && Shaped(cx.locals, cx.depth)
    requires Declared(stmts, cx.locals, cx.depth)
    requires KeepsBelow(cx) && ItemCode(nm, stmts[0], cx).Ok?
    ensures Nets(ItemCode(nm, stmts[0], cx).value, hs, cx)
    decreases stmts[0], 3
  {
    hide LevelAt, ExprCode, StmtCode;
    var s := stmts[0];
    if s.VarDecl? {
      var slot := ResolveLocal(cx.locals, s.name).value;
      var c := ItemMeaning(nm, s, cx);
      var h, loops := |cx.locals|, Keeps(cx.loops);
      hs := ExprLevel(nm, s.init, cx.locals, h, loops);
      Then(c, hs, h + 1, ISetLocal(slot), loops);
      Then(c + [ISetLocal(slot)], hs + [h + 1], h + 1, IPop, loops);
      hs := hs + [h + 1] + [h + 1];
    } else {
      hs := StmtLevel(nm, s, None, cx);
    }
  }

  // ---- For ----

  lemma {:induction false} ForStmtLevel(nm: Numerics, s: Stmt, tag: Option<Name>, cx: Context) returns (hs: seq<int>)
    requires s.For? && Tidy(s, cx.depth) && Shaped(cx.locals, cx.depth) && KeepsBelow(cx)
    requires StmtCode(nm, s, tag, cx).Ok?
    ensures Nets(StmtCode(nm, s, tag, cx).value, hs, cx)
    decreases s, 1
  {
    hide LevelAt, Level, ExprCode, StmtCode, ForCode, Tidy;
    var p := ForMeaning(nm, s, tag, cx);
    var code := ForCode(p, s.forCondition.Some?, s.update.Some?, |cx.loops|);
    var h, k, loops := |cx.locals|, |p.init.locals| - |cx.locals|, Keeps(cx.loops);
    var hf := ForCodeLevel(nm, s, tag, cx, p);
    var hp := PopsLevel(k, h + k, loops);
    Join(code, hf, h + k, Pops(k), hp, h, loops);
    HeightsJoin(hf, h + k, hp, h);
    hs := hf + hp;
  }

  lemma {:induction false} ForCodeLevel(nm: Numerics, s: Stmt, tag: Option<Name>, cx: Context, p: ForParts)
      returns (hs: seq<int>)
    requires s.For? && Tidy(s, cx.depth) && Shaped(cx.locals, cx.depth) && KeepsBelow(cx)
    requires ForPieces(nm, s, tag, cx) == Ok(p)
    requires p.body.locals == p.init.locals == cx.locals + ForSlot(s, cx.depth + 1)
    ensures Between(ForCode(p, s.forCondition.Some?, s.update.Some?, |cx.loops|), hs, |cx.locals|, |p.init.locals|,
                    Keeps(cx.loops))
    decreases s, 0
  {
    hide LevelAt, Level, ExprCode, StmtCode, ForPieces, CloseLoop;
    PiecesOf(nm, s, tag, cx, p);
    var h, loops := |p.init.locals|, Keeps(cx.loops);
    var cx1 := Deeper(cx).(locals := p.init.locals);
    ForInside(s, cx, p);
    InsideKeeps(cx1, tag, true);
    var hi := ForInitLevel(nm, s, cx, p, loops + [h]);
    var hc := [];
    if s.forCondition.Some? {
      hc := ExprLevel(nm, s.forCondition.value, p.init.locals, h, loops + [h]);
    } else {
      Nothing(h, loops + [h]);
    }
    var u := Update(p.update, s.update.Some?);
    var hu := UpdateLevel(nm, s, tag, cx, p, loops + [h]);
    var hb := StmtLevel(nm, s.body, None, InLoop(cx1, tag, true));
    hs := ForAll(p, s.forCondition.Some?, s.update.Some?, |cx.locals|, h, hi, hc, hu, hb, loops);
  }

  lemma ForInside(s: Stmt, cx: Context, p: ForParts)
    requires s.For? && Shaped(cx.locals, cx.depth) && KeepsBelow(cx)
    requires p.init.locals == cx.locals + ForSlot(s, cx.depth + 1)
    ensures var cx1 := Deeper(cx).(locals := p.init.locals);
            Shaped(cx1.locals, cx1.depth) && KeepsBelow(cx1)
  {
  }

  lemma {:induction false} ForInitLevel(nm: Numerics, s: Stmt, cx: Context, p: ForParts, loops: seq<nat>)
      returns (hs: seq<int>)
    requires s.For? && Tidy(s, cx.depth) && p.init.locals == cx.locals + ForSlot(s, cx.depth + 1)
    requires if s.forInit.Some? then StmtCode(nm, s.forInit.value, None, Deeper(cx)) == Ok(p.init)
             else p.init == Gen([], cx.locals)
    ensures Between(p.init.code, hs, |cx.locals|, |p.init.locals|, loops)
  {
    if s.forInit.None? {
      hs := [];
      Nothing(|cx.locals|, loops);
    } else {
      var e := if s.forInit.value.VarDecl? then s.forInit.value.init else s.forInit.value.expr;
      var c := ExprCode(nm, e, cx.locals).value;
      assert p.init.code == if s.forInit.value.VarDecl? then c else c + [IPop];
      hide LevelAt, ExprCode, StmtCode;
      hs := ExprLevel(nm, e, cx.locals, |cx.locals|, loops);
      if s.forInit.value.ExprStmt? {
        Then(c, hs, |cx.locals| + 1, IPop, loops);
        hs := hs + [|cx.locals| + 1];
      }
    }
  }

  lemma UpdateLevel(nm: Numerics, s: Stmt, tag: Option<Name>, cx: Context, p: ForParts, loops: seq<nat>)
      returns (hs: seq<int>)
    requires s.For? && ForPieces(nm, s, tag, cx) == Ok(p)
    ensures Between(Update(p.update, s.update.Some?), hs, |p.init.locals|, |p.init.locals|, loops)
  {
    hide LevelAt, ExprCode, StmtCode;
    var h := |p.init.locals|;
    if s.update.Some? {
      hs := ExprLevel(nm, s.update.value, p.init.locals, h, loops);
      Then(p.update, hs, h + 1, IPop, loops);
      hs := hs + [h + 1];
    } else {
      assert Update(p.update, false) == [];
      hs := [];
      Nothing(h, loops);
    }
  }

  lemma ForAll(p: ForParts, tested: bool, updated: bool, h0: int, h: nat, hi: seq<int>, hc: seq<int>, hu: seq<int>,
               hb: seq<int>, loops: seq<nat>) returns (hs: seq<int>)
    requires Between(p.init.code, hi, h0, h, loops + [h])
    requires Between(p.cond, hc, h, if tested then h + 1 else h, loops + [h])
    requires Between(Update(p.update, updated), hu, h, h, loops + [h]) && Between(p.body.code, hb, h, h, loops + [h])
    ensures Between(ForCode(p, tested, updated, |loops|), hs, h0, h, loops)
  {
    var i, c, b, u := p.init.code, p.cond, p.body.code, Update(p.update, updated);
    var hl := ForLevel(c, hc, h, tested, u, hu, b, hb, loops + [h]);
    var jif := if tested then [J(IfFalse, |u| + |b| + 4)] else [];
    var front := c + jif;
    var updateAt := |i| + |front| + 1;
    var exit := updateAt + |u| + 1 + |b| + 1;
    var rest := front + [J(Always, |u| + 2)] + (u + [J(Always, -(|front| + 1 + |u|))]) + b
      + [J(Always, -(|u| + 1 + |b|))];
    assert ForCode(p, tested, updated, |loops|) == CloseLoop(i + rest, |loops|, exit, updateAt) by {
      hide CloseLoop, Update;
      assert |i| - (updateAt + |u|) == -(|front| + 1 + |u|) && updateAt - (exit - 1) == -(|u| + 1 + |b|);
    }
    hide ForCode, LevelAt, CloseLoop, Update;
    Join(i, hi, h, rest, hl, h, loops + [h]);
    hs := hi + hl;
    assert |hl| == |rest|;
    assert HeightAt(hs, h, updateAt) == HeightAt(hl, h, |front| + 1);
    HeightsJoin(hi, h, hl, h);
    CloseLevel(i + rest, hs, h, loops, h, exit, updateAt);
  }

  // ---- Switch ----

  /** The bodies from case `i` on, and the default. Each of them begins and ends at the height of the inner scope. */
  lemma {:induction false} BodiesLevel(nm: Numerics, cases: seq<SwitchCase>, cx: Context, bodies: seq<seq<Instr>>,
                                       d: seq<Instr>, hd: seq<int>, i: nat) returns (hs: seq<int>)
    requires forall k :: 0 <= k < |cases| ==> TidyBlock(cases[k].body, cx.depth)
    requires Shaped(cx.locals, cx.depth) && KeepsBelow(cx)
    requires CaseBodies(nm, cases, cx) == Ok(Bodies(bodies, cx.locals)) && i <= |cases| == |bodies|
    requires Between(d, hd, |cx.locals|, |cx.locals|, Keeps(cx.loops))
    ensures Between(BodiesFrom(bodies, |d|, i) + d, hs, |cx.locals|, |cx.locals|, Keeps(cx.loops))
    ensures forall j :: i <= j <= |bodies| ==>
              && 0 <= BodiesSize(bodies[..j]) - BodiesSize(bodies[..i]) <= |hs|
              && HeightAt(hs, |cx.locals|, BodiesSize(bodies[..j]) - BodiesSize(bodies[..i])) == |cx.locals|
    decreases cases, 1, |cases| - i
  {
    hide Level, LevelAt, BlockCode, CaseBodies, BodiesFrom, BodiesSize, J;
    var h, loops := |cx.locals|, Keeps(cx.loops);
    if i == |cases| {
      hs := hd;
      BodiesDone(bodies, d);
    } else {
      CaseBodiesAt(nm, cases, cx, i);
      assert cases[i].body < cases[i] && cases[i] in cases;
      var hb := BlockLevel(nm, cases[i].body, cx);
      var hr := BodiesLevel(nm, cases, cx, bodies, d, hd, i + 1);
      BodyStep(bodies, d, i, hb, hr, h, loops);
      hs := hb + [h] + hr;
      BodyHeights(bodies, hb, h, hr, i);
    }
  }

  lemma BodiesDone(bodies: seq<seq<Instr>>, d: seq<Instr>)
    ensures BodiesFrom(bodies, |d|, |bodies|) + d == d
  {
  }

  /** One body and the jump behind it, over all that follows. */
  lemma BodyStep(bodies: seq<seq<Instr>>, d: seq<Instr>, i: nat, hb: seq<int>, hr: seq<int>, h: int, loops: seq<nat>)
    requires i < |bodies| && h >= 0 && Between(bodies[i], hb, h, h, loops)
    requires Between(BodiesFrom(bodies, |d|, i + 1) + d, hr, h, h, loops)
    ensures Between(BodiesFrom(bodies, |d|, i) + d, hb + [h] + hr, h, h, loops)
    ensures |hb| == |bodies[i]|
  {
    hide Level, LevelAt, BodiesFrom;
    var m := BodiesFrom(bodies, |d|, i + 1) + d;
    LevelLengths(m, hr, h, loops);
    LevelLengths(bodies[i], hb, h, loops);
    Forward(bodies[i], hb, h, Always, 1 + |m|, m, hr, h, loops);
    HeightsJoin(hb, h, [h] + hr, h);
    assert hb + [h] + hr == hb + ([h] + hr);
    BodyUnfold(bodies, d, i);
  }

  lemma BodyUnfold(bodies: seq<seq<Instr>>, d: seq<Instr>, i: nat)
    requires i < |bodies|
    ensures var m := BodiesFrom(bodies, |d|, i + 1) + d;
            BodiesFrom(bodies, |d|, i) + d == bodies[i] + [J(Always, 1 + |m|)] + m
  {
    var rest := BodiesFrom(bodies, |d|, i + 1);
    assert |rest + d| == |rest| + |d|;
    assert BodiesFrom(bodies, |d|, i) == bodies[i] + [J(Always, 1 + |rest| + |d|)] + rest;
  }

  lemma LevelLengths(c: seq<Instr>, hs: seq<int>, exit: int, loops: seq<nat>)
    requires Level(c, hs, exit, loops)
    ensures |hs| == |c|
  {
  }

  lemma BodyHeights(bodies: seq<seq<Instr>>, hb: seq<int>, h: int, hr: seq<int>, i: nat)
    requires i < |bodies| && |hb| == |bodies[i]| && HeightAt(hb, h, 0) == h
    requires forall j :: i + 1 <= j <= |bodies| ==>
               && 0 <= BodiesSize(bodies[..j]) - BodiesSize(bodies[..i + 1]) <= |hr|
               && HeightAt(hr, h, BodiesSize(bodies[..j]) - BodiesSize(bodies[..i + 1])) == h
    ensures var hs := hb + [h] + hr;
            && HeightAt(hs, h, 0) == h
            && forall j :: i <= j <= |bodies| ==>
                 && 0 <= BodiesSize(bodies[..j]) - BodiesSize(bodies[..i]) <= |hs|
                 && HeightAt(hs, h, BodiesSize(bodies[..j]) - BodiesSize(bodies[..i])) == h
  {
    BodiesSizeNext(bodies, i);
    hide BodiesSize;
    var hs := hb + [h] + hr;
    forall j | i <= j <= |bodies|
      ensures 0 <= BodiesSize(bodies[..j]) - BodiesSize(bodies[..i]) <= |hs|
      ensures HeightAt(hs, h, BodiesSize(bodies[..j]) - BodiesSize(bodies[..i])) == h
    {
      if j > i {
        var k := BodiesSize(bodies[..j]) - BodiesSize(bodies[..i + 1]);
        assert HeightAt(hs, h, |hb| + 1 + k) == HeightAt(hr, h, k);
      }
    }
  }

  /** The comparisons from case `i` on, before `r`: each of them jumps to a body, whose height is the same. */
  lemma {:induction false} TestsLevel(nm: Numerics, cases: seq<SwitchCase>, locals: seq<Local>, tests: seq<seq<Instr>>,
                                      bodies: seq<seq<Instr>>, disc: nat, r: seq<Instr>, hr: seq<int>,
                                      loops: seq<nat>, i: nat)
      returns (hs: seq<int>)
    requires CaseTests(nm, cases, locals) == Ok(tests) && i <= |cases| == |tests| == |bodies| && disc < |locals|
    requires Between(r, hr, |locals|, |locals|, loops)
    requires forall j :: 0 <= j < |bodies| ==>
               1 + BodiesSize(bodies[..j]) <= |hr| && HeightAt(hr, |locals|, 1 + BodiesSize(bodies[..j])) == |locals|
    ensures |hs| == |TestsFrom(tests, bodies, disc, i)|
    ensures Between(TestsFrom(tests, bodies, disc, i) + r, hs + hr, |locals|, |locals|, loops)
    decreases |cases| - i
  {
    hide Level, LevelAt, ExprCode, CaseTests;
    var h := |locals|;
    if i == |cases| {
      hs := [];
      assert TestsFrom(tests, bodies, disc, i) + r == r && hs + hr == hr;
    } else {
      var hrest := TestsLevel(nm, cases, locals, tests, bodies, disc, r, hr, loops, i + 1);
      var rest := TestsFrom(tests, bodies, disc, i + 1);
      CaseTestsAt(nm, cases, locals, i);
      var front, hf := TestLevel(nm, cases[i].value, tests[i], locals, disc, loops);
      var d := |rest| + 2 + BodiesSize(bodies[..i]);
      LevelLengths(r, hr, h, loops);
      assert HeightAt(hrest + hr, h, d - 1) == HeightAt(hr, h, 1 + BodiesSize(bodies[..i]));
      TestStep(front, hf, h, d, rest + r, hrest + hr, loops);
      hs := hf + [h + 1] + [h] + hrest;
      TestsUnfold(tests, bodies, disc, i);
      hide TestsFrom, BodiesSize, J;
      Regroups(front, J(IfFalse, 2), J(Always, d), rest, r, hf, h, hrest, hr);
    }
  }

  /** A comparison that falls to the jump to its body, or over it to the next comparison. */
  lemma TestStep(front: seq<Instr>, hf: seq<int>, h: int, d: int, m: seq<Instr>, hm: seq<int>, loops: seq<nat>)
    requires h >= 0 && Between(front, hf, h, h + 1, loops) && Between(m, hm, h, h, loops)
    requires 1 <= d <= 1 + |m| && HeightAt(hm, h, d - 1) == h
    ensures Between(front + [J(IfFalse, 2)] + ([J(Always, d)] + m), hf + [h + 1] + ([h] + hm), h, h, loops)
    ensures |hf| == |front|
  {
    LevelLengths(front, hf, h + 1, loops);
    hide Level, LevelAt;
    Lead(d, m, hm, h, loops);
    Forward(front, hf, h + 1, IfFalse, 2, [J(Always, d)] + m, [h] + hm, h, loops);
    assert front != [];
  }

  lemma Regroups(a: seq<Instr>, x: Instr, y: Instr, b: seq<Instr>, c: seq<Instr>, ha: seq<int>, h: int, hb: seq<int>,
                 hc: seq<int>)
    ensures a + [x] + ([y] + (b + c)) == a + [x] + [y] + b + c
    ensures ha + [h + 1] + ([h] + (hb + hc)) == ha + [h + 1] + [h] + hb + hc
  {
  }

  lemma TestLevel(nm: Numerics, e: Expr, t: seq<Instr>, locals: seq<Local>, disc: nat, loops: seq<nat>)
      returns (front: seq<Instr>, hs: seq<int>)
    requires ExprCode(nm, e, locals) == Ok(t) && disc < |locals|
    ensures front == [IGetLocal(disc)] + t + [IBinary(StrictEqOp)]
    ensures Between(front, hs, |locals|, |locals| + 1, loops)
  {
    hide LevelAt, ExprCode;
    var h := |locals|;
    front := [IGetLocal(disc)] + t + [IBinary(StrictEqOp)];
    One(IGetLocal(disc), h, loops);
    var ht := ExprLevel(nm, e, locals, h + 1, loops);
    Join([IGetLocal(disc)], [h], h + 1, t, ht, h + 2, loops);
    Then([IGetLocal(disc)] + t, [h] + ht, h + 2, IBinary(StrictEqOp), loops);
    hs := [h] + ht + [h + 2];
  }

  lemma {:induction false} SwitchStmtLevel(nm: Numerics, s: Stmt, cx: Context) returns (hs: seq<int>)
    requires s.Switch? && Tidy(s, cx.depth) && Shaped(cx.locals, cx.depth) && KeepsBelow(cx)
    requires StmtCode(nm, s, None, cx).Ok?
    ensures Nets(StmtCode(nm, s, None, cx).value, hs, cx)
    decreases s, 1
  {
    hide Level, LevelAt, StmtCode, SwitchCode, SwitchPieces, ExprCode, CaseTests, CaseBodies, BlockCode;
    var p := SwitchMeaning(nm, s, cx);
    SwitchPiecesAre(nm, s, cx, p);
    var h, loops := |cx.locals|, Keeps(cx.loops);
    var hc := ExprLevel(nm, s.scrutinee, cx.locals, h, loops);
    var r, hr := CasesLevel(nm, s, cx, p);
    var inner := SwitchContext(cx);
    var ht := TestsLevel(nm, s.cases, inner.locals, p.tests, p.bodies, h, r, hr, loops, 0);
    var tests := TestsFrom(p.tests, p.bodies, h, 0);
    Join(p.scrutinee, hc, h + 1, tests + r, ht + hr, h + 1, loops);
    HeightsJoin(hc, h + 1, ht + hr, h + 1);
    assert p.scrutinee + (tests + r) == SwitchCode(p, h) by { SwitchJoined(p, h, tests, r); }
    var hp := PopsLevel(1, h + 1, loops);
    Join(SwitchCode(p, h), hc + (ht + hr), h + 1, Pops(1), hp, h, loops);
    HeightsJoin(hc + (ht + hr), h + 1, hp, h);
    hs := hc + (ht + hr) + hp;
  }

  lemma SwitchJoined(p: SwitchParts, disc: nat, tests: seq<Instr>, r: seq<Instr>)
    requires |p.tests| == |p.bodies| && tests == TestsFrom(p.tests, p.bodies, disc, 0)
    requires var bodies := BodiesFrom(p.bodies, |p.default|, 0);
             r == [J(Always, 1 + |bodies|)] + (bodies + p.default)
    ensures p.scrutinee + (tests + r) == SwitchCode(p, disc)
  {
    hide TestsFrom, BodiesFrom;
  }

  /** The jump to the default, the bodies and the default. */
  lemma {:induction false} CasesLevel(nm: Numerics, s: Stmt, cx: Context, p: SwitchParts)
      returns (r: seq<Instr>, hr: seq<int>)
    requires s.Switch? && Tidy(s, cx.depth) && Shaped(cx.locals, cx.depth) && KeepsBelow(cx)
    requires |p.bodies| == |s.cases|
    requires var inner := SwitchContext(cx);
             && CaseBodies(nm, s.cases, inner) == Ok(Bodies(p.bodies, inner.locals))
             && (if s.defaultBlock.Some?
                 then BlockCode(nm, s.defaultBlock.value, inner).Ok?
                      && BlockCode(nm, s.defaultBlock.value, inner).value.code == p.default
                 else p.default == [])
    ensures var bodies := BodiesFrom(p.bodies, |p.default|, 0);
            r == [J(Always, 1 + |bodies|)] + (bodies + p.default)
    ensures Between(r, hr, |cx.locals| + 1, |cx.locals| + 1, Keeps(cx.loops))
    ensures forall j :: 0 <= j < |p.bodies| ==>
              && 1 + BodiesSize(p.bodies[..j]) <= |hr|
              && HeightAt(hr, |cx.locals| + 1, 1 + BodiesSize(p.bodies[..j])) == |cx.locals| + 1
    decreases s, 0
  {
    hide Level, LevelAt, CaseBodies, BlockCode, BodiesFrom;
    var inner := SwitchContext(cx);
    var h, loops := |cx.locals| + 1, Keeps(cx.loops);
    ShapedBlock(cx.locals, cx.depth, [Local(None, cx.depth + 1, false, true)]);
    var hd := [];
    if s.defaultBlock.Some? {
      hd := BlockLevel(nm, s.defaultBlock.value, inner);
    } else {
      Nothing(h, loops);
    }
    var hb := BodiesLevel(nm, s.cases, inner, p.bodies, p.default, hd, 0);
    var bodies := BodiesFrom(p.bodies, |p.default|, 0);
    LevelLengths(bodies + p.default, hb, h, loops);
    EndOfBodies(p.bodies, |p.default|);
    Lead(1 + |bodies|, bodies + p.default, hb, h, loops);
    r, hr := [J(Always, 1 + |bodies|)] + (bodies + p.default), [h] + hb;
    BodyStarts(p.bodies, hb, h);
  }

  lemma EndOfBodies(bodies: seq<seq<Instr>>, tail: nat)
    ensures BodiesSize(bodies[..0]) == 0 && BodiesSize(bodies[..|bodies|]) == |BodiesFrom(bodies, tail, 0)|
  {
    BodiesLength(bodies, tail, 0);
    assert bodies[..0] == [] && bodies[..|bodies|] == bodies;
  }

  lemma BodyStarts(bodies: seq<seq<Instr>>, hb: seq<int>, h: int)
    requires BodiesSize(bodies[..0]) == 0
    requires forall j :: 0 <= j <= |bodies| ==>
               && 0 <= BodiesSize(bodies[..j]) - BodiesSize(bodies[..0]) <= |hb|
               && HeightAt(hb, h, BodiesSize(bodies[..j]) - BodiesSize(bodies[..0])) == h
    ensures forall j :: 0 <= j < |bodies| ==>
              1 + BodiesSize(bodies[..j]) <= |[h] + hb| && HeightAt([h] + hb, h, 1 + BodiesSize(bodies[..j])) == h
  {
    hide BodiesSize;
    forall j | 0 <= j < |bodies|
      ensures 1 + BodiesSize(bodies[..j]) <= |[h] + hb| && HeightAt([h] + hb, h, 1 + BodiesSize(bodies[..j])) == h
    {
      assert BodiesSize(bodies[..j]) - BodiesSize(bodies[..0]) == BodiesSize(bodies[..j]);
    }
  }

  lemma {:induction false} BodiesLength(bodies: seq<seq<Instr>>, tail: nat, i: nat)
    requires i <= |bodies|
    ensures |BodiesFrom(bodies, tail, i)| == BodiesSize(bodies) - BodiesSize(bodies[..i])
    decreases |bodies| - i
  {
    if i == |bodies| {
      assert bodies[..i] == bodies;
    } else {
      BodiesLength(bodies, tail, i + 1);
      BodiesSizeNext(bodies, i);
    }
  }

  // ---- Scripts ----

  lemma {:induction false} GlobalListLevel(nm: Numerics, items: seq<Stmt>) returns (hs: seq<int>)
    requires TidyList(items, 0) && GlobalListCode(nm, items, Start).Ok?
    ensures Between(GlobalListCode(nm, items, Start).value.code, hs, 1, 1, [])
    decreases items
  {
    hide Level, LevelAt, StmtCode;
    if items == [] {
      hs := [];
      Nothing(1, []);
    } else {
      var h, t := GlobalMeaning(nm, items, Env([], map[]), 0);
      hide GlobalListCode;
      var hh := StmtLevel(nm, items[0], None, Start);
      var ht := GlobalListLevel(nm, items[1..]);
      Join(h, hh, 1, t, ht, 1, []);
      HeightsJoin(hh, 1, ht, 1);
      hs := hh + ht;
    }
  }

  /** Every instruction of a script has one height; the script starts with its single slot and never runs off its
      end. */
  lemma ScriptLevel(nm: Numerics, items: seq<Stmt>, P: seq<Instr>) returns (hs: seq<int>)
    requires TidyList(items, 0) && ProgramCode(nm, items) == Ok(P)
    ensures Between(P, hs, 1, -1, [])
  {
    hide Level, LevelAt, GlobalListCode;
    var c := GlobalListCode(nm, items, Start).value.code;
    hs := GlobalListLevel(nm, items);
    Then(c, hs, 1, IPush(Undefined), []);
    Last(IReturn, 2, -1, []);
    Join(c + [IPush(Undefined)], hs + [1], 2, [IReturn], [2], -1, []);
    HeightsJoin(hs, 1, [1] + [2], -1);
    assert hs + [1] + [2] == hs + ([1] + [2]);
    hs := hs + [1] + [2];
  }

  /** The machine is where the heights say: at an instruction, with that many values on the stack. */
  ghost predicate AtHeight(P: seq<Instr>, hs: seq<int>, m: Machine) {
    |hs| == |P| && match m
                   case Running(ip, stack, _) => 0 <= ip < |P| && |stack| == hs[ip]
                   case Stuck => false
                   case _ => true
  }

  lemma StepKeepsHeight(nm: Numerics, P: seq<Instr>, hs: seq<int>, m: Machine)
    requires Level(P, hs, -1, []) && AtHeight(P, hs, m)
    ensures AtHeight(P, hs, StepOnce(nm, P, m))
  {
    if m.Running? {
      assert LevelAt(P, hs, -1, [], m.ip);
      hide ApplyBinary, ApplyUnary;
    }
  }

  /** Whatever the values are, every run keeps to the heights; in particular no run ever underflows, reads a slot that
      is not there or leaves the code. */
  lemma {:induction false} RunKeepsHeight(nm: Numerics, P: seq<Instr>, hs: seq<int>, m: Machine, n: nat)
    requires Level(P, hs, -1, []) && AtHeight(P, hs, m)
    ensures AtHeight(P, hs, RunN(nm, P, m, n))
    decreases n
  {
    if n > 0 {
      StepKeepsHeight(nm, P, hs, m);
      RunKeepsHeight(nm, P, hs, StepOnce(nm, P, m), n - 1);
    }
  }

  /** No run of a script the compiler accepts reaches a state in which the virtual machine would panic. */
  lemma NeverStuck(nm: Numerics, items: seq<Stmt>, P: seq<Instr>, callee: Value, g: Globals, n: nat)
    requires TidyList(items, 0) && ProgramCode(nm, items) == Ok(P)
    ensures !RunN(nm, P, Boot(callee, g), n).Stuck?
  {
    hide RunN, ProgramCode, TidyList;
    var hs := ScriptLevel(nm, items, P);
    assert P != [] by { assert HeightAt(hs, -1, 0) == 1; }
    RunKeepsHeight(nm, P, hs, Boot(callee, g), n);
  }
}
