/** How a `switch` takes shape in the chunk: every comparison ends in a jump that is aimed at its body when the body
    begins, and every body in a jump that is aimed at the end when all of them are there. */
module SwitchLayout {
  import opened Syntax
  import opened Values
  import opened Bytecode
  import opened Codegen
  import opened Emission

  /** Pieces of code, each followed by a jump to its target. */
  function Blocks(pieces: seq<seq<Instr>>, targets: seq<int>, base: int): (r: seq<Instr>)
    requires |pieces| == |targets|
    ensures |r| == BodiesSize(pieces)
    decreases |pieces|
  {
    var n := |pieces|;
    if n == 0 then []
    else
      Blocks(pieces[..n - 1], targets[..n - 1], base) + pieces[n - 1]
      + [J(Always, targets[n - 1] - (base + BodiesSize(pieces) - 1))]
  }

  /** The position of the jump behind piece `k`. */
  function EndOf(pieces: seq<seq<Instr>>, base: nat, k: nat): nat
    requires k < |pieces|
  {
    assert pieces[..k + 1][..k] == pieces[..k];
    base + BodiesSize(pieces[..k]) + |pieces[k]|
  }

  function EndsOf(pieces: seq<seq<Instr>>, base: nat): (r: seq<nat>)
    ensures |r| == |pieces| && forall k :: 0 <= k < |r| ==> r[k] == EndOf(pieces, base, k)
  {
    seq(|pieces|, k requires 0 <= k < |pieces| => EndOf(pieces, base, k))
  }

  function Zeros(n: nat): (r: seq<int>)
    ensures |r| == n && forall k :: 0 <= k < n ==> r[k] == 0
  {
    seq(n, _ => 0)
  }

  lemma BlocksUnfold(pieces: seq<seq<Instr>>, targets: seq<int>, base: nat)
    requires 0 < |pieces| == |targets|
    ensures var n := |pieces| - 1;
            && Blocks(pieces, targets, base)
                 == Blocks(pieces[..n], targets[..n], base) + pieces[n]
                   + [J(Always, targets[n] - EndOf(pieces, base, n))]
            && EndOf(pieces, base, n) - base == |Blocks(pieces[..n], targets[..n], base)| + |pieces[n]|
            && BodiesSize(pieces) == EndOf(pieces, base, n) - base + 1
  {
    assert pieces[..|pieces| - 1 + 1] == pieces;
  }

  lemma {:induction false} BlocksPatch(pieces: seq<seq<Instr>>, targets: seq<int>, base: nat, k: nat, x: int)
    requires k < |pieces| == |targets|
    ensures var at := EndOf(pieces, base, k) - base;
            && at < BodiesSize(pieces)
            && Blocks(pieces, targets, base)[at] == J(Always, targets[k] - (base + at))
            && Blocks(pieces, targets, base)[at := J(Always, x - (base + at))] == Blocks(pieces, targets[k := x], base)
    decreases |pieces|
  {
    var n := |pieces| - 1;
    var at := EndOf(pieces, base, k) - base;
    BlocksUnfold(pieces, targets, base);
    BlocksUnfold(pieces, targets[k := x], base);
    if k == n {
      assert targets[k := x][..n] == targets[..n];
      hide Blocks, EndOf, BodiesSize, J;
      LastPatch(Blocks(pieces[..n], targets[..n], base), pieces[n], J(Always, targets[n] - (base + at)),
                J(Always, x - (base + at)));
    } else {
      BlocksPatch(pieces[..n], targets[..n], base, k, x);
      assert pieces[..n][..k] == pieces[..k];
      assert targets[k := x][..n] == targets[..n][k := x];
      hide Blocks, BodiesSize, J;
      InnerPatch(Blocks(pieces[..n], targets[..n], base), pieces[n], [J(Always, targets[n] - EndOf(pieces, base, n))],
                 at,
                 J(Always, x - (base + at)));
    }
  }

  lemma LastPatch(a: seq<Instr>, b: seq<Instr>, x: Instr, y: Instr)
    ensures (a + b + [x])[|a| + |b|] == x && (a + b + [x])[|a| + |b| := y] == a + b + [y]
  {
  }

  lemma InnerPatch(a: seq<Instr>, b: seq<Instr>, c: seq<Instr>, at: nat, y: Instr)
    requires at < |a|
    ensures (a + b + c)[at] == a[at] && (a + b + c)[at := y] == a[at := y] + b + c
  {
  }

  lemma BlocksMore(pieces: seq<seq<Instr>>, targets: seq<int>, base: nat, b: seq<Instr>, x: int)
    requires |pieces| == |targets|
    ensures Blocks(pieces + [b], targets + [x], base)
              == Blocks(pieces, targets, base) + b + [J(Always, x - (base + BodiesSize(pieces) + |b|))]
    ensures EndsOf(pieces + [b], base) == EndsOf(pieces, base) + [base + BodiesSize(pieces) + |b|]
    ensures BodiesSize(pieces + [b]) == BodiesSize(pieces) + |b| + 1
  {
    var more := pieces + [b];
    assert more[..|pieces|] == pieces && (targets + [x])[..|pieces|] == targets;
    forall k | 0 <= k < |more|
      ensures EndsOf(more, base)[k] == (EndsOf(pieces, base) + [base + BodiesSize(pieces) + |b|])[k]
    {
      assert k < |pieces| ==> more[..k] == pieces[..k];
    }
  }

  function TestPiece(t: seq<Instr>, disc: nat): seq<Instr> {
    [IGetLocal(disc)] + t + [IBinary(StrictEqOp)] + [J(IfFalse, 2)]
  }

  function TestPieces(tests: seq<seq<Instr>>, disc: nat): (r: seq<seq<Instr>>)
    ensures |r| == |tests| && forall k :: 0 <= k < |r| ==> r[k] == TestPiece(tests[k], disc)
  {
    seq(|tests|, k requires 0 <= k < |tests| => TestPiece(tests[k], disc))
  }

  /** Where the bodies begin. */
  function Starts(codes: seq<seq<Instr>>, base: int): (r: seq<int>)
    ensures |r| == |codes| && forall k :: 0 <= k < |r| ==> r[k] == base + BodiesSize(codes[..k])
  {
    seq(|codes|, k requires 0 <= k < |codes| => base + BodiesSize(codes[..k]))
  }

  /** With every jump aimed at the end, the bodies are those of `Codegen`. */
  lemma {:induction false} BodiesLaid(bodies: seq<seq<Instr>>, targets: seq<int>, base: int, tail: nat, i: nat)
    requires i <= |bodies| == |targets|
    requires forall k :: 0 <= k < |targets| ==> targets[k] == base + BodiesSize(bodies) + tail
    ensures Blocks(bodies, targets, base) == Blocks(bodies[..i], targets[..i], base) + BodiesFrom(bodies, tail, i)
    decreases |bodies| - i
  {
    if i == |bodies| {
      assert bodies[..i] == bodies && targets[..i] == targets;
    } else {
      BodiesLaid(bodies, targets, base, tail, i + 1);
      assert bodies[..i + 1][..i] == bodies[..i] && targets[..i + 1][..i] == targets[..i];
      BodiesSizeNext(bodies, i);
      var before, rest := Blocks(bodies[..i], targets[..i], base), BodiesFrom(bodies, tail, i + 1);
      assert Blocks(bodies[..i + 1], targets[..i + 1], base) == before + bodies[i] + [J(Always, 1 + |rest| + tail)];
      Regrouped(before, bodies[i], [J(Always, 1 + |rest| + tail)], rest);
    }
  }

  lemma Regrouped(a: seq<Instr>, b: seq<Instr>, c: seq<Instr>, d: seq<Instr>)
    ensures a + b + c + d == a + (b + c + d)
  {
  }

  /** With every test aimed at its body, the tests are those of `Codegen`. */
  lemma {:induction false} TestsLaid(tests: seq<seq<Instr>>, bodies: seq<seq<Instr>>, disc: nat, base: nat, i: nat)
    requires i <= |tests| == |bodies|
    ensures var pieces := TestPieces(tests, disc);
            var targets := Starts(bodies, base + BodiesSize(pieces) + 1);
            && Blocks(pieces, targets, base)
              == Blocks(pieces[..i], targets[..i], base) + TestsFrom(tests, bodies, disc, i)
            && |TestsFrom(tests, bodies, disc, i)| == BodiesSize(pieces) - BodiesSize(pieces[..i])
    decreases |tests| - i
  {
    hide Blocks, TestsFrom, TestPieces, Starts, BodiesSize, J;
    var pieces := TestPieces(tests, disc);
    var targets := Starts(bodies, base + BodiesSize(pieces) + 1);
    if i == |tests| {
      TestsDone(tests, bodies, disc);
      assert pieces[..i] == pieces && targets[..i] == targets;
      var all := Blocks(pieces, targets, base);
      assert all + [] == all;
    } else {
      TestsLaid(tests, bodies, disc, base, i + 1);
      TestsUnfolded(tests, bodies, disc, i);
      BlocksStep(pieces, targets, base, i);
      BodiesSizeNext(pieces, i);
      var rest := TestsFrom(tests, bodies, disc, i + 1);
      Regrouped(Blocks(pieces[..i], targets[..i], base), pieces[i], [J(Always, |rest| + 2 + BodiesSize(bodies[..i]))],
                rest);
    }
  }

  lemma TestsDone(tests: seq<seq<Instr>>, bodies: seq<seq<Instr>>, disc: nat)
    requires |tests| == |bodies|
    ensures TestsFrom(tests, bodies, disc, |tests|) == []
  {
  }

  lemma BlocksStep(pieces: seq<seq<Instr>>, targets: seq<int>, base: nat, i: nat)
    requires i < |pieces| == |targets|
    ensures Blocks(pieces[..i + 1], targets[..i + 1], base)
              == Blocks(pieces[..i], targets[..i], base) + pieces[i]
                 + [J(Always, targets[i] - (base + BodiesSize(pieces[..i]) + |pieces[i]|))]
  {
    assert pieces[..i + 1][..i] == pieces[..i] && targets[..i + 1][..i] == targets[..i];
  }

  lemma TestsUnfolded(tests: seq<seq<Instr>>, bodies: seq<seq<Instr>>, disc: nat, i: nat)
    requires i < |tests| == |bodies|
    ensures var rest := TestsFrom(tests, bodies, disc, i + 1);
            TestsFrom(tests, bodies, disc, i)
              == TestPieces(tests, disc)[i] + [J(Always, |rest| + 2 + BodiesSize(bodies[..i]))] + rest
  {
  }

  /** A `switch` under construction: tests, the jump to the default, and the bodies so far. */
  function SwitchView(v: seq<Instr>, pieces: seq<seq<Instr>>, targets: seq<int>,
                      codes: seq<seq<Instr>>): (r: seq<Instr>)
    requires |pieces| == |targets|
    ensures |r| == |v| + BodiesSize(pieces) + 1 + BodiesSize(codes)
  {
    var base := |v| + BodiesSize(pieces) + 1;
    v + Blocks(pieces, targets, |v|) + [Raw(Always, base - 1)] + Blocks(codes, Zeros(|codes|), base)
  }

  lemma SwitchPatch(v: seq<Instr>, pieces: seq<seq<Instr>>, targets: seq<int>, codes: seq<seq<Instr>>, k: nat, x: int)
    requires k < |pieces| == |targets|
    ensures var at := EndOf(pieces, |v|, k);
            && at < |SwitchView(v, pieces, targets, codes)|
            && SwitchView(v, pieces, targets, codes)[at] == J(Always, targets[k] - at)
            && SwitchView(v, pieces, targets, codes)[at := J(Always, x - at)]
              == SwitchView(v, pieces, targets[k := x], codes)
  {
    BlocksPatch(pieces, targets, |v|, k, x);
    var at := EndOf(pieces, |v|, k);
    var blocks := Blocks(pieces, targets, |v|);
    hide Blocks, EndOf, BodiesSize, Zeros;
    var base := |v| + BodiesSize(pieces) + 1;
    Within(v, blocks, [Raw(Always, base - 1)], Blocks(codes, Zeros(|codes|), base), at, J(Always, x - at));
  }

  lemma Within(v: seq<Instr>, a: seq<Instr>, b: seq<Instr>, c: seq<Instr>, at: nat, x: Instr)
    requires |v| <= at < |v| + |a|
    ensures (v + a + b + c)[at] == a[at - |v|]
    ensures (v + a + b + c)[at := x] == v + a[at - |v| := x] + b + c
  {
  }

  lemma SwitchBody(v: seq<Instr>, pieces: seq<seq<Instr>>, targets: seq<int>, codes: seq<seq<Instr>>, b: seq<Instr>)
    requires |pieces| == |targets|
    ensures var at := |SwitchView(v, pieces, targets, codes)| + |b|;
            SwitchView(v, pieces, targets, codes) + b + [Raw(Always, at)] == SwitchView(v, pieces, targets, codes + [b])
  {
    var base := |v| + BodiesSize(pieces) + 1;
    BlocksMore(codes, Zeros(|codes|), base, b, 0);
    assert Zeros(|codes|) + [0] == Zeros(|codes + [b]|);
    hide Blocks, BodiesSize, Zeros;
    var front := v + Blocks(pieces, targets, |v|) + [Raw(Always, base - 1)];
    Appended3(front, Blocks(codes, Zeros(|codes|), base), b,
              [Raw(Always, base + BodiesSize(codes) + |b|)]);
  }

  /** Case values already compiled, before those still to come. */
  function PrefixedTests(done: seq<seq<Instr>>, rest: Result<seq<seq<Instr>>, CompileError>)
      : Result<seq<seq<Instr>>, CompileError>
  {
    match rest
    case Ok(ts) => Ok(done + ts)
    case Err(e) => Err(e)
  }

  lemma TestsStart(nm: Numerics, cases: seq<SwitchCase>, locals: seq<Local>)
    ensures CaseTests(nm, cases, locals) == PrefixedTests([], CaseTests(nm, cases[0..], locals))
    ensures cases[|cases|..] == [] && CaseTests(nm, [], locals) == Ok([])
  {
    assert cases[0..] == cases;
    var r := CaseTests(nm, cases, locals);
    assert r.Ok? ==> [] + r.value == r.value;
  }

  lemma TestsNext(nm: Numerics, cases: seq<SwitchCase>, i: nat, locals: seq<Local>, done: seq<seq<Instr>>)
    requires i < |cases|
    ensures PrefixedTests(done, CaseTests(nm, cases[i..], locals))
              == (match ExprCode(nm, cases[i].value, locals)
                  case Err(e) => Err(e)
                  case Ok(t) => PrefixedTests(done + [t], CaseTests(nm, cases[i + 1..], locals)))
  {
    hide ExprCode;
    assert cases[i..][1..] == cases[i + 1..];
    var t, rest := ExprCode(nm, cases[i].value, locals), CaseTests(nm, cases[i + 1..], locals);
    if t.Ok? && rest.Ok? {
      assert done + ([t.value] + rest.value) == done + [t.value] + rest.value;
    }
  }

  function PrefixedBodies(done: seq<seq<Instr>>, rest: Result<Bodies, CompileError>): Result<Bodies, CompileError> {
    match rest
    case Ok(b) => Ok(Bodies(done + b.codes, b.locals))
    case Err(e) => Err(e)
  }

  lemma BodiesStart(nm: Numerics, cases: seq<SwitchCase>, cx: Context)
    ensures CaseBodies(nm, cases, cx) == PrefixedBodies([], CaseBodies(nm, cases[0..], cx))
  {
    assert cases[0..] == cases;
    var r := CaseBodies(nm, cases, cx);
    assert r.Ok? ==> [] + r.value.codes == r.value.codes;
  }

  lemma BodiesEnd(nm: Numerics, cases: seq<SwitchCase>, cx: Context, done: seq<seq<Instr>>)
    ensures PrefixedBodies(done, CaseBodies(nm, cases[|cases|..], cx)) == Ok(Bodies(done, cx.locals))
  {
    assert cases[|cases|..] == [] && done + [] == done;
  }

  lemma BodiesNext(nm: Numerics, cases: seq<SwitchCase>, i: nat, cx: Context, done: seq<seq<Instr>>)
    requires i < |cases|
    ensures PrefixedBodies(done, CaseBodies(nm, cases[i..], cx))
              == (match BlockCode(nm, cases[i].body, cx)
                  case Err(e) => Err(e)
                  case Ok(h) =>
                    PrefixedBodies(done + [h.code], CaseBodies(nm, cases[i + 1..], cx.(locals := h.locals))))
  {
    hide BlockCode;
    assert cases[i..][1..] == cases[i + 1..];
    var h := BlockCode(nm, cases[i].body, cx);
    if h.Ok? {
      var rest := CaseBodies(nm, cases[i + 1..], cx.(locals := h.value.locals));
      if rest.Ok? {
        assert done + ([h.value.code] + rest.value.codes) == done + [h.value.code] + rest.value.codes;
      }
    }
  }

  lemma SwitchByPieces(nm: Numerics, s: Stmt, cx: Context)
    requires s.Switch?
    ensures StmtCode(nm, s, None, cx)
              == (var p :- SwitchPieces(nm, s, cx);
                  Ok(LeaveCode(Gen(SwitchCode(p, |cx.locals|), p.locals), cx.depth + 1)))
  {
    hide SwitchPieces, SwitchCode;
  }

  lemma SwitchSpec(nm: Numerics, s: Stmt, cx: Context)
    requires s.Switch?
    ensures StmtCode(nm, s, None, cx)
              == (var inner := SwitchContext(cx);
                  var ec :- ExprCode(nm, s.scrutinee, cx.locals);
                  var g :- CasesCode(nm, s, ec, inner, |cx.locals|);
                  Ok(LeaveCode(g, cx.depth + 1)))
  {
    SwitchByPieces(nm, s, cx);
    hide ExprCode, CaseTests, CaseBodies, BlockCode, SwitchCode, StmtCode, LeaveCode;
  }

  lemma NothingYet(v: seq<Instr>, disc: nat)
    ensures TestPieces([], disc) == [] && v + Blocks([], Zeros(0), |v|) == v && EndsOf([], |v|) == []
  {
  }

  lemma OneMoreTest(v: seq<Instr>, done: seq<seq<Instr>>, t: seq<Instr>, disc: nat)
    ensures var pieces, more := TestPieces(done, disc), TestPieces(done + [t], disc);
            var view := v + Blocks(pieces, Zeros(|done|), |v|);
            var at := |view| + |TestPiece(t, disc)|;
            && v + Blocks(more, Zeros(|done + [t]|), |v|) == view + TestPiece(t, disc) + [Raw(Always, at)]
            && EndsOf(more, |v|) == EndsOf(pieces, |v|) + [at]
  {
    var pieces, piece := TestPieces(done, disc), TestPiece(t, disc);
    assert TestPieces(done + [t], disc) == pieces + [piece];
    assert Zeros(|done + [t]|) == Zeros(|done|) + [0];
    BlocksMore(pieces, Zeros(|done|), |v|, piece, 0);
    hide TestPiece, Blocks, BodiesSize;
    Appended3(v, Blocks(pieces, Zeros(|done|), |v|), piece, [Raw(Always, |v| + BodiesSize(pieces) + |piece|)]);
  }

  lemma NoBodiesYet(n: nat, base: nat)
    ensures Starts([], base) + Zeros(n) == Zeros(n) && EndsOf([], base) == []
  {
  }

  /** The targets of the tests once `done` and the next body have begun. */
  function Aimed(done: seq<seq<Instr>>, base: int, n: nat): (r: seq<int>)
    requires |done| < n
    ensures |r| == n
  {
    Starts(done, base) + [base + BodiesSize(done)] + Zeros(n - |done| - 1)
  }

  lemma AimAt(v: seq<Instr>, pieces: seq<seq<Instr>>, done: seq<seq<Instr>>, jumps: seq<nat>)
    requires |done| < |pieces| && jumps == EndsOf(pieces, |v|)
    ensures var base := |v| + BodiesSize(pieces) + 1;
            var at := jumps[|done|];
            var view := SwitchView(v, pieces, Starts(done, base) + Zeros(|pieces| - |done|), done);
            && at < |view| && view[at].IJump? && view[at].kind.Always? && view[at].target.Rel?
            && view[at := J(Always, |view| - at)] == SwitchView(v, pieces, Aimed(done, base, |pieces|), done)
  {
    var base := |v| + BodiesSize(pieces) + 1;
    var targets := Starts(done, base) + Zeros(|pieces| - |done|);
    SwitchPatch(v, pieces, targets, done, |done|, base + BodiesSize(done));
    assert targets[|done| := base + BodiesSize(done)] == Aimed(done, base, |pieces|);
  }

  lemma OneMoreBody(v: seq<Instr>, pieces: seq<seq<Instr>>, done: seq<seq<Instr>>, b: seq<Instr>)
    requires |done| < |pieces|
    ensures var base := |v| + BodiesSize(pieces) + 1;
            var view := SwitchView(v, pieces, Aimed(done, base, |pieces|), done);
            var at := |view| + |b|;
            && view + b + [Raw(Always, at)]
                 == SwitchView(v, pieces, Starts(done + [b], base) + Zeros(|pieces| - |done + [b]|), done + [b])
            && EndsOf(done + [b], base) == EndsOf(done, base) + [at]
  {
    hide SwitchView, BodiesSize, EndsOf, Starts;
    var base := |v| + BodiesSize(pieces) + 1;
    SwitchBody(v, pieces, Aimed(done, base, |pieces|), done, b);
    BlocksMore(done, Zeros(|done|), base, b, 0);
    StartsMore(done, b, base);
  }

  lemma StartsMore(done: seq<seq<Instr>>, b: seq<Instr>, base: int)
    ensures Starts(done + [b], base) == Starts(done, base) + [base + BodiesSize(done)]
  {
    hide BodiesSize;
    assert (done + [b])[..|done|] == done;
    assert forall k :: 0 <= k < |done| ==> (done + [b])[..k] == done[..k];
  }

  lemma NoneLeft(done: seq<seq<Instr>>, base: int)
    ensures Starts(done, base) + Zeros(0) == Starts(done, base)
  {
  }

  /** Jumps behind the pieces up to `k` aimed at `end`, the rest not yet. */
  function Ended(n: nat, k: nat, end: int): (r: seq<int>)
    requires k <= n
    ensures |r| == n && forall j :: 0 <= j < n ==> r[j] == if j < k then end else 0
  {
    seq(n, j => if j < k then end else 0)
  }

  lemma EndAt(front: seq<Instr>, codes: seq<seq<Instr>>, tail: seq<Instr>, jumps: seq<nat>, k: nat, end: nat)
    requires k < |codes| && jumps == EndsOf(codes, |front|)
    ensures var view := front + Blocks(codes, Ended(|codes|, k, end), |front|) + tail;
            var at := jumps[k];
            && at < |view| && view[at].IJump? && view[at].kind.Always? && view[at].target.Rel?
            && view[at := J(Always, end - at)] == front + Blocks(codes, Ended(|codes|, k + 1, end), |front|) + tail
  {
    BlocksPatch(codes, Ended(|codes|, k, end), |front|, k, end);
    assert Ended(|codes|, k, end)[k := end] == Ended(|codes|, k + 1, end);
    hide Blocks, BodiesSize, EndOf, Ended;
    var at := jumps[k];
    assert at == EndOf(codes, |front|, k);
    var blocks := Blocks(codes, Ended(|codes|, k, end), |front|);
    Within(front, blocks, tail, [], at, J(Always, end - at));
    assert front + blocks + tail + [] == front + blocks + tail;
    var patched := blocks[at - |front| := J(Always, end - at)];
    assert front + patched + tail + [] == front + patched + tail;
  }

  function DefaultCode(nm: Numerics, s: Stmt, cx: Context): Result<Gen, CompileError>
    requires s.Switch?
  {
    if s.defaultBlock.Some? then BlockCode(nm, s.defaultBlock.value, cx) else Ok(Gen([], cx.locals))
  }

  function CasesCode(nm: Numerics, s: Stmt, ec: seq<Instr>, cx: Context, disc: nat): Result<Gen, CompileError>
    requires s.Switch?
  {
    var tests :- CaseTests(nm, s.cases, cx.locals);
    var bs :- CaseBodies(nm, s.cases, cx);
    var dg :- DefaultCode(nm, s, cx.(locals := bs.locals));
    Ok(Gen(SwitchCode(SwitchParts(ec, tests, bs.codes, dg.code, dg.locals), disc), dg.locals))
  }

  lemma SwitchBegins(v: seq<Instr>, pieces: seq<seq<Instr>>)
    ensures var tests := v + Blocks(pieces, Zeros(|pieces|), |v|);
            tests + [Raw(Always, |tests|)] == SwitchView(v, pieces, Zeros(|pieces|), [])
  {
  }

  lemma SwitchSplits(v: seq<Instr>, pieces: seq<seq<Instr>>, codes: seq<seq<Instr>>)
    requires |pieces| == |codes|
    ensures var base := |v| + BodiesSize(pieces) + 1;
            && SwitchView(v, pieces, Starts(codes, base), codes)
                 == v + (Blocks(pieces, Starts(codes, base), |v|) + [Raw(Always, base - 1)]
                         + Blocks(codes, Zeros(|codes|), base))
            && |Blocks(pieces, Starts(codes, base), |v|)| == base - 1 - |v|
            && |Blocks(codes, Zeros(|codes|), base)| == BodiesSize(codes)
  {
    var base := |v| + BodiesSize(pieces) + 1;
    Appended3(v, Blocks(pieces, Starts(codes, base), |v|), [Raw(Always, base - 1)],
              Blocks(codes, Zeros(|codes|), base));
  }

  /** The finished pieces are the code of the whole. */
  lemma SwitchLaid(v0: seq<Instr>, p: SwitchParts, disc: nat)
    requires |p.tests| == |p.bodies|
    ensures var v := v0 + p.scrutinee;
            var pieces := TestPieces(p.tests, disc);
            var base := |v| + BodiesSize(pieces) + 1;
            var end := base + BodiesSize(p.bodies) + |p.default|;
            v + Blocks(pieces, Starts(p.bodies, base), |v|) + [J(Always, 1 + BodiesSize(p.bodies))]
              + Blocks(p.bodies, Ended(|p.bodies|, |p.bodies|, end), base) + p.default
              == v0 + SwitchCode(p, disc)
  {
    hide *;
    var v := v0 + p.scrutinee;
    TestsWhole(p.tests, p.bodies, disc, |v|);
    BodiesWhole(p.bodies, |v| + BodiesSize(TestPieces(p.tests, disc)) + 1, |p.default|);
    SwitchPiecesJoined(v0, p, disc);
  }

  lemma TestsWhole(tests: seq<seq<Instr>>, bodies: seq<seq<Instr>>, disc: nat, base: nat)
    requires |tests| == |bodies|
    ensures var pieces := TestPieces(tests, disc);
            Blocks(pieces, Starts(bodies, base + BodiesSize(pieces) + 1), base) == TestsFrom(tests, bodies, disc, 0)
  {
    var pieces := TestPieces(tests, disc);
    var targets := Starts(bodies, base + BodiesSize(pieces) + 1);
    TestsLaid(tests, bodies, disc, base, 0);
    assert pieces[..0] == [] && targets[..0] == [] && Blocks([], [], base) == [];
  }

  lemma BodiesWhole(bodies: seq<seq<Instr>>, base: nat, tail: nat)
    ensures Blocks(bodies, Ended(|bodies|, |bodies|, base + BodiesSize(bodies) + tail), base)
              == BodiesFrom(bodies, tail, 0)
  {
    var ends := Ended(|bodies|, |bodies|, base + BodiesSize(bodies) + tail);
    BodiesLaid(bodies, ends, base, tail, 0);
    assert bodies[..0] == [] && ends[..0] == [] && Blocks([], [], base) == [];
  }

  lemma SwitchPiecesJoined(v0: seq<Instr>, p: SwitchParts, disc: nat)
    requires |p.tests| == |p.bodies|
    ensures var bodies := BodiesFrom(p.bodies, |p.default|, 0);
            v0 + p.scrutinee + TestsFrom(p.tests, p.bodies, disc, 0) + [J(Always, 1 + |bodies|)] + bodies + p.default
              == v0 + SwitchCode(p, disc)
  {
    var bodies := BodiesFrom(p.bodies, |p.default|, 0);
    hide TestsFrom, BodiesFrom;
    Appended5(v0, p.scrutinee, TestsFrom(p.tests, p.bodies, disc, 0), [J(Always, 1 + |bodies|)], bodies, p.default);
  }
}
