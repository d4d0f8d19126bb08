/** A chunk being written: operations appended at the end, jumps patched later, and the jumps out of unfinished loops
    kept on the loops' lists. `Reading` says what instructions such a chunk stands for. */
module Emission {
  import opened Syntax
  import opened Bytecode
  import opened Codegen

  type Status = Result<(), CompileError>

  class Chunk {
    var code: seq<Op>
    var constants: seq<Constant>

    constructor ()
      ensures code == [] && constants == []
    {
      code, constants := [], [];
    }

    method PushOp(op: Op) returns (at: nat)
      modifies this`code
      ensures code == old(code) + [op] && at == |old(code)|
    {
      code := code + [op];
      at := |code| - 1;
    }

    method AddConstant(value: Constant) returns (idx: nat)
      modifies this`constants
      ensures constants == old(constants) + [value] && idx == |old(constants)|
    {
      constants := constants + [value];
      idx := |constants| - 1;
    }

    method PatchJump(at: nat, target: nat)
      requires at < |code| && code[at].Jump?
      modifies this`code
      ensures code == old(code)[at := Jump(old(code)[at].kind, target)]
    {
      code := code[at := code[at].(target := target)];
    }
  }

  /** A loop, or a labelled statement, being compiled, with the positions of the jumps out of it. */
  datatype LoopCtx = LoopCtx(localsCount: nat, breakJumps: seq<nat>, continueJumps: seq<nat>, tag: Option<Name>,
                             isLoop: bool)

  function Info(l: LoopCtx): LoopInfo {
    LoopInfo(l.localsCount, l.tag, l.isLoop)
  }

  function Infos(loops: seq<LoopCtx>): (r: seq<LoopInfo>)
    ensures |r| == |loops| && forall i :: 0 <= i < |loops| ==> r[i] == Info(loops[i])
  {
    seq(|loops|, i requires 0 <= i < |loops| => Info(loops[i]))
  }

  ghost predicate OpsOk(ops: seq<Op>, consts: seq<Constant>) {
    forall k :: 0 <= k < |ops| ==> OpOk(ops[k], consts)
  }

  ghost function ReadAt(ops: seq<Op>, consts: seq<Constant>, pending: map<nat, Target>, k: nat): Instr
    requires k < |ops| && OpOk(ops[k], consts)
  {
    if k in pending then IJump(Always, pending[k]) else Lift(ops[k], consts, k)
  }

  /** The instructions a chunk stands for, a jump out of an unfinished loop being read as symbolic. */
  ghost function Reading(ops: seq<Op>, consts: seq<Constant>, pending: map<nat, Target>): (r: seq<Instr>)
    requires OpsOk(ops, consts)
    ensures |r| == |ops| && forall k :: 0 <= k < |ops| ==> r[k] == ReadAt(ops, consts, pending, k)
  {
    seq(|ops|, k requires 0 <= k < |ops| => ReadAt(ops, consts, pending, k))
  }

  ghost predicate Listed(loops: seq<LoopCtx>, j: nat, t: Target) {
    match t
    case BreakOf(i) => i < |loops| && j in loops[i].breakJumps
    case ContinueOf(i) => i < |loops| && j in loops[i].continueJumps
    case Rel(_) => false
  }

  /** The jumps on the loops' lists are exactly the pending ones. */
  ghost predicate Tracks(loops: seq<LoopCtx>, pending: map<nat, Target>, ops: seq<Op>) {
    && (forall j :: j in pending ==> j < |ops| && ops[j].Jump? && ops[j].kind.Always? && Listed(loops, j, pending[j]))
    && (forall i, j :: 0 <= i < |loops| && j in loops[i].breakJumps ==> j in pending && pending[j] == BreakOf(i))
    && (forall i, j :: 0 <= i < |loops| && j in loops[i].continueJumps ==> j in pending && pending[j] == ContinueOf(i))
    && (forall i :: 0 <= i < |loops| && !loops[i].isLoop ==> loops[i].continueJumps == [])
  }

  lemma Appended(v: seq<Instr>, a: seq<Instr>, b: seq<Instr>)
    ensures v + a + b == v + (a + b)
  {
  }

  lemma Appended3(v: seq<Instr>, a: seq<Instr>, b: seq<Instr>, c: seq<Instr>)
    ensures v + a + b + c == v + (a + b + c)
  {
  }

  lemma Appended4(v: seq<Instr>, a: seq<Instr>, b: seq<Instr>, c: seq<Instr>, d: seq<Instr>)
    ensures v + a + b + c + d == v + (a + b + c + d)
  {
  }

  lemma Appended5(v: seq<Instr>, a: seq<Instr>, b: seq<Instr>, c: seq<Instr>, d: seq<Instr>, e: seq<Instr>)
    ensures v + a + b + c + d + e == v + (a + b + c + d + e)
  {
    Appended4(v, a, b, c, d);
    Appended(v, a + b + c + d, e);
  }

  lemma Appended7(v: seq<Instr>, a: seq<Instr>, b: seq<Instr>, c: seq<Instr>, d: seq<Instr>, e: seq<Instr>,
                  f: seq<Instr>, g: seq<Instr>)
    ensures v + a + b + c + d + e + f + g == v + (a + b + c + d + e + f + g)
  {
    Appended4(v, a, b, c, d);
    Appended4(v, a + b + c + d, e, f, g);
  }

  /** A jump emitted at `at` before its target is known. */
  function Raw(kind: JumpKind, at: int): Instr {
    J(kind, -at)
  }

  lemma Patched(v: seq<Instr>, a: seq<Instr>, x: Instr, b: seq<Instr>, y: Instr)
    ensures (v + (a + [x] + b))[|v| + |a|] == x
    ensures (v + (a + [x] + b))[|v| + |a| := y] == v + (a + [y] + b)
  {
  }

  /** Code appended piece by piece, regrouped around a jump in it. */
  lemma Regroup(v: seq<Instr>, a: seq<Instr>, x: Instr, b: seq<Instr>, c: seq<Instr>)
    ensures v + a + [x] + b + c == v + (a + [x] + (b + c))
    ensures v + (a + [x] + b) + c == v + (a + [x] + (b + c))
  {
  }

  lemma RegroupSecond(v: seq<Instr>, a: seq<Instr>, x: Instr, b: seq<Instr>, y: Instr, c: seq<Instr>)
    ensures v + (a + [x] + (b + [y])) + c == v + ((a + [x] + b) + [y] + c)
  {
  }

  function WithJump(l: LoopCtx, t: Target, jump: nat): LoopCtx {
    if t.BreakOf? then l.(breakJumps := l.breakJumps + [jump]) else l.(continueJumps := l.continueJumps + [jump])
  }

  /** One more jump on the list of loop `i`. */
  lemma ListsMore(ops: seq<Op>, consts: seq<Constant>, loops: seq<LoopCtx>, pending: map<nat, Target>, i: nat,
                  t: Target)
    requires OpsOk(ops, consts) && Tracks(loops, pending, ops) && i < |loops|
    requires t == BreakOf(i) || (t == ContinueOf(i) && loops[i].isLoop)
    ensures var ops', loops' := ops + [Jump(Always, 0)], loops[i := WithJump(loops[i], t, |ops|)];
            && OpsOk(ops', consts) && Tracks(loops', pending[|ops| := t], ops')
            && Reading(ops', consts, pending[|ops| := t]) == Reading(ops, consts, pending) + [IJump(Always, t)]
  {
    ReadsMore(ops, consts, pending, t);
    hide Reading, OpsOk;
    assert |ops| !in pending;
    var ops', loops' := ops + [Jump(Always, 0)], loops[i := WithJump(loops[i], t, |ops|)];
    forall j | j in pending
      ensures Listed(loops', j, pending[j])
    {
      assert Listed(loops, j, pending[j]);
    }
  }

  lemma ReadsMore(ops: seq<Op>, consts: seq<Constant>, pending: map<nat, Target>, t: Target)
    requires OpsOk(ops, consts)
    ensures OpsOk(ops + [Jump(Always, 0)], consts)
    ensures Reading(ops + [Jump(Always, 0)], consts, pending[|ops| := t])
              == Reading(ops, consts, pending) + [IJump(Always, t)]
  {
  }

  /** The pending jumps that are not aimed at loop `idx`. */
  ghost function Without(pending: map<nat, Target>, idx: nat): map<nat, Target> {
    map j | j in pending && pending[j] != BreakOf(idx) && pending[j] != ContinueOf(idx) :: pending[j]
  }

  lemma Forgets(loops: seq<LoopCtx>, pending: map<nat, Target>, ops: seq<Op>)
    requires Tracks(loops, pending, ops) && |loops| > 0
    ensures var last := |loops| - 1;
            && Tracks(loops[..last], Without(pending, last), ops)
            && (forall j :: j in loops[last].breakJumps || j in loops[last].continueJumps ==>
                  j !in Without(pending, last) && JumpsAt(ops, j))
  {
    var last := |loops| - 1;
    var rest, less := loops[..last], Without(pending, last);
    forall j | j in less
      ensures j < |ops| && ops[j].Jump? && ops[j].kind.Always? && Listed(rest, j, less[j])
    {
      assert Listed(loops, j, pending[j]);
    }
    forall i, j | 0 <= i < |rest| && j in rest[i].breakJumps
      ensures j in less && less[j] == BreakOf(i)
    {
      assert j in loops[i].breakJumps;
    }
    forall i, j | 0 <= i < |rest| && j in rest[i].continueJumps
      ensures j in less && less[j] == ContinueOf(i)
    {
      assert j in loops[i].continueJumps;
    }
    forall j | j in loops[last].breakJumps || j in loops[last].continueJumps
      ensures j !in less && JumpsAt(ops, j)
    {
      assert j in pending && Listed(loops, j, pending[j]);
    }
  }

  lemma ListedStay(ops: seq<Op>, jumps: seq<nat>, target: nat, others: seq<nat>)
    requires forall j :: j in others ==> JumpsAt(ops, j)
    ensures forall j :: j in others ==> JumpsAt(RetargetOps(ops, jumps, target), j)
  {
  }

  /** Patching a loop's jumps is closing the loop. */
  lemma FinishReads(loops: seq<LoopCtx>, ops: seq<Op>, consts: seq<Constant>, pending: map<nat, Target>, v: seq<Instr>,
                    c: seq<Instr>, breakTarget: nat, continueTarget: nat)
    requires |loops| > 0 && OpsOk(ops, consts) && Tracks(loops, pending, ops)
    requires Reading(ops, consts, pending) == v + c && Below(v, |loops| - 1)
    ensures var last := |loops| - 1;
            Retarget(Retarget(Reading(ops, consts, Without(pending, last)), loops[last].breakJumps, breakTarget),
                     loops[last].continueJumps, continueTarget)
              == v + CloseLoop(c, last, breakTarget - |v|, continueTarget - |v|)
  {
    var last := |loops| - 1;
    var less, bs, cs := Without(pending, last), loops[last].breakJumps, loops[last].continueJumps;
    var r := Retarget(Retarget(Reading(ops, consts, less), bs, breakTarget), cs, continueTarget);
    var closed := CloseLoop(c, last, breakTarget - |v|, continueTarget - |v|);
    forall k | 0 <= k < |ops|
      ensures r[k] == (v + closed)[k]
    {
      FinishAt(loops, ops, consts, pending, k, breakTarget, continueTarget);
      hide Tracks, Listed, Without, ReadAt;
      assert (v + c)[k] == ReadAt(ops, consts, pending, k);
      if k >= |v| {
        assert (v + c)[k] == c[k - |v|];
      }
    }
  }

  lemma FinishAt(loops: seq<LoopCtx>, ops: seq<Op>, consts: seq<Constant>, pending: map<nat, Target>, k: nat,
                 breakTarget: nat, continueTarget: nat)
    requires |loops| > 0 && OpsOk(ops, consts) && Tracks(loops, pending, ops) && k < |ops|
    ensures var last := |loops| - 1;
            CloseInstr(ReadAt(ops, consts, pending, k), k, last, breakTarget, continueTarget)
              == if k in loops[last].continueJumps then J(Always, continueTarget - k)
                 else if k in loops[last].breakJumps then J(Always, breakTarget - k)
                 else ReadAt(ops, consts, Without(pending, last), k)
  {
    if k in pending {
      assert Listed(loops, k, pending[k]);
    }
  }

  lemma LoopsBack(loops: seq<LoopInfo>, l: LoopInfo)
    ensures (loops + [l])[..|loops|] == loops
  {
  }

  /** No jump in `v` is pending for loop `idx` or a later one. */
  ghost predicate Below(v: seq<Instr>, idx: nat) {
    forall k :: 0 <= k < |v| && v[k].IJump? ==>
      match v[k].target
      case BreakOf(i) => i < idx
      case ContinueOf(i) => i < idx
      case Rel(_) => true
  }

  predicate JumpsAt(ops: seq<Op>, j: nat) {
    j < |ops| && ops[j].Jump? && ops[j].kind.Always?
  }

  function RetargetOps(ops: seq<Op>, jumps: seq<nat>, target: nat): (r: seq<Op>)
    ensures |r| == |ops|
    ensures forall k :: 0 <= k < |ops| ==> r[k] == if k in jumps then Jump(Always, target) else ops[k]
  {
    seq(|ops|, k requires 0 <= k < |ops| => if k in jumps then Jump(Always, target) else ops[k])
  }

  lemma RetargetMore(ops: seq<Op>, jumps: seq<nat>, i: nat, target: nat)
    requires i < |jumps| && JumpsAt(ops, jumps[i])
    ensures var r := RetargetOps(ops, jumps[..i], target);
            && jumps[i] < |r| && JumpsAt(r, jumps[i])
            && RetargetOps(ops, jumps[..i + 1], target) == r[jumps[i] := Jump(Always, target)]
  {
    assert jumps[..i + 1] == jumps[..i] + [jumps[i]];
  }

  lemma RetargetReads(ops: seq<Op>, consts: seq<Constant>, pending: map<nat, Target>, jumps: seq<nat>, target: nat)
    requires OpsOk(ops, consts) && forall j :: j in jumps ==> j !in pending
    ensures OpsOk(RetargetOps(ops, jumps, target), consts)
    ensures Reading(RetargetOps(ops, jumps, target), consts, pending)
              == Retarget(Reading(ops, consts, pending), jumps, target)
  {
  }

  lemma RetargetTracks(loops: seq<LoopCtx>, pending: map<nat, Target>, ops: seq<Op>, jumps: seq<nat>, target: nat)
    requires Tracks(loops, pending, ops) && forall j :: j in jumps ==> j !in pending
    ensures Tracks(loops, pending, RetargetOps(ops, jumps, target))
  {
  }

  /** The unconditional jumps at `jumps` go to `target`. */
  ghost function Retarget(v: seq<Instr>, jumps: seq<nat>, target: nat): (r: seq<Instr>)
    ensures |r| == |v|
    ensures forall k :: 0 <= k < |v| ==> r[k] == if k in jumps then J(Always, target - k) else v[k]
  {
    seq(|v|, k requires 0 <= k < |v| => if k in jumps then J(Always, target - k) else v[k])
  }
}
