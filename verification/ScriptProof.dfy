/** A compiled script does what `Semantics` says of compiled code: same result, same error, same globals, and it goes on
    for ever exactly when the script does. */
module ScriptProof {
  import opened Syntax
  import opened Values
  import opened Semantics
  import opened Fuel
  import opened Bytecode
  import opened Codegen
  import opened Slots
  import opened ExprProof
  import opened StmtShape
  import opened StmtProof

  datatype Ending =
    | Finished(value: Value, globals: Globals)
    | Raised(error: RuntimeError, globals: Globals)
    | Unfinished

  /** What a script comes to on a backend when no loop may start over more than `fuel` times. A `break` or `continue`
      that leaves the script has no meaning here. */
  function ScriptEnding(nm: Numerics, bk: Backend, items: seq<Stmt>, g: Globals, fuel: nat): Option<Ending> {
    match ExecList(nm, bk, items, Env([], g), fuel)
    case Normal(env) => Some(Finished(Undefined, env.globals))
    case Returned(v, g') => Some(Finished(v, g'))
    case Failed(err, g') => Some(Ending.Raised(err, g'))
    case OutOfFuel => Some(Unfinished)
    case Broke(_, _) => None
    case Continued(_, _) => None
  }

  /** The machine as a script starts: one slot, taken by the script itself. */
  function Boot(callee: Value, g: Globals): Machine {
    Running(0, [callee], g)
  }

  ghost predicate Reaches(m: Machine, n: nat, e: Ending, fuel: nat) {
    match e
    case Finished(v, g) => m == Done(v, g)
    case Raised(err, g) => m == Crashed(err, g)
    case Unfinished => n >= fuel && m.Running?
  }

  function ScriptPlace(nm: Numerics, P: seq<Instr>): Place {
    Place(nm, P, Start, [])
  }

  lemma {:induction false} RunGlobalList(nm: Numerics, P: seq<Instr>, at: nat, items: seq<Stmt>, base: seq<Value>,
                                         env: Env, fuel: nat) returns (n: nat, base': seq<Value>)
    requires TidyList(items, 0) && GlobalListCode(nm, items, Start).Ok?
    requires Placed(P, at, GlobalListCode(nm, items, Start).value.code, [])
    requires Mirrors(Start.locals, 0, base, env.frames)
    ensures Ends(ScriptPlace(nm, P), Running(at, base, env.globals), n,
                 at + |GlobalListCode(nm, items, Start).value.code|,
                 Start.locals, ExecList(nm, Compiled, items, env, fuel), fuel, base')
    decreases items
  {
    hide RunN, Exec, ExecList, StmtCode, GlobalListCode, Mirrors, Placed, TidyList, Escapes;
    var w := ScriptPlace(nm, P);
    var m0 := Running(at, base, env.globals);
    if items == [] {
      n, base' := 0, base;
      GlobalEnd(nm, env, fuel);
      RunZero(nm, P, m0);
    } else {
      var h, t := GlobalMeaning(nm, items, env, fuel);
      PlacedSplit(P, at, h, t, []);
      n, base' := RunStmt(w, at, items[0], None, base, env, fuel);
      var o := Exec(nm, Compiled, items[0], None, env, fuel);
      if o.Normal? {
        var n2, base2 := RunGlobalList(nm, P, at + |h|, items[1..], base', o.env, fuel);
        EndsAfter(w, m0, n, Running(at + |h|, base', o.env.globals), n2, at + |h| + |t|, Start.locals,
                  ExecList(nm, Compiled, items[1..], o.env, fuel), fuel, fuel, base2);
        n, base' := n + n2, base2;
      }
    }
  }

  lemma GlobalEnd(nm: Numerics, env: Env, fuel: nat)
    ensures GlobalListCode(nm, [], Start) == Ok(Gen([], Start.locals))
    ensures ExecList(nm, Compiled, [], env, fuel) == Normal(env)
  {
  }

  lemma GlobalMeaning(nm: Numerics, items: seq<Stmt>, env: Env, fuel: nat) returns (h: seq<Instr>, t: seq<Instr>)
    requires |items| > 0 && TidyList(items, 0) && GlobalListCode(nm, items, Start).Ok?
    ensures Tidy(items[0], 0) && TidyList(items[1..], 0)
    ensures StmtCode(nm, items[0], None, Start) == Ok(Gen(h, Start.locals))
    ensures GlobalListCode(nm, items[1..], Start).Ok? && GlobalListCode(nm, items[1..], Start).value.code == t
    ensures GlobalListCode(nm, items, Start).value.code == h + t
    ensures var o := Exec(nm, Compiled, items[0], None, env, fuel);
            ExecList(nm, Compiled, items, env, fuel) == if o.Normal?
              then ExecList(nm, Compiled, items[1..], o.env, fuel) else o
  {
    hide Exec, StmtCode;
    StmtSlots(nm, items[0], None, Start);
    h := StmtCode(nm, items[0], None, Start).value.code;
    assert Start.(locals := Start.locals) == Start;
    t := GlobalListCode(nm, items[1..], Start).value.code;
  }

  lemma MirrorsStart(callee: Value)
    ensures Mirrors(Start.locals, 0, [callee], [])
  {
  }

  lemma PlacedWhole(P: seq<Instr>)
    ensures Placed(P, 0, P, [])
  {
    forall k | 0 <= k < |P|
      ensures P[0 + k] == LinkInstr(P[k], 0 + k, [])
    {
    }
  }

  /** Compilation preserves meaning. */
  lemma ScriptRuns(nm: Numerics, items: seq<Stmt>, P: seq<Instr>, callee: Value, g: Globals, fuel: nat) returns (n: nat)
    requires TidyList(items, 0) && ProgramCode(nm, items) == Ok(P)
    ensures ScriptEnding(nm, Compiled, items, g, fuel).Some?
    ensures Reaches(RunN(nm, P, Boot(callee, g), n), n, ScriptEnding(nm, Compiled, items, g, fuel).value, fuel)
  {
    hide RunN, ExecList, GlobalListCode, Mirrors, Placed, TidyList, CodeAt;
    var c := GlobalListCode(nm, items, Start).value.code;
    var tail := [IPush(Undefined)] + [IReturn];
    assert P == c + tail;
    PlacedWhole(P);
    PlacedSplit(P, 0, c, tail, []);
    MirrorsStart(callee);
    var m0 := Boot(callee, g);
    var base;
    n, base := RunGlobalList(nm, P, 0, items, [callee], Env([], g), fuel);
    var o := ExecList(nm, Compiled, items, Env([], g), fuel);
    if o.Normal? {
      var n2 := RunReturnNothing(ScriptPlace(nm, P), |c|, base, o.env, fuel);
      RunAdd(nm, P, m0, n, n2);
      n := n + n2;
    }
  }

  // ---- Whole runs ----

  lemma HaltedLater(nm: Numerics, P: seq<Instr>, m: Machine, a: nat, b: nat)
    requires a <= b && Halted(RunN(nm, P, m, a))
    ensures RunN(nm, P, m, b) == RunN(nm, P, m, a)
  {
    RunAdd(nm, P, m, a, b - a);
    HaltedStays(nm, P, RunN(nm, P, m, a), b - a);
  }

  ghost predicate Halts(nm: Numerics, P: seq<Instr>, m: Machine) {
    exists n: nat :: Halted(RunN(nm, P, m, n))
  }

  ghost predicate Terminates(nm: Numerics, bk: Backend, items: seq<Stmt>, g: Globals) {
    exists fuel: nat :: Settles(nm, bk, items, g, fuel)
  }

  ghost predicate Settles(nm: Numerics, bk: Backend, items: seq<Stmt>, g: Globals, fuel: nat) {
    ScriptEnding(nm, bk, items, g, fuel) != Some(Unfinished)
  }

  /** The machine halts exactly for the scripts that terminate. */
  lemma HaltsIffTerminates(nm: Numerics, items: seq<Stmt>, P: seq<Instr>, callee: Value, g: Globals)
    requires TidyList(items, 0) && ProgramCode(nm, items) == Ok(P)
    ensures Halts(nm, P, Boot(callee, g)) <==> Terminates(nm, Compiled, items, g)
  {
    hide RunN, ScriptEnding, ProgramCode, TidyList;
    var m0 := Boot(callee, g);
    if Halts(nm, P, m0) {
      var k: nat :| Halted(RunN(nm, P, m0, k));
      var n := ScriptRuns(nm, items, P, callee, g, k);
      if !Settles(nm, Compiled, items, g, k) {
        HaltedLater(nm, P, m0, k, n);
      }
    }
    if Terminates(nm, Compiled, items, g) {
      var fuel: nat :| Settles(nm, Compiled, items, g, fuel);
      var n := ScriptRuns(nm, items, P, callee, g, fuel);
      assert Halted(RunN(nm, P, m0, n));
    }
  }

  /** Wherever the machine halts, the script has that ending: there is nothing else it could have done. */
  lemma HaltIsEnding(nm: Numerics, items: seq<Stmt>, P: seq<Instr>, callee: Value, g: Globals, n: nat, fuel: nat)
    requires TidyList(items, 0) && ProgramCode(nm, items) == Ok(P)
    requires Halted(RunN(nm, P, Boot(callee, g), n)) && Settles(nm, Compiled, items, g, fuel)
    ensures ScriptEnding(nm, Compiled, items, g, fuel)
              == match RunN(nm, P, Boot(callee, g), n)
                 case Done(v, g') => Some(Finished(v, g'))
                 case Crashed(err, g') => Some(Ending.Raised(err, g'))
                 case _ => None
  {
    hide RunN, ScriptEnding, ProgramCode, TidyList;
    var m0 := Boot(callee, g);
    var k := ScriptRuns(nm, items, P, callee, g, fuel);
    if k <= n {
      HaltedLater(nm, P, m0, k, n);
    } else {
      HaltedLater(nm, P, m0, n, k);
    }
  }

  /** Fuel only decides whether an answer is reached, never which, on every backend. */
  lemma FuelIrrelevant(nm: Numerics, bk: Backend, items: seq<Stmt>, g: Globals, a: nat, b: nat)
    requires Settles(nm, bk, items, g, a) && (a <= b || Settles(nm, bk, items, g, b))
    ensures ScriptEnding(nm, bk, items, g, a) == ScriptEnding(nm, bk, items, g, b)
  {
    hide ExecList;
    ListAnswers(nm, bk, items, Env([], g), if a <= b then a else b, if a <= b then b else a);
  }

  // ---- Reads before initialization ----

  /** The errors the machine knows. */
  predicate MachineError(e: RuntimeError) {
    !e.ReadBeforeInit? && !e.InvalidNumber? && !e.NeedsNumbers? && !e.NeedsNumber? && !e.Parts?
  }

  lemma {:induction false} MachineErrors(nm: Numerics, P: seq<Instr>, m: Machine, n: nat)
    requires m.Running?
    ensures var r := RunN(nm, P, m, n);
            r.Crashed? ==> MachineError(r.error)
    decreases n
  {
    if n > 0 {
      var m1 := StepOnce(nm, P, m);
      StepErrors(nm, P, m);
      if m1.Running? {
        MachineErrors(nm, P, m1, n - 1);
      } else {
        HaltedStays(nm, P, m1, n - 1);
      }
    }
  }

  lemma StepErrors(nm: Numerics, P: seq<Instr>, m: Machine)
    requires m.Running?
    ensures var r := StepOnce(nm, P, m);
            r.Crashed? ==> MachineError(r.error)
  {
    hide AbstractEq, Compare, AddValues, Power;
  }

  /** The machine has no check for reads before initialization; the compiler's own check makes up for it. A script it
      accepts never reads a declared name before the declaration has run. */
  lemma NoReadBeforeInit(nm: Numerics, items: seq<Stmt>, g: Globals, fuel: nat)
    requires TidyList(items, 0) && ProgramCode(nm, items).Ok?
    ensures var e := ScriptEnding(nm, Compiled, items, g, fuel);
            e.Some? && (e.value.Raised? ==> !e.value.error.ReadBeforeInit?)
  {
    hide RunN, ScriptEnding, ProgramCode, TidyList;
    var P := ProgramCode(nm, items).value;
    var n := ScriptRuns(nm, items, P, Undefined, g, fuel);
    MachineErrors(nm, P, Boot(Undefined, g), n);
  }

  // ---- The stored chunk ----

  /** The same for a chunk as the compiler stores it, with absolute targets and a constant table. */
  lemma StoredScriptRuns(nm: Numerics, items: seq<Stmt>, c: Code, callee: Value, g: Globals, fuel: nat) returns (n: nat)
    requires TidyList(items, 0) && c.Ok() && ProgramCode(nm, items) == Ok(c.Instrs())
    ensures ScriptEnding(nm, Compiled, items, g, fuel).Some?
    ensures Reaches(RunOps(nm, c, Boot(callee, g), n), n, ScriptEnding(nm, Compiled, items, g, fuel).value, fuel)
  {
    hide RunN, RunOps, ScriptEnding, ProgramCode, TidyList;
    n := ScriptRuns(nm, items, c.Instrs(), callee, g, fuel);
    RunOpsIsRun(nm, c, Boot(callee, g), n);
  }

  // ---- Why declarations may not stand alone in a local scope ----

  /** `{ if (false) var x = null; }`, twice over. */
  const Unguarded: Stmt := BlockStmt(Block([If(Lit(BoolLit(false)), VarDecl("x", Lit(NullLit), false), None)]))

  const UnguardedTwice: seq<Stmt> := [Unguarded, Unguarded]

  const UnguardedCode: seq<Instr> := [IPush(Bool(false)), J(IfFalse, 2), IPush(Null), IPop]

  lemma UnguardedItem(nm: Numerics, cx: Context, x: Local)
    requires cx == Context(Start.locals, 1, []) && x == Local(Some("x"), 1, false, true)
    ensures ItemCode(nm, Unguarded.block.stmts[0], cx)
              == Ok(Gen([IPush(Bool(false))] + [J(IfFalse, 2)] + [IPush(Null)], Start.locals + [x]))
  {
    var s := Unguarded.block.stmts[0];
    assert StmtCode(nm, s.thenBranch, None, cx) == Ok(Gen([IPush(Null)], Start.locals + [x]));
  }

  lemma UnguardedCompiles(nm: Numerics)
    ensures StmtCode(nm, Unguarded, None, Start) == Ok(Gen(UnguardedCode, Start.locals))
  {
    var block := Unguarded.block;
    var cx := Context(Start.locals, 1, []);
    var x := Local(Some("x"), 1, false, true);
    UnguardedItem(nm, cx, x);
    hide ItemCode;
    assert block.stmts[1..] == [];
    assert Reserved(block.stmts, 1) == [];
    assert Start.locals + [] == Start.locals;
    assert Deeper(Start).(locals := Start.locals + []) == cx;
    var inner := [IPush(Bool(false))] + [J(IfFalse, 2)] + [IPush(Null)];
    assert ListCode(nm, [], cx.(locals := Start.locals + [x])) == Ok(Gen([], Start.locals + [x]));
    assert ListCode(nm, block.stmts, cx) == Ok(Gen(inner + [], Start.locals + [x]));
    assert (Start.locals + [x])[..1] == Start.locals;
    assert Surviving(Start.locals + [x], 1) == Start.locals;
    assert Undefineds(0) + (inner + []) + Pops(1) == UnguardedCode;
  }

  /** The compiler accepts this script and the script has a meaning, but the slot that the skipped declaration never
      filled is popped all the same: the machine underflows. */
  lemma BareDeclarationUnderflows(nm: Numerics, callee: Value, g: Globals)
    ensures ProgramCode(nm, UnguardedTwice).Ok? && !TidyList(UnguardedTwice, 0)
    ensures ScriptEnding(nm, Compiled, UnguardedTwice, g, 1) == Some(Finished(Undefined, g))
    ensures RunN(nm, ProgramCode(nm, UnguardedTwice).value, Boot(callee, g), 6).Stuck?
  {
    hide *;
    var P := UnguardedTwiceCode(nm);
    UnguardedIsUntidy();
    UnguardedMeans(nm, g);
    UnguardedRuns(nm, P, callee, g);
  }

  lemma UnguardedIsUntidy()
    ensures !TidyList(UnguardedTwice, 0)
  {
    assert !Tidy(Unguarded.block.stmts[0], 1);
    assert !Tidy(UnguardedTwice[0], 0);
  }

  lemma UnguardedRuns(nm: Numerics, P: seq<Instr>, callee: Value, g: Globals)
    requires P == UnguardedCode + UnguardedCode + [IPush(Undefined), IReturn]
    ensures RunN(nm, P, Boot(callee, g), 6).Stuck?
  {
    hide RunN;
    var m0, m1 := Boot(callee, g), Running(1, [callee, Bool(false)], g);
    var m2, m3 := Running(3, [callee], g), Running(4, [], g);
    var m4, m5 := Running(5, [Bool(false)], g), Running(7, [], g);
    UnguardedSteps(nm, P, callee, g);
    hide StepOnce;
    RunOne(nm, P, m0);
    RunOne(nm, P, m1);
    RunOne(nm, P, m2);
    RunOne(nm, P, m3);
    RunOne(nm, P, m4);
    RunOne(nm, P, m5);
    RunAdd(nm, P, m0, 1, 1);
    RunAdd(nm, P, m0, 2, 1);
    RunAdd(nm, P, m0, 3, 1);
    RunAdd(nm, P, m0, 4, 1);
    RunAdd(nm, P, m0, 5, 1);
  }

  lemma UnguardedSteps(nm: Numerics, P: seq<Instr>, callee: Value, g: Globals)
    requires P == UnguardedCode + UnguardedCode + [IPush(Undefined), IReturn]
    ensures StepOnce(nm, P, Boot(callee, g)) == Running(1, [callee, Bool(false)], g)
    ensures StepOnce(nm, P, Running(1, [callee, Bool(false)], g)) == Running(3, [callee], g)
    ensures StepOnce(nm, P, Running(3, [callee], g)) == Running(4, [], g)
    ensures StepOnce(nm, P, Running(4, [], g)) == Running(5, [Bool(false)], g)
    ensures StepOnce(nm, P, Running(5, [Bool(false)], g)) == Running(7, [], g)
    ensures StepOnce(nm, P, Running(7, [], g)) == Stuck
  {
    assert P[0] == P[4] == IPush(Bool(false)) && P[1] == P[5] == J(IfFalse, 2) && P[3] == P[7] == IPop;
    hide StepOnce;
    assert [callee] + [Bool(false)] == [callee, Bool(false)] && [] + [Bool(false)] == [Bool(false)]
      && [] + [callee] == [callee];
    StepPush(nm, P, 0, [callee], g);
    StepTest(nm, P, 1, [callee], g);
    StepPop(nm, P, 3, [], callee, g);
    StepPush(nm, P, 4, [], g);
    StepTest(nm, P, 5, [], g);
    StepNothing(nm, P, 7, g);
  }

  lemma StepPush(nm: Numerics, P: seq<Instr>, ip: nat, st: seq<Value>, g: Globals)
    requires ip < |P| && P[ip] == IPush(Bool(false))
    ensures StepOnce(nm, P, Running(ip, st, g)) == Running(ip + 1, st + [Bool(false)], g)
  {
  }

  lemma StepTest(nm: Numerics, P: seq<Instr>, ip: nat, st: seq<Value>, g: Globals)
    requires ip < |P| && P[ip] == J(IfFalse, 2)
    ensures StepOnce(nm, P, Running(ip, st + [Bool(false)], g)) == Running(ip + 2, st, g)
  {
    assert (st + [Bool(false)])[..|st|] == st;
  }

  lemma StepPop(nm: Numerics, P: seq<Instr>, ip: nat, st: seq<Value>, v: Value, g: Globals)
    requires ip < |P| && P[ip] == IPop
    ensures StepOnce(nm, P, Running(ip, st + [v], g)) == Running(ip + 1, st, g)
  {
    assert (st + [v])[..|st|] == st;
  }

  lemma StepNothing(nm: Numerics, P: seq<Instr>, ip: nat, g: Globals)
    requires ip < |P| && P[ip] == IPop
    ensures StepOnce(nm, P, Running(ip, [], g)) == Stuck
  {
  }

  lemma RunOne(nm: Numerics, P: seq<Instr>, m: Machine)
    ensures RunN(nm, P, m, 1) == StepOnce(nm, P, m)
  {
    assert RunN(nm, P, m, 1) == RunN(nm, P, StepOnce(nm, P, m), 0);
  }

  lemma UnguardedTwiceCode(nm: Numerics) returns (P: seq<Instr>)
    ensures ProgramCode(nm, UnguardedTwice) == Ok(P)
    ensures P == UnguardedCode + UnguardedCode + [IPush(Undefined), IReturn]
  {
    hide StmtCode;
    UnguardedCompiles(nm);
    var c, rest := UnguardedCode, [Unguarded];
    assert UnguardedTwice[1..] == rest && rest[1..] == [];
    assert Start.(locals := Start.locals) == Start;
    assert GlobalListCode(nm, [], Start) == Ok(Gen([], Start.locals));
    assert GlobalListCode(nm, rest, Start) == Ok(Gen(c + [], Start.locals));
    assert GlobalListCode(nm, UnguardedTwice, Start) == Ok(Gen(c + (c + []), Start.locals));
    P := c + (c + []) + [IPush(Undefined)] + [IReturn];
  }

  lemma UnguardedMeans(nm: Numerics, g: Globals)
    ensures ScriptEnding(nm, Compiled, UnguardedTwice, g, 1) == Some(Finished(Undefined, g))
  {
    var env := Env([], g);
    var block := Unguarded.block;
    var inner := EnterBlock(env, block.stmts);
    assert block.stmts[1..] == [];
    assert Exec(nm, Compiled, block.stmts[0], None, inner, 1) == Normal(inner);
    assert ExecList(nm, Compiled, block.stmts[1..], inner, 1) == Normal(inner);
    assert ExecList(nm, Compiled, block.stmts, inner, 1) == Normal(inner);
    assert inner.frames[..|inner.frames| - 1] == [];
    assert ExecBlock(nm, Compiled, block, env, 1) == Normal(env);
    assert Exec(nm, Compiled, Unguarded, None, env, 1) == Normal(env);
    var rest := [Unguarded];
    assert UnguardedTwice[1..] == rest && rest[1..] == [];
    assert ExecList(nm, Compiled, rest[1..], env, 1) == Normal(env);
    assert ExecList(nm, Compiled, rest, env, 1) == Normal(env);
    assert ExecList(nm, Compiled, UnguardedTwice, env, 1) == Normal(env);
  }
}
