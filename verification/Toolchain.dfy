/** From source to run: what the chunk that the compiler stores does, with nothing assumed about the chunk. */
module Toolchain {
  import opened Syntax
  import opened Values
  import opened Semantics
  import opened Bytecode
  import opened Codegen
  import opened StmtShape
  import opened ScriptProof
  import opened Parity
  import opened EvenScripts
  import opened StackHeights
  import Compiler

  /** Running the chunk comes to what the script means to backend `bk`. */
  ghost predicate RunsAs(nm: Numerics, bk: Backend, items: seq<Stmt>, c: Code, callee: Value, g: Globals, fuel: nat) {
    && ScriptEnding(nm, bk, items, g, fuel).Some?
    && exists n: nat :: Reaches(RunOps(nm, c, Boot(callee, g), n), n, ScriptEnding(nm, bk, items, g, fuel).value, fuel)
  }

  lemma StoredRunsAsCompiled(nm: Numerics, items: seq<Stmt>, c: Code, callee: Value, g: Globals, fuel: nat)
    requires TidyList(items, 0) && c.Ok() && ProgramCode(nm, items) == Ok(c.Instrs())
    ensures RunsAs(nm, Compiled, items, c, callee, g, fuel)
    ensures PartsAt(nm, items, g, fuel).None? ==> RunsAs(nm, Walking, items, c, callee, g, fuel)
  {
    hide RunOps, ScriptEnding, ProgramCode, TidyList, PartsAt;
    var n := StoredScriptRuns(nm, items, c, callee, g, fuel);
    if PartsAt(nm, items, g, fuel).None? {
      BackendsAgree(nm, items, g, fuel);
    }
  }

  lemma StoredNeverStuck(nm: Numerics, items: seq<Stmt>, c: Code, callee: Value, g: Globals, n: nat)
    requires TidyList(items, 0) && c.Ok() && ProgramCode(nm, items) == Ok(c.Instrs())
    ensures !RunOps(nm, c, Boot(callee, g), n).Stuck?
  {
    hide RunN, RunOps, ProgramCode, TidyList;
    RunOpsIsRun(nm, c, Boot(callee, g), n);
    NeverStuck(nm, items, c.Instrs(), callee, g, n);
  }

  /** Compiling succeeds exactly when the script has code. Then the stored chunk of a tidy script, run from any globals,
      comes to what the script means, does what the interpreter does wherever their runs do not part, so always if the
      script is even, and never makes the machine panic. */
  method CompileScript(nm: Numerics, items: seq<Stmt>) returns (r: Result<Code, CompileError>)
    ensures r.Err? <==> ProgramCode(nm, items).Err?
    ensures r.Err? ==> ProgramCode(nm, items) == Err(r.error)
    ensures r.Ok? && TidyList(items, 0) ==>
              forall callee, g, fuel: nat :: RunsAs(nm, Compiled, items, r.value, callee, g, fuel)
    ensures r.Ok? && TidyList(items, 0) ==>
              forall callee, g, fuel: nat ::
                PartsAt(nm, items, g, fuel).None? ==> RunsAs(nm, Walking, items, r.value, callee, g, fuel)
    ensures r.Ok? && TidyList(items, 0) ==>
              forall fixed, callee, g, fuel: nat ::
                Even(nm, items, fixed) && GlobalsFit(fixed, g) ==> RunsAs(nm, Walking, items, r.value, callee, g, fuel)
    ensures r.Ok? && TidyList(items, 0) ==>
              forall callee, g, n: nat :: !RunOps(nm, r.value, Boot(callee, g), n).Stuck?
  {
    hide RunOps, ScriptEnding, ProgramCode, TidyList, PartsAt, RunsAs, Even, GlobalsFit, NeverParts;
    r := Compiler.CompileProgram(nm, items);
    if r.Ok? && TidyList(items, 0) {
      forall callee, g, fuel: nat
        ensures RunsAs(nm, Compiled, items, r.value, callee, g, fuel)
        ensures PartsAt(nm, items, g, fuel).None? ==> RunsAs(nm, Walking, items, r.value, callee, g, fuel)
      {
        StoredRunsAsCompiled(nm, items, r.value, callee, g, fuel);
      }
      forall fixed, callee, g, fuel: nat | Even(nm, items, fixed) && GlobalsFit(fixed, g)
        ensures RunsAs(nm, Walking, items, r.value, callee, g, fuel)
      {
        EvenNeverParts(nm, items, g, fixed);
        NeverMeans(nm, items, g, fuel);
      }
      forall callee, g, n: nat
        ensures !RunOps(nm, r.value, Boot(callee, g), n).Stuck?
      {
        StoredNeverStuck(nm, items, r.value, callee, g, n);
      }
    }
  }
}
