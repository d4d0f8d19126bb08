/** Scripts the compiler accepts on which the two backends part. */
module Partings {
  import opened Syntax
  import opened Values
  import opened Semantics
  import opened Bytecode
  import opened Codegen
  import opened StmtShape
  import opened ScriptProof
  import opened Parity

  lemma OneStatement(nm: Numerics, bk: Backend, s: Stmt, rest: seq<Stmt>, env: Env, fuel: nat)
    ensures ExecList(nm, bk, [s] + rest, env, fuel)
              == var o := Exec(nm, bk, s, None, env, fuel); if o.Normal? then ExecList(nm, bk, rest, o.env, fuel) else o
  {
    hide Exec;
    assert ([s] + rest)[1..] == rest;
  }

  lemma OneStatementCompiles(nm: Numerics, s: Stmt, rest: seq<Stmt>)
    requires Tidy(s, 0) && TidyList(rest, 0) && GlobalListCode(nm, rest, Start).Ok?
    requires StmtCode(nm, s, None, Start).Ok? && StmtCode(nm, s, None, Start).value.locals == Start.locals
    ensures TidyList([s] + rest, 0) && GlobalListCode(nm, [s] + rest, Start).Ok?
  {
    hide StmtCode, Tidy;
    assert ([s] + rest)[1..] == rest;
    assert Start.(locals := Start.locals) == Start;
    forall i | 0 <= i < |[s] + rest|
      ensures Tidy(([s] + rest)[i], 0)
    {
      assert i > 0 ==> ([s] + rest)[i] == rest[i - 1];
    }
  }

  /** `typeof y` with no `y` anywhere. */
  const Undeclared: Stmt := ExprStmt(Unary(Typeof, Identifier("y")))

  lemma UndeclaredMeans(nm: Numerics, bk: Backend, g: Globals, fuel: nat)
    requires "y" !in g
    ensures Exec(nm, bk, Undeclared, None, Env([], g), fuel)
              == match bk
                 case Walking => Normal(Env([], g))
                 case Compiled => Failed(NotDefined("y"), g)
                 case Both => Failed(Parts(TypeofMissing("y")), g)
  {
    var env := Env([], g);
    assert Holder(env.frames, "y") == 0;
    assert Eval(nm, bk, Identifier("y"), env) == Fail(NotDefined("y"), g);
  }

  lemma UndeclaredCompiles(nm: Numerics)
    ensures StmtCode(nm, Undeclared, None, Start).Ok?
    ensures StmtCode(nm, Undeclared, None, Start).value.locals == Start.locals
  {
    assert ResolveLocal(Start.locals, "y") == None;
    assert ExprCode(nm, Identifier("y"), Start.locals) == Ok([IGetGlobal("y")]);
  }

  /** The interpreter gives the script `typeof y` a meaning where `y` is not declared; its compiled form fails. */
  lemma UndeclaredTypeofParts(nm: Numerics, g: Globals, fuel: nat)
    requires "y" !in g
    ensures TidyList([Undeclared], 0) && ProgramCode(nm, [Undeclared]).Ok?
    ensures ScriptEnding(nm, Walking, [Undeclared], g, fuel) == Some(Finished(Undefined, g))
    ensures ScriptEnding(nm, Compiled, [Undeclared], g, fuel) == Some(Ending.Raised(NotDefined("y"), g))
  {
    hide Exec, StmtCode;
    UndeclaredCompiles(nm);
    OneStatementCompiles(nm, Undeclared, []);
    UndeclaredMeans(nm, Walking, g, fuel);
    UndeclaredMeans(nm, Compiled, g, fuel);
    OneStatement(nm, Walking, Undeclared, [], Env([], g), fuel);
    OneStatement(nm, Compiled, Undeclared, [], Env([], g), fuel);
    assert [Undeclared] + [] == [Undeclared];
  }

  /** `typeof y; y`. */
  const UndeclaredTwice: seq<Stmt> := [Undeclared, ExprStmt(Identifier("y"))]

  /** A run that parts may still end alike, so no condition on steps can be necessary for equal endings: here the
      backends part at the first statement, and the interpreter meets the same error at the second. */
  lemma PartedMayEndAlike(nm: Numerics, g: Globals, fuel: nat)
    requires "y" !in g
    ensures PartsAt(nm, UndeclaredTwice, g, fuel) == Some(TypeofMissing("y"))
    ensures ScriptEnding(nm, Walking, UndeclaredTwice, g, fuel) == ScriptEnding(nm, Compiled, UndeclaredTwice, g, fuel)
  {
    hide Exec;
    var read := ExprStmt(Identifier("y"));
    var env := Env([], g);
    assert UndeclaredTwice == [Undeclared] + [read];
    UndeclaredMeans(nm, Walking, g, fuel);
    UndeclaredMeans(nm, Compiled, g, fuel);
    UndeclaredMeans(nm, Both, g, fuel);
    OneStatement(nm, Walking, Undeclared, [read], env, fuel);
    OneStatement(nm, Compiled, Undeclared, [read], env, fuel);
    OneStatement(nm, Both, Undeclared, [read], env, fuel);
    OneStatement(nm, Walking, read, [], env, fuel);
    assert [read] + [] == [read];
    ReadMeans(nm, env, fuel);
  }

  lemma ReadMeans(nm: Numerics, env: Env, fuel: nat)
    requires env.frames == [] && "y" !in env.globals
    ensures Exec(nm, Walking, ExprStmt(Identifier("y")), None, env, fuel) == Failed(NotDefined("y"), env.globals)
  {
    assert Holder(env.frames, "y") == 0;
  }

  // `x`, declared once outside and once in a block that also stores to it.

  function Outer(isConst: bool): Stmt {
    VarDecl("x", Lit(NullLit), isConst)
  }

  const Store: Stmt := ExprStmt(Assignment("x", Lit(BoolLit(true))))

  const Inner: Stmt := VarDecl("x", Lit(NullLit), false)

  lemma OuterMeans(nm: Numerics, bk: Backend, isConst: bool, g: Globals, fuel: nat)
    requires "x" !in g
    ensures Exec(nm, bk, Outer(isConst), None, Env([], g), fuel) == Normal(Env([], g["x" := (Null, isConst)]))
  {
    var env := Env([], g);
    assert Eval(nm, bk, Lit(NullLit), env) == Val(Null, env);
  }

  lemma StoreMeans(nm: Numerics, bk: Backend, env: Env, fuel: nat)
    ensures Exec(nm, bk, Store, None, env, fuel)
              == match AssignVar(bk, env, "x", Bool(true))
                 case Fail(err, g) => Failed(err, g)
                 case Val(_, env1) => Normal(env1)
  {
    hide AssignVar;
    assert Eval(nm, bk, Lit(BoolLit(true)), env) == Val(Bool(true), env);
  }

  lemma TwoStatements(nm: Numerics, bk: Backend, a: Stmt, b: Stmt, env: Env, fuel: nat)
    ensures ExecList(nm, bk, [a, b], env, fuel)
              == var o := Exec(nm, bk, a, None, env, fuel); if o.Normal? then Exec(nm, bk, b, None, o.env, fuel) else o
  {
    hide Exec;
    OneStatement(nm, bk, a, [b], env, fuel);
    assert [a] + [b] == [a, b];
    var o := Exec(nm, bk, a, None, env, fuel);
    if o.Normal? {
      OneStatement(nm, bk, b, [], o.env, fuel);
      assert [b] + [] == [b];
    }
  }

  /** `{ x = true; var x = null; }` */
  const EarlyStore: Stmt := BlockStmt(Block([Store, Inner]))

  lemma EarlyStoreMeans(nm: Numerics, bk: Backend, g: Globals, fuel: nat)
    requires !bk.Both? && "x" in g && !g["x"].1
    ensures Exec(nm, bk, EarlyStore, None, Env([], g), fuel)
              == Normal(Env([], if bk.Walking? then g["x" := (Bool(true), false)] else g))
  {
    hide Exec, ExecList;
    var env0 := Env([], g);
    var env1 := EnterBlock(env0, [Store, Inner]);
    assert DeclaredNames([Store, Inner]) == {"x"};
    assert Holder(env1.frames, "x") == 1 && ReadyHolder(env1.frames, "x") == 0;
    TwoStatements(nm, bk, Store, Inner, env1, fuel);
    StoreMeans(nm, bk, env1, fuel);
    var env2 := AssignVar(bk, env1, "x", Bool(true)).env;
    InnerMeans(nm, bk, env2, fuel);
    BlockMeans(nm, bk, [Store, Inner], env0, fuel);
  }

  lemma InnerMeans(nm: Numerics, bk: Backend, env: Env, fuel: nat)
    requires !bk.Both? && |env.frames| == 1
    ensures Exec(nm, bk, Inner, None, env, fuel).Normal?
    ensures var env' := Exec(nm, bk, Inner, None, env, fuel).env;
            env'.globals == env.globals && |env'.frames| == 1 && "x" in env'.frames[0]
  {
    assert Eval(nm, bk, Lit(NullLit), env) == Val(Null, env);
  }

  lemma BlockMeans(nm: Numerics, bk: Backend, stmts: seq<Stmt>, env: Env, fuel: nat)
    ensures Exec(nm, bk, BlockStmt(Block(stmts)), None, env, fuel)
              == LeaveScope(ExecList(nm, bk, stmts, EnterBlock(env, stmts), fuel))
  {
    hide ExecList;
  }

  /** `{ var x = null; x = true; }` */
  const LateStore: Stmt := BlockStmt(Block([Inner, Store]))

  lemma LateStoreMeans(nm: Numerics, bk: Backend, g: Globals, fuel: nat)
    requires !bk.Both? && "x" in g && g["x"].1
    ensures Exec(nm, bk, LateStore, None, Env([], g), fuel)
              == if bk.Walking? then Failed(ConstAssignment("x"), g) else Normal(Env([], g))
  {
    hide Exec, ExecList;
    var env0 := Env([], g);
    var env1 := EnterBlock(env0, [Inner, Store]);
    assert DeclaredNames([Inner, Store]) == {"x"};
    TwoStatements(nm, bk, Inner, Store, env1, fuel);
    InnerMeans(nm, bk, env1, fuel);
    var env2 := Exec(nm, bk, Inner, None, env1, fuel).env;
    StoreMeans(nm, bk, env2, fuel);
    assert ConstOnChain(env2, "x") && Holder(env2.frames, "x") == 1;
    BlockMeans(nm, bk, [Inner, Store], env0, fuel);
  }

  /** Inside either block the compiler sees the script's own slot and one for `x`. */
  function XSlots(ready: bool): seq<Local> {
    Start.locals + [Local(Some("x"), 1, false, ready)]
  }

  function InBlock(ready: bool): Context {
    Context(XSlots(ready), 1, [])
  }

  lemma StoreCompiles(nm: Numerics, ready: bool)
    ensures ItemCode(nm, Store, InBlock(ready)).Ok?
    ensures ItemCode(nm, Store, InBlock(ready)).value.locals == XSlots(ready)
  {
    assert ResolveLocal(XSlots(ready), "x") == Some(1);
    assert ExprCode(nm, Lit(BoolLit(true)), XSlots(ready)).Ok?;
  }

  lemma InnerCompiles(nm: Numerics)
    ensures ItemCode(nm, Inner, InBlock(false)).Ok?
    ensures ItemCode(nm, Inner, InBlock(false)).value.locals == XSlots(true)
  {
    assert ResolveLocal(XSlots(false), "x") == Some(1);
    assert ExprCode(nm, Lit(NullLit), XSlots(false)).Ok?;
  }

  lemma PairCompiles(nm: Numerics, a: Stmt, b: Stmt, mid: bool)
    requires Reserved([a, b], 1) == [Local(Some("x"), 1, false, false)]
    requires ItemCode(nm, a, InBlock(false)).Ok? && ItemCode(nm, a, InBlock(false)).value.locals == XSlots(mid)
    requires ItemCode(nm, b, InBlock(mid)).Ok? && ItemCode(nm, b, InBlock(mid)).value.locals == XSlots(true)
    ensures var block := BlockStmt(Block([a, b]));
            StmtCode(nm, block, None, Start).Ok? && StmtCode(nm, block, None, Start).value.locals == Start.locals
  {
    hide ItemCode, ListCode;
    var cx := InBlock(false);
    assert Deeper(Start).(locals := Start.locals + Reserved([a, b], 1)) == cx;
    ListOf(nm, a, b, mid);
    assert XSlots(true)[..1] == Start.locals;
    assert Surviving(XSlots(true), 1) == Start.locals;
  }

  lemma ListOf(nm: Numerics, a: Stmt, b: Stmt, mid: bool)
    requires ItemCode(nm, a, InBlock(false)).Ok? && ItemCode(nm, a, InBlock(false)).value.locals == XSlots(mid)
    requires ItemCode(nm, b, InBlock(mid)).Ok? && ItemCode(nm, b, InBlock(mid)).value.locals == XSlots(true)
    ensures ListCode(nm, [a, b], InBlock(false)).Ok?
    ensures ListCode(nm, [a, b], InBlock(false)).value.locals == XSlots(true)
  {
    hide ItemCode;
    assert [a, b][1..] == [b] && [b][1..] == [];
    assert InBlock(false).(locals := XSlots(mid)) == InBlock(mid);
    assert InBlock(mid).(locals := XSlots(true)) == InBlock(true);
    assert ListCode(nm, [], InBlock(true)).Ok?;
    assert ListCode(nm, [b], InBlock(mid)).Ok?;
  }

  lemma ReservedPair()
    ensures Reserved([Store, Inner], 1) == [Local(Some("x"), 1, false, false)] == Reserved([Inner, Store], 1)
  {
    assert [Store, Inner][1..] == [Inner] && [Inner, Store][1..] == [Store] && [Inner][1..] == [] && [Store][1..] == [];
    assert Reserved([Inner], 1) == [Local(Some("x"), 1, false, false)] && Reserved([Store], 1) == [];
  }

  lemma ScriptCompiles(nm: Numerics, isConst: bool, block: Stmt)
    requires block == EarlyStore || block == LateStore
    ensures TidyList([Outer(isConst), block], 0) && ProgramCode(nm, [Outer(isConst), block]).Ok?
  {
    hide StmtCode, ItemCode, GlobalListCode;
    ReservedPair();
    BlocksTidy();
    InnerCompiles(nm);
    StoreCompiles(nm, false);
    StoreCompiles(nm, true);
    PairCompiles(nm, block.block.stmts[0], block.block.stmts[1], block == LateStore);
    NothingCompiles(nm);
    OneStatementCompiles(nm, block, []);
    OuterCompiles(nm, isConst);
    assert [block] + [] == [block];
    OneStatementCompiles(nm, Outer(isConst), [block]);
    assert [Outer(isConst)] + [block] == [Outer(isConst), block];
  }

  lemma BlocksTidy()
    ensures Tidy(EarlyStore, 0) && Tidy(LateStore, 0) && Tidy(Outer(true), 0) && Tidy(Outer(false), 0)
  {
    assert Tidy(Store, 1) && Tidy(Inner, 1);
  }

  lemma NothingCompiles(nm: Numerics)
    ensures GlobalListCode(nm, [], Start).Ok?
  {
  }

  lemma OuterCompiles(nm: Numerics, isConst: bool)
    ensures StmtCode(nm, Outer(isConst), None, Start).Ok?
    ensures StmtCode(nm, Outer(isConst), None, Start).value.locals == Start.locals
  {
    assert ExprCode(nm, Lit(NullLit), Start.locals).Ok?;
  }

  /** `var x = null; { x = true; var x = null; }`: the interpreter stores to the outer `x`, compiled code to the inner
      one. */
  lemma EarlyStoreParts(nm: Numerics, g: Globals, fuel: nat)
    requires "x" !in g
    ensures var items := [Outer(false), EarlyStore];
            && TidyList(items, 0) && ProgramCode(nm, items).Ok?
            && ScriptEnding(nm, Walking, items, g, fuel) == Some(Finished(Undefined, g["x" := (Bool(true), false)]))
            && ScriptEnding(nm, Compiled, items, g, fuel) == Some(Finished(Undefined, g["x" := (Null, false)]))
  {
    hide Exec, ProgramCode, ExecList;
    ScriptCompiles(nm, false, EarlyStore);
    forall bk: Backend | !bk.Both?
      ensures ExecList(nm, bk, [Outer(false), EarlyStore], Env([], g), fuel)
                == Normal(Env([], g["x" := (if bk.Walking? then Bool(true) else Null, false)]))
    {
      var g1 := g["x" := (Null, false)];
      TwoStatements(nm, bk, Outer(false), EarlyStore, Env([], g), fuel);
      OuterMeans(nm, bk, false, g, fuel);
      EarlyStoreMeans(nm, bk, g1, fuel);
      assert g1["x" := (Bool(true), false)] == g["x" := (Bool(true), false)];
    }
  }

  /** `const x = null; { var x = null; x = true; }`: the interpreter refuses the store because of the outer constant. */
  lemma ShadowedConstParts(nm: Numerics, g: Globals, fuel: nat)
    requires "x" !in g
    ensures var items := [Outer(true), LateStore];
            var g1 := g["x" := (Null, true)];
            && TidyList(items, 0) && ProgramCode(nm, items).Ok?
            && ScriptEnding(nm, Walking, items, g, fuel) == Some(Ending.Raised(ConstAssignment("x"), g1))
            && ScriptEnding(nm, Compiled, items, g, fuel) == Some(Finished(Undefined, g1))
  {
    hide Exec, ProgramCode, ExecList;
    ScriptCompiles(nm, true, LateStore);
    forall bk: Backend | !bk.Both?
      ensures var g1 := g["x" := (Null, true)];
              ExecList(nm, bk, [Outer(true), LateStore], Env([], g), fuel)
                == if bk.Walking? then Failed(ConstAssignment("x"), g1) else Normal(Env([], g1))
    {
      TwoStatements(nm, bk, Outer(true), LateStore, Env([], g), fuel);
      OuterMeans(nm, bk, true, g, fuel);
      LateStoreMeans(nm, bk, g["x" := (Null, true)], fuel);
    }
  }
}
