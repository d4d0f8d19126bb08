/** Laws of variables: what is read after a store, a declaration and a block, on every backend. */
module VariableLaws {
  import opened Syntax
  import opened Values
  import opened Semantics

  // ---- Stores ----

  /** No cell nearer than the variable's own keeps `x` from being read. */
  predicate Readable(env: Env, x: Name) {
    var k := Holder(env.frames, x);
    k > 0 ==> env.frames[k - 1][x].ready
  }

  lemma {:induction false} HolderAfter(a: seq<Frame>, b: seq<Frame>, y: Name)
    requires |a| == |b| && forall j :: 0 <= j < |a| ==> (y in a[j] <==> y in b[j])
    ensures Holder(a, y) == Holder(b, y)
    decreases |a|
  {
    if a != [] && y !in a[|a| - 1] {
      HolderAfter(a[..|a| - 1], b[..|b| - 1], y);
    }
  }

  lemma {:induction false} ReadyHolderIsHolder(frames: seq<Frame>, x: Name)
    requires var k := Holder(frames, x); k > 0 ==> frames[k - 1][x].ready
    ensures ReadyHolder(frames, x) == Holder(frames, x)
    decreases |frames|
  {
    if frames != [] && x !in frames[|frames| - 1] {
      ReadyHolderIsHolder(frames[..|frames| - 1], x);
    }
  }

  lemma StoreAtIsRead(env: Env, x: Name, v: Value, y: Name)
    requires var k := Holder(env.frames, x); k > 0 && env.frames[k - 1][x].ready
    ensures var r := StoreAt(env, Holder(env.frames, x), x, v);
            && r == Val(v, r.env) && ReadVar(r.env, x) == Val(v, r.env)
            && (y != x ==> SameRead(r.env, env, y))
  {
    hide Holder, ReadVar, SameRead;
    var k := Holder(env.frames, x);
    var r := StoreAt(env, k, x, v);
    HolderAfter(env.frames, r.env.frames, x);
    HolderAfter(env.frames, r.env.frames, y);
    ReadsCell(r.env, x);
    if y != x {
      SameCells(r.env, env, y);
    }
  }

  lemma ReadsCell(env: Env, x: Name)
    requires var k := Holder(env.frames, x); k > 0 && env.frames[k - 1][x].ready
    ensures ReadVar(env, x) == Val(env.frames[Holder(env.frames, x) - 1][x].value, env)
  {
  }

  lemma SameCells(a: Env, b: Env, y: Name)
    requires Holder(a.frames, y) == Holder(b.frames, y) && a.globals == b.globals
    requires var k := Holder(a.frames, y); k > 0 ==> a.frames[k - 1][y] == b.frames[k - 1][y]
    ensures SameRead(a, b, y)
  {
  }

  /** `y` reads alike in both, though other variables may differ. */
  predicate SameRead(a: Env, b: Env, y: Name) {
    var r, s := ReadVar(a, y), ReadVar(b, y);
    if s.Val? then r.Val? && r.value == s.value else r.Fail? && r.error == s.error
  }

  /** A store that goes through is read from then on, and no other variable changes. */
  lemma StoredIsRead(bk: Backend, env: Env, x: Name, v: Value, y: Name)
    requires Readable(env, x) && AssignVar(bk, env, x, v).Val?
    ensures var r := AssignVar(bk, env, x, v);
            r.value == v && ReadVar(r.env, x) == Val(v, r.env) && (y != x ==> SameRead(r.env, env, y))
  {
    ReadyHolderIsHolder(env.frames, x);
    if Holder(env.frames, x) > 0 {
      StoreAtIsRead(env, x, v, y);
      hide StoreAt, ReadVar, SameRead;
    }
  }

  /** Which stores go through, of names that can be read: all but those to constants and to missing names. */
  lemma StoresGoThrough(bk: Backend, env: Env, x: Name, v: Value)
    requires Readable(env, x) && !ConstOnChain(env, x)
    ensures AssignVar(bk, env, x, v).Val? <==> ReadVar(env, x).Val?
    ensures !ReadVar(env, x).Val? ==> AssignVar(bk, env, x, v) == Fail(NotDefined(x), env.globals)
  {
    ReadyHolderIsHolder(env.frames, x);
    hide ReadyHolder, ConstOnChain;
    GlobalConst(env, x);
  }

  lemma GlobalConst(env: Env, x: Name)
    ensures x in env.globals && env.globals[x].1 ==> ConstOnChain(env, x)
  {
  }

  // ---- Declarations ----

  /** A declared variable reads as its value at once, and no other variable changes. */
  lemma DeclaredIsRead(bk: Backend, env: Env, x: Name, v: Value, isConst: bool, y: Name)
    ensures var env' := DeclareVar(bk, env, x, v, isConst);
            && |env'.frames| == |env.frames| && ReadVar(env', x) == Val(v, env')
            && (y != x ==> SameRead(env', env, y))
  {
    var env' := DeclareVar(bk, env, x, v, isConst);
    if y != x {
      HolderAfter(env.frames, env'.frames, y);
    }
  }

  /** What was declared constant here refuses every store: on the interpreter always, in compiled code as a global, and
      as a local by the mark the compiler goes by. */
  lemma ConstantStays(env: Env, x: Name, v: Value, w: Value)
    ensures AssignVar(Walking, DeclareVar(Walking, env, x, v, true), x, w)
         == Fail(ConstAssignment(x), DeclareVar(Walking, env, x, v, true).globals)
    ensures var e := DeclareVar(Compiled, env, x, v, true);
            if env.frames == [] then AssignVar(Compiled, e, x, w) == Fail(ConstAssignment(x), e.globals)
            else Holder(e.frames, x) == |e.frames| && e.frames[|e.frames| - 1][x].isConst
  {
    var e := DeclareVar(Walking, env, x, v, true);
    if env.frames != [] {
      assert x in e.frames[|e.frames| - 1] && e.frames[|e.frames| - 1][x].isConst;
    }
  }

  // ---- Blocks ----

  /** A variable declared in a block is gone behind it, and what it hid is there again. */
  lemma BlockVariableIsGone(nm: Numerics, bk: Backend, x: Name, e: Expr, isConst: bool, v: Value, env: Env, fuel: nat)
    requires var inside := EnterBlock(env, [VarDecl(x, e, isConst)]); Eval(nm, bk, e, inside) == Val(v, inside)
    ensures ExecBlock(nm, bk, Block([VarDecl(x, e, isConst)]), env, fuel) == Normal(env)
  {
    var decl := VarDecl(x, e, isConst);
    var inside := EnterBlock(env, [decl]);
    FreshIsNoConst(env, decl);
    assert [decl][1..] == [];
    assert ExecList(nm, bk, [decl], inside, fuel) == Normal(DeclareVar(bk, inside, x, v, isConst)) by {
      OneStatement(nm, bk, decl, inside, fuel);
    }
    assert DeclareVar(bk, inside, x, v, isConst).frames[..|env.frames|] == env.frames;
    hide Eval, Exec, ExecList;
  }

  lemma FreshIsNoConst(env: Env, decl: Stmt)
    requires decl.VarDecl?
    ensures var inside := EnterBlock(env, [decl]);
            && !WasConst(inside, decl.name) && |inside.frames| == |env.frames| + 1
            && inside.frames[..|env.frames|] == env.frames
            && inside.frames[|env.frames|] == map[decl.name := Cell(Undefined, false, false)]
  {
    assert DeclaredNames([decl]) == {decl.name} by {
      assert decl in [decl];
    }
  }

  lemma OneStatement(nm: Numerics, bk: Backend, s: Stmt, env: Env, fuel: nat)
    ensures ExecList(nm, bk, [s], env, fuel) == Exec(nm, bk, s, None, env, fuel)
  {
    assert [s][1..] == [];
    hide Exec;
  }

  /** Reading a block's variable before its declaration is an error, whatever the name is outside. */
  lemma TooEarly(nm: Numerics, bk: Backend, x: Name, e: Expr, isConst: bool, env: Env, fuel: nat)
    ensures var stmts := [ExprStmt(Identifier(x)), VarDecl(x, e, isConst)];
            ExecBlock(nm, bk, Block(stmts), env, fuel) == Failed(ReadBeforeInit(x), env.globals)
  {
    var stmts := [ExprStmt(Identifier(x)), VarDecl(x, e, isConst)];
    var inside := EnterBlock(env, stmts);
    assert stmts[1] in stmts && x in DeclaredNames(stmts);
    assert inside.frames[|env.frames|][x] == Cell(Undefined, false, false);
    assert Holder(inside.frames, x) == |inside.frames|;
    assert Eval(nm, bk, Identifier(x), inside) == Fail(ReadBeforeInit(x), env.globals);
    assert Exec(nm, bk, stmts[0], None, inside, fuel) == Failed(ReadBeforeInit(x), env.globals);
    hide Exec, Eval;
  }

  // ---- Operators that drop their operand ----

  /** `void e` is undefined, `delete e` of a non-member is true, and returning nothing returns undefined. */
  lemma Dropped(nm: Numerics, bk: Backend, e: Expr, v: Value, tag: Option<Name>, env: Env, fuel: nat)
    requires Eval(nm, bk, e, env) == Val(v, env) && (bk.Compiled? || Eval(nm, Compiled, e, env) == Val(v, env))
    ensures Eval(nm, bk, Unary(Void, e), env) == Val(Undefined, env)
    ensures Eval(nm, bk, Unary(Delete, e), env) == Val(Bool(true), env)
    ensures Exec(nm, bk, Return(None), tag, env, fuel) == Exec(nm, bk, Return(Some(Lit(UndefinedLit))), tag, env, fuel)
    ensures Exec(nm, bk, Return(Some(e)), tag, env, fuel) == Returned(v, env.globals)
  {
  }
}
