/** Fuel decides whether the evaluator comes to an answer, never which. */
module Fuel {
  import opened Syntax
  import opened Values
  import opened Semantics

  /** `b` answers as `a` does, wherever `a` answers. */
  predicate Answers(a: Outcome, b: Outcome) {
    !a.OutOfFuel? ==> b == a
  }

  lemma {:induction false} StmtAnswers(nm: Numerics, bk: Backend, s: Stmt, tag: Option<Name>, env: Env, a: nat, b: nat)
    requires a <= b
    ensures Answers(Exec(nm, bk, s, tag, env, a), Exec(nm, bk, s, tag, env, b))
    decreases a, s, 1
  {
    hide Eval, DeclareVar, ExecBlock, ExecFor, Select;
    match s
    case BlockStmt(block) => BlockAnswers(nm, bk, block, env, a, b);
    case If(c, t, f) =>
      var r := Eval(nm, bk, c, env);
      if r.Val? && IsTruthy(nm, r.value) {
        StmtAnswers(nm, bk, t, None, r.env, a, b);
      } else if r.Val? && f.Some? {
        StmtAnswers(nm, bk, f.value, None, r.env, a, b);
      }
    case While(_, _) => WhileAnswers(nm, bk, s, tag, env, a, b);
    case DoWhile(_, _) => DoWhileAnswers(nm, bk, s, tag, env, a, b);
    case For(init, c, u, body) =>
      if init.Some? {
        StmtAnswers(nm, bk, init.value, None, EnterScope(env), a, b);
      }
      var o := if init.Some? then Exec(nm, bk, init.value, None, EnterScope(env), a) else Normal(EnterScope(env));
      if o.Normal? {
        ForAnswers(nm, bk, c, u, body, tag, o.env, a, b);
      }
    case Switch(_, _, _) => SwitchAnswers(nm, bk, s, env, a, b);
    case Labeled(_, _) => LabeledAnswers(nm, bk, s, env, a, b);
    case _ =>
  }

  lemma {:induction false} LabeledAnswers(nm: Numerics, bk: Backend, s: Stmt, env: Env, a: nat, b: nat)
    requires a <= b && s.Labeled?
    ensures Answers(Exec(nm, bk, s, None, env, a), Exec(nm, bk, s, None, env, b))
    decreases a, s, 0
  {
    StmtAnswers(nm, bk, s.body, if IsLoop(s.body) then Some(s.tag) else None, env, a, b);
  }

  lemma {:induction false} WhileAnswers(nm: Numerics, bk: Backend, s: Stmt, tag: Option<Name>, env: Env, a: nat, b: nat)
    requires a <= b && s.While?
    ensures Answers(Exec(nm, bk, s, tag, env, a), Exec(nm, bk, s, tag, env, b))
    decreases a, s, 0
  {
    hide Eval;
    if a > 0 {
      var r := Eval(nm, bk, s.condition, env);
      if r.Val? && IsTruthy(nm, r.value) {
        StmtAnswers(nm, bk, s.body, None, r.env, a, b);
        var again := AfterBody(Exec(nm, bk, s.body, None, r.env, a), tag);
        if again.Again? {
          StmtAnswers(nm, bk, s, tag, again.env, a - 1, b - 1);
        }
      }
    }
  }

  lemma {:induction false} DoWhileAnswers(nm: Numerics, bk: Backend, s: Stmt, tag: Option<Name>, env: Env, a: nat,
                                          b: nat)
    requires a <= b && s.DoWhile?
    ensures Answers(Exec(nm, bk, s, tag, env, a), Exec(nm, bk, s, tag, env, b))
    decreases a, s, 0
  {
    hide Eval;
    if a > 0 {
      StmtAnswers(nm, bk, s.body, None, env, a, b);
      var again := AfterBody(Exec(nm, bk, s.body, None, env, a), tag);
      if again.Again? {
        var r := Eval(nm, bk, s.condition, again.env);
        if r.Val? && IsTruthy(nm, r.value) {
          StmtAnswers(nm, bk, s, tag, r.env, a - 1, b - 1);
        }
      }
    }
  }

  lemma {:induction false} ForAnswers(nm: Numerics, bk: Backend, c: Option<Expr>, u: Option<Expr>, body: Stmt,
                                      tag: Option<Name>, env: Env, a: nat, b: nat)
    requires a <= b
    ensures Answers(ExecFor(nm, bk, c, u, body, tag, env, a), ExecFor(nm, bk, c, u, body, tag, env, b))
    decreases a, body, 2
  {
    hide Eval, Exec;
    if a > 0 {
      var r := if c.Some? then Eval(nm, bk, c.value, env) else Val(Bool(true), env);
      if r.Val? && IsTruthy(nm, r.value) {
        StmtAnswers(nm, bk, body, None, r.env, a, b);
        var again := AfterBody(Exec(nm, bk, body, None, r.env, a), tag);
        if again.Again? {
          var r2 := if u.Some? then Eval(nm, bk, u.value, again.env) else Val(Undefined, again.env);
          if r2.Val? {
            ForAnswers(nm, bk, c, u, body, tag, r2.env, a - 1, b - 1);
          }
        }
      }
    }
  }

  lemma {:induction false} SwitchAnswers(nm: Numerics, bk: Backend, s: Stmt, env: Env, a: nat, b: nat)
    requires a <= b && s.Switch?
    ensures Answers(Exec(nm, bk, s, None, env, a), Exec(nm, bk, s, None, env, b))
    decreases a, s, 0
  {
    hide Eval, Select, ExecBlock;
    var r := Eval(nm, bk, s.scrutinee, env);
    if r.Val? {
      var choice := Select(nm, bk, r.value, s.cases, 0, EnterScope(r.env));
      if choice.Chosen? {
        BlockAnswers(nm, bk, s.cases[choice.index].body, choice.env, a, b);
      } else if choice.NoMatch? && s.defaultBlock.Some? {
        BlockAnswers(nm, bk, s.defaultBlock.value, choice.env, a, b);
      }
    }
  }

  lemma {:induction false} BlockAnswers(nm: Numerics, bk: Backend, block: Block, env: Env, a: nat, b: nat)
    requires a <= b
    ensures Answers(ExecBlock(nm, bk, block, env, a), ExecBlock(nm, bk, block, env, b))
    decreases a, block, 1
  {
    hide ExecList;
    ListAnswers(nm, bk, block.stmts, EnterBlock(env, block.stmts), a, b);
  }

  /** More fuel changes no answer. */
  lemma {:induction false} ListAnswers(nm: Numerics, bk: Backend, stmts: seq<Stmt>, env: Env, a: nat, b: nat)
    requires a <= b
    ensures Answers(ExecList(nm, bk, stmts, env, a), ExecList(nm, bk, stmts, env, b))
    decreases a, stmts, 0
  {
    if stmts != [] {
      StmtAnswers(nm, bk, stmts[0], None, env, a, b);
      var o := Exec(nm, bk, stmts[0], None, env, a);
      if o.Normal? {
        ListAnswers(nm, bk, stmts[1..], o.env, a, b);
      }
    }
  }
}
