/** What a running script sees of its own variables: assignments, declarations, parameters, caught errors and
    functions. */
module RunLaws {
  import opened Scripts
  import opened Environments
  import opened EnvironmentLaws
  import opened Runs
  import S = Syntax

  // ---- Assignments and declarations ----

  /** An assignment to a variable that nothing nearer holds back: the name reads as the value from then on. */
  lemma AssignedIsRead(m: Machine, fuel: nat, x: Name, at: nat, e: Expr, st: State, h: nat, later: nat)
    requires st.Valid() && EvalExpr(m, fuel, e, st).out.Val? && later !in m.recorded
    requires var env := EvalExpr(m, fuel, e, st).st.env;
             Nearest(env.frames, env.current, x, h) && !MarkedBefore(env.frames, env.current, x, h)
    ensures var v := EvalExpr(m, fuel, e, st).out.value;
            var r := EvalExpr(m, fuel + 1, Assign(x, at, e), st);
            r.out == Val(v) && EvalExpr(m, 1, Ident(x, later), r.st) == Step(r.st, Val(v))
  {
    StoreIsRead(EvalExpr(m, fuel, e, st).st.env, x, EvalExpr(m, fuel, e, st).out.value, h);
  }

  /** An assignment to a name that no frame around binds is an error and changes nothing. */
  lemma UnboundIsRefused(m: Machine, fuel: nat, x: Name, at: nat, e: Expr, st: State)
    requires st.Valid() && EvalExpr(m, fuel, e, st).out.Val?
    requires var env := EvalExpr(m, fuel, e, st).st.env;
             forall g :: 0 <= g < |env.frames| && Around(env.frames, env.current, g) ==> x !in env.frames[g].bindings
    ensures EvalExpr(m, fuel + 1, Assign(x, at, e), st) == Step(EvalExpr(m, fuel, e, st).st, Error(Undefined))
  {
    StoreFails(EvalExpr(m, fuel, e, st).st.env, x, EvalExpr(m, fuel, e, st).out.value);
  }

  /** A declared variable reads as its initial value, wherever the read stands; other names read as before. */
  lemma DeclaredIsRead(m: Machine, fuel: nat, x: Name, e: Expr, st: State, later: nat, y: Name)
    requires st.Valid() && EvalExpr(m, fuel, e, st).out.Val? && y != x
    ensures var before := EvalExpr(m, fuel, e, st);
            var r := RunStmt(m, fuel + 1, VarDecl(Bind(x), e), st);
            && r.out == Normal && EvalExpr(m, 1, Ident(x, later), r.st) == Step(r.st, Val(before.out.value))
            && LookupRead(r.st.env, y) == LookupRead(before.st.env, y)
  {
    var before := EvalExpr(m, fuel, e, st);
    DeclarationIsRead(before.st.env, x, before.out.value);
    assert BindPattern(m, fuel, Bind(x), before.out.value, before.st)
        == Step(With(before.st, Define(before.st.env, x, before.out.value)), Normal);
  }

  // ---- Functions ----

  function LastFunction(ss: seq<Stmt>, x: Name): Maybe<Code> {
    if ss == [] then S.None
    else
      var last := ss[|ss| - 1];
      if last.FunctionDecl? && last.name == x then S.Some(last.code) else LastFunction(ss[..|ss| - 1], x)
  }

  /** Before the first statement of a list runs, every function it declares can be read, the last of each name. */
  lemma {:induction false} HoistedIsRead(ss: seq<Stmt>, e: Env, x: Name)
    requires e.Valid()
    ensures LookupRead(HoistFunctions(ss, e), x)
         == if LastFunction(ss, x).Some? then Found(Closure(LastFunction(ss, x).value, e.current)) else LookupRead(e, x)
    decreases |ss|
  {
    if ss != [] {
      var first := ss[0];
      FirstOrLater(ss, x);
      if first.FunctionDecl? {
        var f := Closure(first.code, e.current);
        HoistedIsRead(ss[1..], Define(e, first.name, f), x);
        DeclarationIsRead(e, first.name, f);
      } else {
        HoistedIsRead(ss[1..], e, x);
      }
    }
  }

  lemma {:induction false} FirstOrLater(ss: seq<Stmt>, x: Name)
    requires ss != []
    ensures LastFunction(ss, x)
         == if LastFunction(ss[1..], x).Some? then LastFunction(ss[1..], x)
            else if ss[0].FunctionDecl? && ss[0].name == x then S.Some(ss[0].code)
            else S.None
    decreases |ss|
  {
    var n := |ss| - 1;
    if n > 0 {
      FirstOrLater(ss[..n], x);
      assert ss[..n][1..] == ss[1..][..n - 1] && ss[..n][0] == ss[0];
    }
  }

  /** What a call does depends on where the function was made and not on where it is called from. */
  lemma CallerIsNotSeen(m: Machine, fuel: nat, f: Value, args: seq<Value>, st: State, elsewhere: nat)
    requires st.Valid() && elsewhere < st.Frames()
    ensures var here, there := CallFunction(m, fuel, f, args, st),
                               CallFunction(m, fuel, f, args, st.(env := st.env.(current := elsewhere)));
            && there.out == here.out && there.st.env.frames == here.st.env.frames
            && there.st.seen == here.st.seen && there.st.clock == here.st.clock
  {
    assert st.env.(current := elsewhere).(current := if f.Closure? then f.env else 0)
        == st.env.(current := if f.Closure? then f.env else 0);
  }

  /** The body of a function that only gives back a name. */
  predicate GivesBack(body: seq<Stmt>, x: Name, at: nat) {
    body == [Stmt.Return(Ident(x, at))]
  }

  lemma GivenBack(m: Machine, fuel: nat, body: seq<Stmt>, x: Name, at: nat, st: State)
    requires st.Valid() && GivesBack(body, x, at)
    ensures var found := FastRead(st.env, x, at, m.recorded);
            var r := RunBody(m, fuel, body, With(st, MarkTdz(st.env, Lexical(body))));
            && Lexical(body) == {} && MarkTdz(st.env, {}) == st.env && HoistFunctions(body, st.env) == st.env
            && (r.out.OutOfFuel?
                || r == Step(st, if found.Found? then ReturnOut(found.value) else Error(Undefined)))
  {
    assert body[1..] == [] && body[0] == Stmt.Return(Ident(x, at));
    NothingMarked(st.env);
    assert With(st, st.env) == st;
    assert HoistFunctions(body, st.env) == HoistFunctions(body[1..], st.env);
    hide LookupFrom, Define;
    if fuel > 2 {
      var found := FastRead(st.env, x, at, m.recorded);
      assert EvalExpr(m, fuel - 2, Ident(x, at), st)
          == Step(st, if found.Found? then Val(found.value) else Error(Undefined));
      assert RunStmt(m, fuel - 1, body[0], st)
          == Step(st, if found.Found? then ReturnOut(found.value) else Error(Undefined));
    } else if fuel > 0 {
      assert fuel == 2 ==> EvalExpr(m, 0, Ident(x, at), st).out.OutOfFuel?;
      assert RunStmt(m, fuel - 1, body[0], st).out.OutOfFuel?;
    }
  }

  lemma NothingMarked(e: Env)
    requires e.Valid()
    ensures MarkTdz(e, {}) == e
  {
    var f := e.frames[e.current];
    assert f.tdz + ({} - f.bindings.Keys) == f.tdz;
    assert e.frames[e.current := f] == e.frames;
  }

  /** `() => y` reads `y` where it was made, through whatever frame it is called. */
  lemma ClosureReadsItsScope(m: Machine, fuel: nat, f: Value, y: Name, at: nat, args: seq<Value>, st: State)
    requires st.Valid() && f.Closure? && f.env < st.Frames() && at !in m.recorded
    requires f.code.params == [] && GivesBack(f.code.body, y, at)
    ensures var r := CallFunction(m, fuel, f, args, st);
            var found := LookupFrom(st.env.frames, f.env, y);
            r.out.OutOfFuel? || r.out == if found.Found? then Val(found.value) else Error(Undefined)
  {
    if fuel > 1 {
      var made := st.env.(current := f.env);
      var inner := With(st, PushScope(made, CodeLocals(f.code)));
      assert BindParams(m, fuel - 1, [], args, inner) == Step(inner, Normal);
      GivenBack(m, fuel - 1, f.code.body, y, at, inner);
      ScopeIsRead(made, CodeLocals(f.code), y, Undefined, y);
      assert FastRead(inner.env, y, at, m.recorded) == LookupRead(made, y);
      hide RunBody, BindParams, LookupFrom;
    }
  }

  /** A function expression's own name is the function itself, inside it and nowhere else. */
  lemma FunctionKnowsItself(own: Name, code: Code, st: State, y: Name)
    requires st.Valid()
    ensures var r := MakeClosure(S.Some(own), code, st);
            && r.out.value.Closure? && r.out.value.env < r.st.Frames() && r.st.env.current == st.env.current
            && LookupFrom(r.st.env.frames, r.out.value.env, own) == Found(r.out.value)
            && LookupRead(r.st.env, y) == LookupRead(st.env, y)
  {
    var inner := PushScope(st.env, {own});
    ScopeIsRead(st.env, {own}, own, Closure(code, inner.current), y);
    assert PopScope(Define(inner, own, Closure(code, inner.current))).current == st.env.current;
  }

  // ---- Parameters ----

  /** Parameters that are names of their own, without defaults. */
  predicate PlainParams(ps: seq<Param>) {
    && (forall i :: 0 <= i < |ps| ==> ps[i].pattern.Bind? && ps[i].default.None?)
    && (forall i, j :: 0 <= i < j < |ps| ==> ps[i].pattern.name != ps[j].pattern.name)
  }

  lemma {:induction false} OthersStay(m: Machine, fuel: nat, ps: seq<Param>, args: seq<Value>, st: State, y: Name)
    requires st.Valid() && PlainParams(ps) && forall i :: 0 <= i < |ps| ==> ps[i].pattern.name != y
    ensures var r := BindParams(m, fuel, ps, args, st);
            r.out.Normal? ==>
              && r.st.env.current == st.env.current
              && FrameLookup(r.st.env.frames[st.env.current], y) == FrameLookup(st.env.frames[st.env.current], y)
    decreases fuel
  {
    if ps != [] && fuel > 1 {
      var v := if args == [] then Undefined else args[0];
      FirstBound(m, fuel, ps, args, st);
      var next := With(st, Define(st.env, ps[0].pattern.name, v));
      OthersStay(m, fuel - 1, ps[1..], if args == [] then [] else args[1..], next, y);
    }
  }

  lemma FirstBound(m: Machine, fuel: nat, ps: seq<Param>, args: seq<Value>, st: State)
    requires st.Valid() && PlainParams(ps) && ps != [] && fuel > 1
    ensures var v := if args == [] then Undefined else args[0];
            BindParams(m, fuel, ps, args, st)
            == BindParams(m, fuel - 1, ps[1..], if args == [] then [] else args[1..],
                          With(st, Define(st.env, ps[0].pattern.name, v)))
    ensures PlainParams(ps[1..])
  {
    var v := if args == [] then Undefined else args[0];
    assert Argument(m, fuel - 1, ps[0].default, args, st) == Step(st, Val(v));
    assert BindPattern(m, fuel - 1, ps[0].pattern, v, st)
      == Step(With(st, Define(st.env, ps[0].pattern.name, v)), Normal);
    hide Argument, BindPattern, Define;
  }

  /** Each parameter holds its argument, and is undefined if there is none. */
  lemma {:induction false} ParametersHoldArguments(m: Machine, fuel: nat, ps: seq<Param>, args: seq<Value>, st: State,
                                                   i: nat)
    requires st.Valid() && PlainParams(ps) && i < |ps| && BindParams(m, fuel, ps, args, st).out.Normal?
    ensures var r := BindParams(m, fuel, ps, args, st);
            && r.st.env.current == st.env.current
            && FrameLookup(r.st.env.frames[st.env.current], ps[i].pattern.name)
               == Found(if i < |args| then args[i] else Undefined)
    decreases fuel
  {
    var v := if args == [] then Undefined else args[0];
    if fuel > 1 {
      FirstBound(m, fuel, ps, args, st);
      var next := With(st, Define(st.env, ps[0].pattern.name, v));
      var more := if args == [] then [] else args[1..];
      if i == 0 {
        OthersStay(m, fuel - 1, ps[1..], more, next, ps[0].pattern.name);
      } else {
        ParametersHoldArguments(m, fuel - 1, ps[1..], more, next, i - 1);
      }
    }
  }

  /** A function that gives back its parameter gives back the argument; with too few arguments the call is an error. */
  lemma ArgumentComesBack(m: Machine, fuel: nat, f: Value, i: nat, at: nat, args: seq<Value>, st: State)
    requires st.Valid() && f.Closure? && f.env < st.Frames() && PlainParams(f.code.params) && i < |f.code.params|
    requires GivesBack(f.code.body, f.code.params[i].pattern.name, at)
    ensures var r := CallFunction(m, fuel, f, args, st);
            r.out.OutOfFuel? || r.out == if |args| < |f.code.params| then Error(Undefined) else Val(args[i])
  {
    AllRequired(f.code.params);
    if fuel > 1 && |args| >= |f.code.params| {
      var inner := With(st, PushScope(st.env.(current := f.env), CodeLocals(f.code)));
      var b := BindParams(m, fuel - 1, f.code.params, args, inner);
      PlainBinds(m, fuel - 1, f.code.params, args, inner);
      if b.out.Normal? {
        ParametersHoldArguments(m, fuel - 1, f.code.params, args, inner, i);
        GivenBack(m, fuel - 1, f.code.body, f.code.params[i].pattern.name, at, b.st);
      }
      hide RunBody, BindParams, LookupFrom;
    }
  }

  lemma {:induction false} AllRequired(ps: seq<Param>)
    requires PlainParams(ps)
    ensures Required(ps) == |ps|
  {
    if ps != [] {
      AllRequired(ps[1..]);
    }
  }

  lemma {:induction false} PlainBinds(m: Machine, fuel: nat, ps: seq<Param>, args: seq<Value>, st: State)
    requires st.Valid() && PlainParams(ps)
    ensures BindParams(m, fuel, ps, args, st).out.Normal? || BindParams(m, fuel, ps, args, st).out.OutOfFuel?
    decreases fuel
  {
    if ps != [] && fuel > 1 {
      FirstBound(m, fuel, ps, args, st);
      var v := if args == [] then Undefined else args[0];
      PlainBinds(m, fuel - 1, ps[1..], if args == [] then [] else args[1..],
                 With(st, Define(st.env, ps[0].pattern.name, v)));
    }
  }

  // ---- Iterations ----

  /** What conditions take for false: `undefined` and zero. */
  predicate NothingOrZero(v: Value) {
    v == Undefined || v == Plain(0)
  }

  /** The update of a `for` works on a copy: what was made in the iteration before keeps reading the variables as they
      were, though the update stores to one of them. */
  lemma UpdateLeavesIterationAlone(m: Machine, fuel: nat, c: Expr, x: Name, at: nat, e: Expr, v: Value, w: Value,
                                   loop: Stmt, b: Step, y: Name)
    requires b.st.Valid() && b.out.Normal? && fuel > 0 && x in b.st.env.frames[b.st.env.current].bindings
    requires var copy := With(b.st, ForkCurrent(b.st.env)); EvalExpr(m, fuel - 1, e, copy) == Step(copy, Val(v))
    requires Set(ForkCurrent(b.st.env), x, v).Some? && NothingOrZero(w)
    requires var stored := With(b.st, Set(ForkCurrent(b.st.env), x, v).value);
             EvalExpr(m, fuel - 1, c, stored) == Step(stored, Val(w))
    ensures var stored := Set(ForkCurrent(b.st.env), x, v).value;
            var r := AfterFor(m, fuel, S.Some(c), S.Some(Assign(x, at, e)), loop, b);
            && r == Step(With(b.st, PopScope(stored)), Normal) && LookupRead(stored, x) == Found(v)
            && LookupFrom(r.st.env.frames, b.st.env.current, y) == LookupRead(b.st.env, y)
  {
    var copy := With(b.st, ForkCurrent(b.st.env));
    var stored := With(b.st, Set(ForkCurrent(b.st.env), x, v).value);
    CopyIsRead(b.st.env, x, v, y);
    hide LookupFrom, Set;
    assert EvalExpr(m, fuel, Assign(x, at, e), copy) == Step(stored, Val(v));
    assert RunFor(m, fuel, S.Some(c), S.Some(Assign(x, at, e)), loop, stored) == Leave(stored, Normal);
  }

  /** Each item of a loop over items is bound in a copy: the body sees it, and the frame before it reads as before. */
  lemma ItemIsBoundApart(m: Machine, fuel: nat, x: Name, at: nat, items: Value, st: State, n: int, y: Name)
    requires st.Valid() && fuel > 2 && m.pick(st.clock, [items]) == Number(n)
    ensures var r := RunEach(m, fuel, Bind(x), items, Stmt.Return(Ident(x, at)), st);
            r.out == ReturnOut(Plain(n)) && LookupFrom(r.st.env.frames, st.env.current, y) == LookupRead(st.env, y)
  {
    var item := Primitive(m, [items], st);
    var copy := With(item.st, ForkCurrent(item.st.env));
    var bound := With(item.st, Define(copy.env, x, Plain(n)));
    CopyIsRead(st.env, x, Plain(n), y);
    hide LookupFrom;
    assert BindPattern(m, fuel - 1, Bind(x), Plain(n), copy) == Step(bound, Normal);
    assert EvalExpr(m, fuel - 2, Ident(x, at), bound) == Step(bound, Val(Plain(n)));
    var loop, ended := Stmt.Return(Ident(x, at)), Step(bound, ReturnOut(Plain(n)));
    assert RunStmt(m, fuel - 1, loop, bound) == ended;
    assert EachBody(m, fuel - 1, Bind(x), items, loop, Step(bound, Normal))
        == AfterEach(m, fuel - 1, Bind(x), items, loop, ended) == Leave(bound, ReturnOut(Plain(n)));
    assert RunEach(m, fuel, Bind(x), items, loop, st)
        == EachBody(m, fuel - 1, Bind(x), items, loop, Step(bound, Normal));
  }

  // ---- Errors and conditions ----

  /** A handler that gives back the caught name gives back what was thrown or raised. */
  lemma CaughtIsRead(m: Machine, fuel: nat, x: Name, handling: seq<Stmt>, at: nat, st: State, t: Step)
    requires st.Valid() && t.st.Valid() && (t.out.Error? || t.out.ThrowOut?) && GivesBack(handling, x, at)
    ensures var r := Caught(m, fuel, S.Some(Handler(S.Some(x), handling)), st, t);
            r.out.OutOfFuel? || r.out == ReturnOut(t.out.value)
  {
    var noted := Noting(t.st, st);
    var h := Handler(S.Some(x), handling);
    var bound := Define(PushScope(noted.env, HandlerLocals(h)), x, t.out.value);
    GivenBack(m, fuel, handling, x, at, With(noted, bound));
    hide RunBody;
  }

  /** A finalizer that gives back a name overrides whatever went before; an empty one changes neither outcome nor
      reads. */
  lemma FinalizerOverrides(m: Machine, fuel: nat, finals: seq<Stmt>, x: Name, at: nat, st: State, c: Step)
    requires st.Valid() && c.st.Valid() && !c.out.Val? && GivesBack(finals, x, at) && at !in m.recorded
    ensures var r := Finalized(m, fuel, S.Some(Finalizer(finals)), st, c);
            var found := LookupRead(c.st.env, x);
            r.out.OutOfFuel? || r.out == if found.Found? then ReturnOut(found.value) else Error(Undefined)
  {
    var noted := Noting(c.st, st);
    var pushed := PushScope(noted.env, FinalizerLocals(Finalizer(finals)));
    GivenBack(m, fuel, finals, x, at, With(noted, pushed));
    ScopeIsRead(noted.env, FinalizerLocals(Finalizer(finals)), x, Undefined, x);
    assert FastRead(pushed, x, at, m.recorded) == LookupRead(c.st.env, x);
    hide RunBody, LookupFrom;
  }

  lemma EmptyFinalizerChangesNothing(m: Machine, fuel: nat, st: State, c: Step, y: Name)
    requires st.Valid() && c.st.Valid() && !c.out.Val? && fuel > 0
    ensures var r := Finalized(m, fuel, S.Some(Finalizer([])), st, c);
            && r.out == c.out && r.st.env.current == c.st.env.current
            && LookupRead(r.st.env, y) == LookupRead(c.st.env, y)
  {
    var noted := Noting(c.st, st);
    var pushed := PushScope(noted.env, FinalizerLocals(Finalizer([])));
    NothingMarked(pushed);
    assert RunBody(m, fuel, [], With(noted, MarkTdz(pushed, Lexical([])))) == Step(With(noted, pushed), Normal);
    assert PopScope(pushed).current == c.st.env.current;
    Unchanged(c.st.env.frames, pushed.frames, c.st.env.current, y);
    hide LookupFrom;
  }

  lemma ConditionsChoose(m: Machine, fuel: nat, c: Expr, a: Stmt, b: Stmt, x: Expr, y: Expr, st: State)
    requires st.Valid() && EvalExpr(m, fuel, c, st).out.Val?
    ensures var r := EvalExpr(m, fuel, c, st);
            var no := NothingOrZero(r.out.value);
            && RunStmt(m, fuel + 1, If(c, a, b), st) == RunStmt(m, fuel, if no then b else a, r.st)
            && EvalExpr(m, fuel + 1, Choice(c, x, y), st) == EvalExpr(m, fuel, if no then y else x, r.st)
  {
  }

  /** A loop stops where its condition is false, and a `break` leaves it. */
  lemma LoopsStop(m: Machine, fuel: nat, c: Expr, loop: Stmt, st: State)
    requires st.Valid() && EvalExpr(m, fuel, c, st).out.Val?
    requires loop.Break? || NothingOrZero(EvalExpr(m, fuel, c, st).out.value)
    ensures RunStmt(m, fuel + 2, While(c, loop), st) == Step(EvalExpr(m, fuel, c, st).st, Normal)
  {
    var r := EvalExpr(m, fuel, c, st);
    assert RunStmt(m, fuel + 2, While(c, loop), st) == RunWhile(m, fuel + 1, c, loop, st);
    if Truthy(r.out.value) {
      assert RunWhile(m, fuel + 1, c, loop, st) == AfterWhile(m, fuel, c, loop, RunStmt(m, fuel, loop, r.st));
    }
  }
}
