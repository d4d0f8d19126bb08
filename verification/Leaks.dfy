/** Which single steps leave another frame current than they began in, and what a handler that runs there reads. */
module Leaks {
  import opened Scripts
  import opened Environments
  import opened Runs
  import opened RootReads
  import opened Guards
  import opened TryFrames
  import S = Syntax

  // ---- Loops ----

  /** Nothing without a `for` of its own moves the current frame, not even by an error. */
  lemma QuietStays(calm: bool, m: Machine, fuel: nat, s: Stmt, st: State)
    requires StateTame(calm, st) && StmtGuarded(calm, s) && StmtQuiet(calm, false, s)
    ensures st.Valid()
    ensures var r := RunStmt(m, fuel, s, st);
            !r.out.OutOfFuel? ==> r.st.env.current == st.env.current
  {
    hide StateTame, StmtGuarded, StmtQuiet, RunStmt, Keeps;
    TameIsValid(calm, st);
    StmtLands(calm, m, fuel, s, st);
  }

  /** A `for` moves the current frame exactly when it fails. */
  lemma ForMoves(calm: bool, m: Machine, fuel: nat, s: Stmt, st: State)
    requires StateTame(calm, st) && StmtGuarded(calm, s) && StmtQuiet(calm, true, s) && s.For?
    ensures st.Valid()
    ensures var r := RunStmt(m, fuel, s, st);
            !r.out.OutOfFuel? ==> (r.st.env.current != st.env.current <==> r.out.Error?)
  {
    hide StateTame, StmtGuarded, StmtQuiet, RunStmt, Keeps;
    TameIsValid(calm, st);
    if fuel > 0 {
      ForLands(calm, m, fuel, s, st);
    } else {
      NoFuel(m, s, st);
    }
  }

  lemma NoFuel(m: Machine, s: Stmt, st: State)
    requires st.Valid()
    ensures RunStmt(m, 0, s, st).out.OutOfFuel?
  {
  }

  /** A `for` over items moves it exactly when its body fails: a failing iterable is evaluated outside the loop's frame,
      and running out of items is no error. */
  lemma ForEachMoves(calm: bool, m: Machine, fuel: nat, s: Stmt, st: State)
    requires StateTame(calm, st) && StmtGuarded(calm, s) && StmtQuiet(calm, true, s) && s.ForEach? && s.pattern.Bind?
    requires fuel > 0
    ensures st.Valid()
    ensures var e, r := EvalExpr(m, fuel - 1, s.iterable, st), RunStmt(m, fuel, s, st);
            !r.out.OutOfFuel? ==> (r.st.env.current != st.env.current <==> e.out.Val? && r.out.Error?)
  {
    hide StateTame, RunStmt, Keeps, EvalExpr, Leaves, LandsIn, Under, RunEach, ExprGuarded, PatternGuarded, ExprQuiet;
    TameIsValid(calm, st);
    EachStmtUnfold(m, fuel, s, st);
    ForEachLands(calm, m, fuel, s, st);
    var e, r := EvalExpr(m, fuel - 1, s.iterable, st), RunStmt(m, fuel, s, st);
    if r.out.OutOfFuel? {
    } else if e.out.Val? {
      LeavesAt(calm, st, true, r);
    } else {
      ExprLands(calm, m, fuel - 1, s.iterable, st);
      LandsAt(calm, st, e);
    }
  }

  lemma LeavesAt(calm: bool, st: State, q: bool, r: Step)
    requires Leaves(calm, st, st.env.current, q, true, r) && !r.out.OutOfFuel?
    ensures r.st.env.current != st.env.current <==> r.out.Error?
  {
    hide StateTame, Keeps, Under;
  }

  lemma LandsAt(calm: bool, st: State, r: Step)
    requires Lands(calm, st, true, true, r) && !r.out.OutOfFuel?
    ensures r.st.env.current == st.env.current
  {
    hide StateTame, Keeps, Under;
  }

  // ---- Calls ----

  /** The step ends in its own frame or, by an error, in one that it has made. */
  predicate Near(st: State, r: Step) {
    r.out.OutOfFuel? || r.st.env.current == st.env.current || (r.out.Error? && st.Frames() <= r.st.env.current)
  }

  lemma {:induction false} ExprNear(m: Machine, fuel: nat, e: Expr, st: State)
    requires st.Valid()
    ensures Near(st, EvalExpr(m, fuel, e, st))
    decreases fuel, 1
  {
    if fuel > 0 {
      match e
      case Prim(es) => ExprsNear(m, fuel - 1, es, st);
      case Choice(_, _, _) => ChoiceNear(m, fuel, e, st);
      case Assign(_, _, value) => ExprNear(m, fuel - 1, value, st);
      case Call(_, _) => CalledNear(m, fuel, e, st);
      case _ =>
    }
  }

  lemma {:induction false} ChoiceNear(m: Machine, fuel: nat, e: Expr, st: State)
    requires st.Valid() && e.Choice? && fuel > 0
    ensures Near(st, EvalExpr(m, fuel, e, st))
    decreases fuel, 0
  {
    hide Truthy;
    ExprNear(m, fuel - 1, e.condition, st);
    var r := EvalExpr(m, fuel - 1, e.condition, st);
    if r.out.Val? {
      ExprNear(m, fuel - 1, if Truthy(r.out.value) then e.thenExpr else e.elseExpr, r.st);
    }
  }

  lemma {:induction false} CalledNear(m: Machine, fuel: nat, e: Expr, st: State)
    requires st.Valid() && e.Call? && fuel > 0
    ensures Near(st, EvalExpr(m, fuel, e, st))
    decreases fuel, 0
  {
    hide EvalExprs, CallFunction;
    ExprNear(m, fuel - 1, e.callee, st);
    var r := EvalExpr(m, fuel - 1, e.callee, st);
    if r.out.Val? {
      ExprsNear(m, fuel - 1, e.args, r.st);
      var a := EvalExprs(m, fuel - 1, e.args, r.st);
      CallNear(m, fuel - 1, r.out.value, a.values, a.st);
    }
  }

  lemma {:induction false} ExprsNear(m: Machine, fuel: nat, es: seq<Expr>, st: State)
    requires st.Valid()
    ensures var a := EvalExprs(m, fuel, es, st); Near(st, Step(a.st, a.out))
    decreases fuel, 0
  {
    if fuel > 0 && es != [] {
      hide EvalExpr;
      ExprNear(m, fuel - 1, es[0], st);
      ExprsNear(m, fuel - 1, es[1..], EvalExpr(m, fuel - 1, es[0], st).st);
    }
  }

  lemma {:induction false} CallNear(m: Machine, fuel: nat, f: Value, args: seq<Value>, st: State)
    requires st.Valid()
    ensures Near(st, CallFunction(m, fuel, f, args, st))
    decreases fuel, 1
  {
    if fuel > 0 && f.Closure? && f.env < st.Frames() {
      hide BindParams, RunBody;
      var inner := With(st, PushScope(st.env.(current := f.env), CodeLocals(f.code)));
      ParamsNear(m, fuel - 1, f.code.params, args, inner);
    }
  }

  lemma {:induction false} PatternNear(m: Machine, fuel: nat, p: Pattern, v: Value, st: State)
    requires st.Valid()
    ensures Near(st, BindPattern(m, fuel, p, v, st))
    decreases fuel, 0
  {
    if fuel > 0 {
      match p
      case Bind(_) =>
      case Parts(ps) => PartsNear(m, fuel - 1, ps, v, st);
      case Default(inner, e) =>
        if v == Undefined {
          ExprNear(m, fuel - 1, e, st);
          var r := EvalExpr(m, fuel - 1, e, st);
          if r.out.Val? {
            PatternNear(m, fuel - 1, inner, r.out.value, r.st);
          }
        } else {
          PatternNear(m, fuel - 1, inner, v, st);
        }
    }
  }

  lemma {:induction false} PartsNear(m: Machine, fuel: nat, ps: seq<Pattern>, v: Value, st: State)
    requires st.Valid()
    ensures Near(st, BindParts(m, fuel, ps, v, st))
    decreases fuel, 0
  {
    if fuel > 0 && ps != [] {
      hide BindPattern, Primitive;
      PartsUnfold(m, fuel, ps, v, st);
      var part := Primitive(m, [v], st);
      if part.out.Val? {
        PatternNear(m, fuel - 1, ps[0], part.out.value, part.st);
        PartsNear(m, fuel - 1, ps[1..], v, BindPattern(m, fuel - 1, ps[0], part.out.value, part.st).st);
      }
    }
  }

  lemma {:induction false} ParamsNear(m: Machine, fuel: nat, ps: seq<Param>, args: seq<Value>, st: State)
    requires st.Valid()
    ensures Near(st, BindParams(m, fuel, ps, args, st))
    decreases fuel, 1
  {
    if fuel > 0 && ps != [] {
      hide BindPattern, Argument;
      ParamsUnfold(m, fuel, ps, args, st);
      ArgumentNear(m, fuel - 1, ps[0].default, args, st);
      var a := Argument(m, fuel - 1, ps[0].default, args, st);
      if a.out.Val? {
        PatternNear(m, fuel - 1, ps[0].pattern, a.out.value, a.st);
        var r := BindPattern(m, fuel - 1, ps[0].pattern, a.out.value, a.st);
        ParamsNear(m, fuel - 1, ps[1..], if args == [] then [] else args[1..], r.st);
      }
    }
  }

  lemma {:induction false} ArgumentNear(m: Machine, fuel: nat, default: Maybe<Expr>, args: seq<Value>, st: State)
    requires st.Valid()
    ensures Near(st, Argument(m, fuel, default, args, st))
    decreases fuel, 2
  {
    if default.Some? {
      ExprNear(m, fuel, default.value, st);
    }
  }

  /** A call, of any function with any arguments, moves the current frame exactly when binding its parameters fails. */
  lemma CallMoves(m: Machine, fuel: nat, f: Value, args: seq<Value>, st: State)
    requires st.Valid() && f.Closure? && f.env < st.Frames() && Required(f.code.params) <= |args| && fuel > 0
    ensures var inner := With(st, PushScope(st.env.(current := f.env), CodeLocals(f.code)));
            var b, r := BindParams(m, fuel - 1, f.code.params, args, inner), CallFunction(m, fuel, f, args, st);
            !r.out.OutOfFuel? ==> (r.st.env.current != st.env.current <==> b.out.Error?)
  {
    hide BindParams, RunBody;
    var inner := With(st, PushScope(st.env.(current := f.env), CodeLocals(f.code)));
    ParamsNear(m, fuel - 1, f.code.params, args, inner);
  }

  // ---- What a handler reads ----

  /** Frames made later do not matter. */
  lemma {:induction false} LookupKept(a: seq<Frame>, b: seq<Frame>, f: nat, x: Name)
    requires Linked(a) && Linked(b) && a <= b && f < |a|
    ensures LookupFrom(a, f, x) == LookupFrom(b, f, x)
    decreases f
  {
    if FrameLookup(a[f], x) == Missing && a[f].parent.Some? {
      LookupKept(a, b, a[f].parent.value, x);
    }
  }

  /** `catch { return x }` */
  function Reading(x: Name, at: nat): Handler {
    Handler(S.None, [Return(Ident(x, at))])
  }

  lemma ReadingDeclaresNothing(x: Name, at: nat)
    ensures HandlerLocals(Reading(x, at)) == {} && Lexical(Reading(x, at).handling) == {}
  {
    var ss := Reading(x, at).handling;
    assert ss[1..] == [];
    assert Lexical(ss) == {};
    assert Locals(ss) == StmtLocals(ss[0]) + Locals(ss[1..]) == {};
  }

  /** What one read gives. */
  function Read(m: Machine, x: Name, at: nat, e: Env): Out
    requires e.Valid()
  {
    var root := e.frames[0].bindings;
    var found := if at in m.recorded && x in root then Found(root[x]) else LookupRead(e, x);
    if found.Found? then ReturnOut(found.value) else Error(Undefined)
  }

  lemma OneStmt(m: Machine, fuel: nat, s: Stmt, st: State)
    requires st.Valid() && fuel > 1 && RunStmt(m, fuel - 1, s, st).out != Normal
    ensures RunList(m, fuel, [s], st) == RunStmt(m, fuel - 1, s, st)
  {
    hide RunStmt;
  }

  lemma HandlerReads(m: Machine, fuel: nat, x: Name, at: nat, v: Value, st: State)
    requires st.Valid() && fuel >= 3
    ensures RunBlock(m, fuel, Reading(x, at).handling, HandlerLocals(Reading(x, at)), S.None, v, st)
         == Step(Handled(st), Read(m, x, at, st.env))
  {
    hide RunStmt, HandlerLocals, Lexical, LookupRead;
    var ss := Reading(x, at).handling;
    ReadingDeclaresNothing(x, at);
    var e := MarkTdz(PushScope(st.env, {}), {});
    assert HoistFunctions(ss, e) == e by {
      assert ss[1..] == [];
    }
    ReturnReads(m, fuel - 1, x, at, st);
    OneStmt(m, fuel, ss[0], With(st, e));
    assert ss == [ss[0]];
  }

  lemma ReturnReads(m: Machine, fuel: nat, x: Name, at: nat, st: State)
    requires st.Valid() && fuel >= 2
    ensures var inner := With(st, MarkTdz(PushScope(st.env, {}), {}));
            RunStmt(m, fuel, Return(Ident(x, at)), inner) == Step(inner, Read(m, x, at, st.env))
  {
    var e := MarkTdz(PushScope(st.env, {}), {});
    assert st.env.frames <= e.frames && e.frames[0] == st.env.frames[0];
    LookupKept(st.env.frames, e.frames, st.env.current, x);
    assert LookupRead(e, x) == LookupFrom(e.frames, st.env.current, x);
  }

  /** The empty frame the handler ran in stays behind. */
  function Handled(st: State): State
    requires st.Valid()
  {
    With(st, PopScope(MarkTdz(PushScope(st.env, {}), {})))
  }

  lemma TryIsHandler(m: Machine, fuel: nat, tried: seq<Stmt>, h: Handler, st: State)
    requires st.Valid()
    ensures var t := RunBlock(m, fuel, tried, Locals(tried), S.None, Undefined, st);
            t.out.Error? || t.out.ThrowOut? ==>
              RunTry(m, fuel, tried, S.Some(h), S.None, st)
              == RunBlock(m, fuel, h.handling, HandlerLocals(h), h.caught, t.out.value, Noting(t.st, st))
  {
    hide RunBlock, HandlerLocals, Noting;
  }

  /** After any tried block that fails, a handler that reads a name at a recorded offset sees the two machines apart
      exactly when the root binds the name and the chain of the frame the error arose in shows something else. */
  lemma HandlersApart(m: Machine, fuel: nat, tried: seq<Stmt>, x: Name, at: nat, st: State)
    requires st.Valid() && fuel >= 3 && at in m.recorded
    requires var t := RunBlock(m, fuel, tried, Locals(tried), S.None, Undefined, st);
             && t == RunBlock(Slow(m), fuel, tried, Locals(tried), S.None, Undefined, st)
             && (t.out.Error? || t.out.ThrowOut?)
    ensures var e := RunBlock(m, fuel, tried, Locals(tried), S.None, Undefined, st).st.env;
            RunTry(m, fuel, tried, S.Some(Reading(x, at)), S.None, st)
            != RunTry(Slow(m), fuel, tried, S.Some(Reading(x, at)), S.None, st)
            <==> x in e.frames[0].bindings && LookupRead(e, x) != Found(e.frames[0].bindings[x])
  {
    var t := RunBlock(m, fuel, tried, Locals(tried), S.None, Undefined, st);
    hide RunBlock, HandlerLocals, Handled, LookupRead;
    var h, n := Reading(x, at), Noting(t.st, st);
    HandlerReads(m, fuel, x, at, t.out.value, n);
    HandlerReads(Slow(m), fuel, x, at, t.out.value, n);
    TryIsHandler(m, fuel, tried, h, st);
    TryIsHandler(Slow(m), fuel, tried, h, st);
  }

  // ---- A script that leaks ----

  const LOOP := For(Empty, S.Some(Prim([])), S.None, Empty)

  function Declare(x: Name): Stmt {
    VarDecl(Bind(x), Prim([]))
  }

  function Attempt(x: Name, at: nat): Stmt {
    Try([Declare(x), LOOP], S.Some(Reading(x, at)), S.None)
  }

  /** `x = a; try { x' = b; for (; error; ) {} } catch { return x }`, where the second `x` is another variable. */
  function Leaky(x: Name, at: nat): seq<Stmt> {
    [Declare(x), Attempt(x, at)]
  }

  function LeakyPick(a: int, b: int): (nat, seq<Value>) -> Pick {
    (clock, vs) => if clock == 0 then Number(a) else if clock == 1 then Number(b) else Fail(0)
  }

  /** The error leaves the loop's frame current, so the handler runs inside the frame of the `try` block and the chain
      shows its variable; the recorded read shows the root's, as the program text says. So the runs differ exactly when
      the two variables do. */
  lemma TryLeaks(x: Name, at: nat, a: int, b: int)
    ensures InList(Leaky(x, at), {}, true) == {at} && OffsetsTell(Leaky(x, at))
    ensures RunScript(Machine(LeakyPick(a, b), {at}), 20, Leaky(x, at), map[]).out == ReturnOut(Plain(a))
    ensures RunScript(Machine(LeakyPick(a, b), {}), 20, Leaky(x, at), map[]).out == ReturnOut(Plain(b))
  {
    hide InList, RunScript, Leaky, Attempt;
    LeakyReads(x, at, true);
    LeakyReads(x, at, false);
    LeakyRuns(Machine(LeakyPick(a, b), {at}), x, at, a, b);
    LeakyRuns(Machine(LeakyPick(a, b), {}), x, at, a, b);
  }

  lemma ListOf(s: Stmt, t: Stmt, scope: set<Name>, free: bool)
    ensures InList([s, t], scope, free) == InStmt(s, scope, free) + InStmt(t, scope, free)
    ensures InList([s], scope, free) == InStmt(s, scope, free)
  {
    assert [s, t][1..] == [t] && [t][1..] == [] && [s][1..] == [];
    assert InList([t], scope, free) == InStmt(t, scope, free) + InList([], scope, free);
    assert InList([s], scope, free) == InStmt(s, scope, free) + InList([], scope, free);
  }

  lemma LeakyReads(x: Name, at: nat, free: bool)
    ensures InList(Leaky(x, at), {}, free) == if free then {at} else {}
  {
    hide InList, InStmt, Declare, Attempt;
    ListOf(Declare(x), Attempt(x, at), {}, free);
    NothingRead(x, {}, free);
    TryRead(x, at, free);
  }

  lemma NothingRead(x: Name, scope: set<Name>, free: bool)
    ensures InStmt(Declare(x), scope, free) == {}
    ensures InStmt(LOOP, scope, free) == {}
  {
    assert InExpr(Prim([]), scope, free) == InExprs([], scope, free) == {};
    assert InExpr(Prim([]), scope + StmtLocals(Empty) + StmtLocals(Empty), free)
        == InExprs([], scope + StmtLocals(Empty) + StmtLocals(Empty), free) == {};
  }

  lemma TryRead(x: Name, at: nat, free: bool)
    ensures InStmt(Attempt(x, at), {}, free) == if free then {at} else {}
  {
    var tried, h := [Declare(x), LOOP], Reading(x, at);
    var scope := {} + Locals(tried);
    ListOf(Declare(x), LOOP, scope, free);
    NothingRead(x, scope, free);
    assert HandlerLocals(h) == {} by {
      assert Locals(h.handling) == StmtLocals(h.handling[0]) + Locals(h.handling[1..]);
    }
    ListOf(h.handling[0], Empty, {}, free);
    assert InHandler(h, {}, free) == InStmt(h.handling[0], {}, free);
    assert InStmt(h.handling[0], {}, free) == InExpr(Ident(x, at), {}, free);
  }

  lemma LeakyRuns(m: Machine, x: Name, at: nat, a: int, b: int)
    requires m.pick == LeakyPick(a, b)
    ensures RunScript(m, 20, Leaky(x, at), map[]).out == ReturnOut(Plain(if at in m.recorded then a else b))
  {
    var root := Frame(map[], {}, S.None, {});
    var st0 := State(Env([root], 0), [], 0, false);
    hide RunStmt, RunBlock, Declare, Attempt;
    assert Leaky(x, at)[1..] == [Attempt(x, at)];
    assert HoistFunctions(Leaky(x, at), st0.env) == st0.env by {
      NothingHoisted(x, at, st0.env);
    }
    LeakyDeclares(m, 19, st0, x, a);
    var st1 := State(Env([Frame(map[x := Plain(a)], {}, S.None, {})], 0), [], 1, false);
    assert Define(st0.env, x, Plain(a)) == st1.env by {
      assert root.bindings[x := Plain(a)] == map[x := Plain(a)] && root.tdz - {x} == {};
    }
    LeakyTry(m, st1, x, at, a, b);
    OneStmt(m, 19, Attempt(x, at), st1);
  }

  lemma NothingHoisted(x: Name, at: nat, e: Env)
    requires e.Valid()
    ensures HoistFunctions(Leaky(x, at), e) == e && HoistFunctions([Declare(x), LOOP], e) == e
  {
    assert [Declare(x), Attempt(x, at)][1..] == [Attempt(x, at)] && [Attempt(x, at)][1..] == [];
    assert [Declare(x), LOOP][1..] == [LOOP] && [LOOP][1..] == [];
    assert HoistFunctions([Attempt(x, at)], e) == e && HoistFunctions([LOOP], e) == e;
  }

  lemma LeakyDeclares(m: Machine, fuel: nat, st: State, x: Name, n: int)
    requires st.Valid() && fuel > 3 && m.pick(st.clock, []) == Number(n)
    ensures RunStmt(m, fuel, Declare(x), st)
         == Step(State(Define(st.env, x, Plain(n)), st.seen, st.clock + 1, st.leaked), Normal)
  {
    assert st.seen + [] == st.seen;
    assert EvalExprs(m, fuel - 2, [], st) == Args(st, Normal, []);
    assert EvalExpr(m, fuel - 1, Prim([]), st) == Primitive(m, [], st);
  }

  lemma LeakyLoops(m: Machine, fuel: nat, st: State)
    requires st.Valid() && fuel > 5 && m.pick(st.clock, []) == Fail(0)
    ensures RunStmt(m, fuel, LOOP, st)
         == Step(State(PushScope(st.env, {}), st.seen, st.clock + 1, st.leaked), Error(Plain(0)))
  {
    var inner := With(st, PushScope(st.env, {}));
    assert StmtLocals(Empty) + StmtLocals(Empty) == {};
    assert st.seen + [] == st.seen;
    LeakyTest(m, fuel - 2, inner);
    assert RunStmt(m, fuel - 1, Empty, inner) == Step(inner, Normal);
  }

  lemma LeakyTest(m: Machine, fuel: nat, st: State)
    requires st.Valid() && fuel > 2 && m.pick(st.clock, []) == Fail(0)
    ensures EvalOptional(m, fuel, S.Some(Prim([])), st)
         == Step(State(st.env, st.seen, st.clock + 1, st.leaked), Error(Plain(0)))
  {
    assert st.seen + [] == st.seen;
    assert EvalExprs(m, fuel - 1, [], st) == Args(st, Normal, []);
  }

  /** Inside the `try` block, `x` is a variable of the block when the loop fails. */
  lemma LeakyTried(m: Machine, st: State, x: Name, a: int, b: int)
    requires m.pick == LeakyPick(a, b) && st.Valid() && st.clock == 1 && st.env.current == 0 && st.Frames() == 1
    ensures var tried := [Declare(x), LOOP];
            var t := RunBlock(m, 17, tried, Locals(tried), S.None, Undefined, st);
            && t.out == Error(Plain(0)) && |t.st.env.frames| == 3 && t.st.env.current == 1
            && t.st.env.frames[0] == st.env.frames[0] && t.st.env.frames[1].bindings == map[x := Plain(b)]
  {
    hide RunStmt, LOOP, Declare;
    var tried := [Declare(x), LOOP];
    assert tried[1..] == [LOOP];
    var e := MarkTdz(PushScope(st.env, Locals(tried)), Lexical(tried));
    NothingHoisted(x, 0, e);
    var s0 := With(st, e);
    LeakyDeclares(m, 16, s0, x, b);
    var s1 := State(Define(e, x, Plain(b)), st.seen, 2, st.leaked);
    LeakyLoops(m, 15, s1);
    OneStmt(m, 16, LOOP, s1);
    assert RunList(m, 17, tried, s0) == RunStmt(m, 15, LOOP, s1);
  }

  lemma LeakyTry(m: Machine, st: State, x: Name, at: nat, a: int, b: int)
    requires m.pick == LeakyPick(a, b) && st.Valid() && st.clock == 1
    requires st.env == Env([Frame(map[x := Plain(a)], {}, S.None, {})], 0)
    ensures RunStmt(m, 18, Attempt(x, at), st).out == ReturnOut(Plain(if at in m.recorded then a else b))
  {
    hide RunBlock, Declare, LOOP, HandlerLocals, Handled;
    LeakyTried(m, st, x, a, b);
    var tried := [Declare(x), LOOP];
    var t := RunBlock(m, 17, tried, Locals(tried), S.None, Undefined, st);
    HandlerReads(m, 17, x, at, t.out.value, Noting(t.st, st));
  }
}
