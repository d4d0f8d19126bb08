/** Running a script: every construct does to the environment what the interpreter does, also when an error passes. What
    the constructs that touch no variable compute is up to a parameter. */
module Runs {
  import opened Scripts
  import opened Environments
  import S = Syntax

  /** What a primitive step gives: a number, something the program has computed with before, or an error. */
  datatype Pick = Number(n: int) | Recall(i: nat) | Fail(n: int)

  /** How primitive steps turn out, and at which offsets reads may go to the root frame. */
  datatype Machine = Machine(pick: (nat, seq<Value>) -> Pick, recorded: set<nat>)

  /** `leaked` tells that a `try` statement went on in an environment other than the one it began in. */
  datatype State = State(env: Env, seen: seq<Value>, clock: nat, leaked: bool) {
    predicate Valid() {
      env.Valid()
    }

    function Frames(): nat {
      |env.frames|
    }
  }

  datatype Out =
    | Val(value: Value)
    | Normal
    | BreakOut
    | ContinueOut
    | ReturnOut(value: Value)
    | ThrowOut(value: Value)
    | Error(value: Value)
    | OutOfFuel

  datatype Step = Step(st: State, out: Out)

  datatype Args = Args(st: State, out: Out, values: seq<Value>)

  predicate Truthy(v: Value) {
    v.Closure? || (v.Plain? && v.n != 0)
  }

  /** The run goes on from `st`: nothing allocated is lost, and a leak stays a leak. */
  predicate Follows(st: State, st': State) {
    st'.Valid() && st.Frames() <= st'.Frames() && (st.leaked ==> st'.leaked)
  }

  function With(st: State, e: Env): State {
    st.(env := e)
  }

  // ---- Primitive steps ----

  function Primitive(m: Machine, vs: seq<Value>, st: State): (r: Step)
    requires st.Valid()
    ensures Follows(st, r.st) && r.st.env == st.env && (r.out.Val? || r.out.Error?)
  {
    var st' := st.(seen := st.seen + vs, clock := st.clock + 1);
    match m.pick(st.clock, vs)
    case Number(n) => Step(st', Val(Plain(n)))
    case Recall(i) => Step(st', Val(if i < |st'.seen| then st'.seen[i] else Undefined))
    case Fail(n) => Step(st', Error(Plain(n)))
  }

  // ---- Expressions ----

  function EvalExpr(m: Machine, fuel: nat, e: Expr, st: State): (r: Step)
    requires st.Valid()
    ensures Follows(st, r.st) && (r.out.Val? || r.out.Error? || r.out.OutOfFuel?)
    decreases fuel, 0
  {
    if fuel == 0 then Step(st, OutOfFuel)
    else
      match e
      case Ident(x, at) =>
        var found := FastRead(st.env, x, at, m.recorded);
        Step(st, if found.Found? then Val(found.value) else Error(Undefined))
      case Prim(es) =>
        var a := EvalExprs(m, fuel - 1, es, st);
        if a.out != Normal then Step(a.st, a.out) else Primitive(m, a.values, a.st)
      case Choice(c, x, y) =>
        var r := EvalExpr(m, fuel - 1, c, st);
        if !r.out.Val? then r else EvalExpr(m, fuel - 1, if Truthy(r.out.value) then x else y, r.st)
      case Assign(x, _, value) =>
        var r := EvalExpr(m, fuel - 1, value, st);
        if !r.out.Val? then r
        else
          var set' := Set(r.st.env, x, r.out.value);
          if set'.None? then Step(r.st, Error(Undefined)) else Step(With(r.st, set'.value), r.out)
      case Function(own, code) => MakeClosure(own, code, st)
      case Call(f, args) =>
        var r := EvalExpr(m, fuel - 1, f, st);
        if !r.out.Val? then r
        else
          var a := EvalExprs(m, fuel - 1, args, r.st);
          if a.out != Normal then Step(a.st, a.out) else CallFunction(m, fuel - 1, r.out.value, a.values, a.st)
  }

  /** A named function expression gets a frame of its own that holds its name. */
  function MakeClosure(own: Maybe<Name>, code: Code, st: State): (r: Step)
    requires st.Valid()
    ensures Follows(st, r.st) && r.out.Val?
  {
    if own.None? then Step(st, Val(Closure(code, st.env.current)))
    else
      var inner := PushScope(st.env, {own.value});
      var f := Closure(code, inner.current);
      Step(With(st, Define(inner, own.value, f).(current := st.env.current)), Val(f))
  }

  function EvalExprs(m: Machine, fuel: nat, es: seq<Expr>, st: State): (r: Args)
    requires st.Valid()
    ensures Follows(st, r.st) && (r.out.Normal? || r.out.Error? || r.out.OutOfFuel?)
    decreases fuel, 0
  {
    if fuel == 0 then Args(st, OutOfFuel, [])
    else if es == [] then Args(st, Normal, [])
    else
      var r := EvalExpr(m, fuel - 1, es[0], st);
      if !r.out.Val? then Args(r.st, r.out, [])
      else
        var more := EvalExprs(m, fuel - 1, es[1..], r.st);
        Args(more.st, more.out, [r.out.value] + more.values)
  }

  /** How many arguments a call must have: one for each parameter without a default. */
  function Required(ps: seq<Param>): nat {
    if ps == [] then 0 else (if ps[0].default.None? then 1 else 0) + Required(ps[1..])
  }

  /** A call with too few arguments fails at once. Any other runs in a frame on top of the closure's, and goes back to
      the caller's frame unless binding the parameters failed. */
  function CallFunction(m: Machine, fuel: nat, f: Value, args: seq<Value>, st: State): (r: Step)
    requires st.Valid()
    ensures Follows(st, r.st) && (r.out.Val? || r.out.Error? || r.out.OutOfFuel?)
    decreases fuel, 0
  {
    if fuel == 0 then Step(st, OutOfFuel)
    else if !f.Closure? || f.env >= st.Frames() then Step(st, Error(Undefined))
    else if |args| < Required(f.code.params) then Step(st, Error(Undefined))
    else
      var inner := PushScope(st.env.(current := f.env), CodeLocals(f.code));
      var b := BindParams(m, fuel - 1, f.code.params, args, With(st, inner));
      if b.out != Normal then b
      else
        var r := RunBody(m, fuel - 1, f.code.body, With(b.st, MarkTdz(b.st.env, Lexical(f.code.body))));
        Step(With(r.st, r.st.env.(current := st.env.current)), Returned(r.out))
  }

  function Returned(out: Out): Out {
    match out
    case ReturnOut(v) => Val(v)
    case ThrowOut(v) => Error(v)
    case Normal => Val(Undefined)
    case OutOfFuel => OutOfFuel
    case Error(v) => Error(v)
    case _ => Error(Undefined)
  }

  // ---- Patterns and parameters ----

  function BindPattern(m: Machine, fuel: nat, p: Pattern, v: Value, st: State): (r: Step)
    requires st.Valid()
    ensures Follows(st, r.st) && (r.out.Normal? || r.out.Error? || r.out.OutOfFuel?)
    decreases fuel, 0
  {
    if fuel == 0 then Step(st, OutOfFuel)
    else
      match p
      case Bind(x) => Step(With(st, Define(st.env, x, v)), Normal)
      case Default(inner, e) =>
        if v == Undefined then
          var r := EvalExpr(m, fuel - 1, e, st);
          if !r.out.Val? then r else BindPattern(m, fuel - 1, inner, r.out.value, r.st)
        else BindPattern(m, fuel - 1, inner, v, st)
      case Parts(ps) => BindParts(m, fuel - 1, ps, v, st)
  }

  function BindParts(m: Machine, fuel: nat, ps: seq<Pattern>, v: Value, st: State): (r: Step)
    requires st.Valid()
    ensures Follows(st, r.st) && (r.out.Normal? || r.out.Error? || r.out.OutOfFuel?)
    decreases fuel, 0
  {
    if fuel == 0 then Step(st, OutOfFuel)
    else if ps == [] then Step(st, Normal)
    else
      var part := Primitive(m, [v], st);
      if !part.out.Val? then part
      else
        var r := BindPattern(m, fuel - 1, ps[0], part.out.value, part.st);
        if r.out != Normal then r else BindParts(m, fuel - 1, ps[1..], v, r.st)
  }

  function BindParams(m: Machine, fuel: nat, ps: seq<Param>, args: seq<Value>, st: State): (r: Step)
    requires st.Valid()
    ensures Follows(st, r.st) && (r.out.Normal? || r.out.Error? || r.out.OutOfFuel?)
    decreases fuel, 0
  {
    if fuel == 0 then Step(st, OutOfFuel)
    else if ps == [] then Step(st, Normal)
    else
      var a := Argument(m, fuel - 1, ps[0].default, args, st);
      if !a.out.Val? then a
      else
        var r := BindPattern(m, fuel - 1, ps[0].pattern, a.out.value, a.st);
        if r.out != Normal then r else BindParams(m, fuel - 1, ps[1..], if args == [] then [] else args[1..], r.st)
  }

  function Argument(m: Machine, fuel: nat, default: Maybe<Expr>, args: seq<Value>, st: State): (r: Step)
    requires st.Valid()
    ensures Follows(st, r.st) && (r.out.Val? || r.out.Error? || r.out.OutOfFuel?)
    decreases fuel, 1
  {
    if args != [] then Step(st, Val(args[0]))
    else if default.Some? then EvalExpr(m, fuel, default.value, st)
    else Step(st, Val(Undefined))
  }

  // ---- Statements ----

  function HoistFunctions(ss: seq<Stmt>, e: Env): (r: Env)
    requires e.Valid()
    ensures r.Valid() && |r.frames| == |e.frames| && r.current == e.current
  {
    if ss == [] then e
    else if ss[0].FunctionDecl? then HoistFunctions(ss[1..], Define(e, ss[0].name, Closure(ss[0].code, e.current)))
    else HoistFunctions(ss[1..], e)
  }

  function RunBody(m: Machine, fuel: nat, ss: seq<Stmt>, st: State): (r: Step)
    requires st.Valid()
    ensures Follows(st, r.st) && !r.out.Val?
    decreases fuel, 2
  {
    RunList(m, fuel, ss, With(st, HoistFunctions(ss, st.env)))
  }

  function RunList(m: Machine, fuel: nat, ss: seq<Stmt>, st: State): (r: Step)
    requires st.Valid()
    ensures Follows(st, r.st) && !r.out.Val?
    decreases fuel, 1
  {
    if fuel == 0 then Step(st, OutOfFuel)
    else if ss == [] then Step(st, Normal)
    else
      var r := RunStmt(m, fuel - 1, ss[0], st);
      if r.out != Normal then r else RunList(m, fuel - 1, ss[1..], r.st)
  }

  /** A block runs in a frame of its own and leaves one frame when it ends, however it ends. */
  function RunBlock(m: Machine, fuel: nat, ss: seq<Stmt>, locals: set<Name>, caught: Maybe<Name>, v: Value,
                    st: State): (r: Step)
    requires st.Valid()
    ensures Follows(st, r.st) && !r.out.Val?
    decreases fuel, 3
  {
    var pushed := PushScope(st.env, locals);
    var bound := if caught.Some? then Define(pushed, caught.value, v) else pushed;
    var r := RunBody(m, fuel, ss, With(st, MarkTdz(bound, Lexical(ss))));
    Step(With(r.st, PopScope(r.st.env)), r.out)
  }

  function RunStmt(m: Machine, fuel: nat, s: Stmt, st: State): (r: Step)
    requires st.Valid()
    ensures Follows(st, r.st) && !r.out.Val?
    decreases fuel, 0
  {
    if fuel == 0 then Step(st, OutOfFuel)
    else
      match s
      case Empty => Step(st, Normal)
      case Break => Step(st, BreakOut)
      case Continue => Step(st, ContinueOut)
      case VarDecl(p, e) =>
        var r := EvalExpr(m, fuel - 1, e, st);
        if !r.out.Val? then r else BindPattern(m, fuel - 1, p, r.out.value, r.st)
      case Eval(e) =>
        var r := EvalExpr(m, fuel - 1, e, st);
        if !r.out.Val? then r else Step(r.st, Normal)
      case Return(e) =>
        var r := EvalExpr(m, fuel - 1, e, st);
        if !r.out.Val? then r else Step(r.st, ReturnOut(r.out.value))
      case Throw(e) =>
        var r := EvalExpr(m, fuel - 1, e, st);
        if !r.out.Val? then r else Step(r.st, ThrowOut(r.out.value))
      case Block(body) => RunBlock(m, fuel - 1, body, Locals(body), S.None, Undefined, st)
      case If(c, a, b) =>
        var r := EvalExpr(m, fuel - 1, c, st);
        if !r.out.Val? then r else RunStmt(m, fuel - 1, if Truthy(r.out.value) then a else b, r.st)
      case While(c, loop) => RunWhile(m, fuel - 1, c, loop, st)
      case For(start, c, u, loop) =>
        var r := RunStmt(m, fuel - 1, start, With(st, PushScope(st.env, StmtLocals(start) + StmtLocals(loop))));
        if r.out.Error? || r.out.OutOfFuel? then r else RunFor(m, fuel - 1, c, u, loop, r.st)
      case ForEach(p, e, loop) =>
        var r := EvalExpr(m, fuel - 1, e, st);
        if !r.out.Val? then r
        else
          var inner := With(r.st, PushScope(r.st.env, PatternNames(p) + StmtLocals(loop)));
          RunEach(m, fuel - 1, p, r.out.value, loop, inner)
      case FunctionDecl(x, code) => Step(With(st, Define(st.env, x, Closure(code, st.env.current))), Normal)
      case Try(tried, handler, finalizer) => RunTry(m, fuel - 1, tried, handler, finalizer, st)
  }

  function RunWhile(m: Machine, fuel: nat, c: Expr, loop: Stmt, st: State): (r: Step)
    requires st.Valid()
    ensures Follows(st, r.st) && !r.out.Val?
    decreases fuel, 1
  {
    if fuel == 0 then Step(st, OutOfFuel)
    else
      var r := EvalExpr(m, fuel - 1, c, st);
      if !r.out.Val? then r
      else if !Truthy(r.out.value) then Step(r.st, Normal)
      else AfterWhile(m, fuel - 1, c, loop, RunStmt(m, fuel - 1, loop, r.st))
  }

  function AfterWhile(m: Machine, fuel: nat, c: Expr, loop: Stmt, b: Step): (r: Step)
    requires b.st.Valid() && !b.out.Val?
    ensures Follows(b.st, r.st) && !r.out.Val?
    decreases fuel, 2
  {
    if b.out.BreakOut? then Step(b.st, Normal)
    else if b.out.Normal? || b.out.ContinueOut? then RunWhile(m, fuel, c, loop, b.st)
    else b
  }

  function EvalOptional(m: Machine, fuel: nat, e: Maybe<Expr>, st: State): (r: Step)
    requires st.Valid()
    ensures Follows(st, r.st) && (r.out.Val? || r.out.Error? || r.out.OutOfFuel?)
    decreases fuel, 1
  {
    if e.Some? then EvalExpr(m, fuel, e.value, st) else Step(st, Val(Plain(1)))
  }

  /** Each iteration but the first runs in a copy of the frame before it. */
  function RunFor(m: Machine, fuel: nat, c: Maybe<Expr>, u: Maybe<Expr>, loop: Stmt, st: State): (r: Step)
    requires st.Valid()
    ensures Follows(st, r.st) && !r.out.Val?
    decreases fuel, 2
  {
    if fuel == 0 then Step(st, OutOfFuel)
    else
      var r := EvalOptional(m, fuel - 1, c, st);
      if !r.out.Val? then r
      else if !Truthy(r.out.value) then Leave(r.st, Normal)
      else AfterFor(m, fuel - 1, c, u, loop, RunStmt(m, fuel - 1, loop, r.st))
  }

  function AfterFor(m: Machine, fuel: nat, c: Maybe<Expr>, u: Maybe<Expr>, loop: Stmt, b: Step): (r: Step)
    requires b.st.Valid() && !b.out.Val?
    ensures Follows(b.st, r.st) && !r.out.Val?
    decreases fuel, 3
  {
    if Ends(b.out) then Finish(b)
    else
      var next := EvalOptional(m, fuel, u, With(b.st, ForkCurrent(b.st.env)));
      if !next.out.Val? then next else RunFor(m, fuel, c, u, loop, next.st)
  }

  /** The body's outcome ends the loop. */
  predicate Ends(out: Out) {
    !out.Normal? && !out.ContinueOut?
  }

  function Leave(st: State, out: Out): (r: Step)
    requires st.Valid()
    ensures Follows(st, r.st) && r.out == out
  {
    Step(With(st, PopScope(st.env)), out)
  }

  /** An error leaves the loop's frame in place. */
  function Finish(b: Step): (r: Step)
    requires b.st.Valid() && Ends(b.out) && !b.out.Val?
    ensures Follows(b.st, r.st) && !r.out.Val?
  {
    if b.out.Error? || b.out.OutOfFuel? then b else Leave(b.st, if b.out.BreakOut? then Normal else b.out)
  }

  /** Each item is bound in a copy of the frame before it. */
  function RunEach(m: Machine, fuel: nat, p: Pattern, items: Value, loop: Stmt, st: State): (r: Step)
    requires st.Valid()
    ensures Follows(st, r.st) && !r.out.Val?
    decreases fuel, 2
  {
    if fuel == 0 then Step(st, OutOfFuel)
    else
      var item := Primitive(m, [items], st);
      if !item.out.Val? then Leave(item.st, Normal)
      else
        var bound := BindPattern(m, fuel - 1, p, item.out.value, With(item.st, ForkCurrent(item.st.env)));
        EachBody(m, fuel - 1, p, items, loop, bound)
  }

  function EachBody(m: Machine, fuel: nat, p: Pattern, items: Value, loop: Stmt, bound: Step): (r: Step)
    requires bound.st.Valid() && !bound.out.Val?
    ensures Follows(bound.st, r.st) && !r.out.Val?
    decreases fuel, 4
  {
    if bound.out.Error? then Leave(bound.st, bound.out)
    else if bound.out.OutOfFuel? then bound
    else AfterEach(m, fuel, p, items, loop, RunStmt(m, fuel, loop, bound.st))
  }

  function AfterEach(m: Machine, fuel: nat, p: Pattern, items: Value, loop: Stmt, b: Step): (r: Step)
    requires b.st.Valid() && !b.out.Val?
    ensures Follows(b.st, r.st) && !r.out.Val?
    decreases fuel, 3
  {
    if Ends(b.out) then Finish(b) else RunEach(m, fuel, p, items, loop, b.st)
  }

  function RunTry(m: Machine, fuel: nat, tried: seq<Stmt>, handler: Maybe<Handler>, finalizer: Maybe<Finalizer>,
                  st: State)
      : (r: Step)
    requires st.Valid()
    ensures Follows(st, r.st) && !r.out.Val?
    decreases fuel, 6
  {
    var t := RunBlock(m, fuel, tried, Locals(tried), S.None, Undefined, st);
    if t.out.OutOfFuel? then t
    else
      var c := Caught(m, fuel, handler, st, t);
      if c.out.OutOfFuel? then c else Finalized(m, fuel, finalizer, st, c)
  }

  /** The environment is not put back before the handler runs. */
  function Caught(m: Machine, fuel: nat, handler: Maybe<Handler>, st: State, t: Step): (r: Step)
    requires st.Valid() && t.st.Valid() && !t.out.Val?
    ensures Follows(t.st, r.st) && !r.out.Val?
    decreases fuel, 4
  {
    if handler.Some? && (t.out.Error? || t.out.ThrowOut?) then
      var h := handler.value;
      RunBlock(m, fuel, h.handling, HandlerLocals(h), h.caught, t.out.value, Noting(t.st, st))
    else t
  }

  /** Nor before the finalizer runs, which overrides the outcome if it fails, returns or throws. */
  function Finalized(m: Machine, fuel: nat, finalizer: Maybe<Finalizer>, st: State, c: Step): (r: Step)
    requires st.Valid() && c.st.Valid() && !c.out.Val?
    ensures Follows(c.st, r.st) && !r.out.Val?
    decreases fuel, 4
  {
    if finalizer.None? then c
    else
      var fin := finalizer.value;
      var f := RunBlock(m, fuel, fin.finals, FinalizerLocals(fin), S.None, Undefined, Noting(c.st, st));
      if f.out.Error? || f.out.ReturnOut? || f.out.ThrowOut? || f.out.OutOfFuel? then f else Step(f.st, c.out)
  }

  function Noting(st: State, before: State): State {
    st.(leaked := st.leaked || st.env.current != before.env.current)
  }

  // ---- Whole scripts ----

  function RunScript(m: Machine, fuel: nat, script: seq<Stmt>, globals: map<Name, Value>): Step {
    var root := Frame(globals, {}, S.None, {});
    RunBody(m, fuel, script, State(Env([root], 0), [], 0, false))
  }
}
