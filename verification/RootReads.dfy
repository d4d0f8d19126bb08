/** Reads the resolver recorded may go to the root frame: on every run they see what the whole chain of frames shows. */
module RootReads {
  import opened Scripts
  import opened Environments
  import opened Runs
  import S = Syntax

  // ---- What the resolver knows, dynamically ----

  /** At the offsets in `recorded`, and only there, code whose scopes declare `scope` reads names outside `scope`. */
  predicate Marked(free: set<nat>, bound: set<nat>, recorded: set<nat>) {
    free <= recorded && bound !! recorded
  }

  predicate ExprMarked(e: Expr, scope: set<Name>, recorded: set<nat>) {
    Marked(InExpr(e, scope, true), InExpr(e, scope, false), recorded)
  }

  predicate ExprsMarked(es: seq<Expr>, scope: set<Name>, recorded: set<nat>) {
    Marked(InExprs(es, scope, true), InExprs(es, scope, false), recorded)
  }

  predicate OptionalMarked(e: Maybe<Expr>, scope: set<Name>, recorded: set<nat>) {
    Marked(InOptional(e, scope, true), InOptional(e, scope, false), recorded)
  }

  predicate PatternMarked(p: Pattern, scope: set<Name>, recorded: set<nat>) {
    Marked(InPattern(p, scope, true), InPattern(p, scope, false), recorded)
  }

  predicate PartsMarked(ps: seq<Pattern>, scope: set<Name>, recorded: set<nat>) {
    Marked(InParts(ps, scope, true), InParts(ps, scope, false), recorded)
  }

  predicate ParamsMarked(ps: seq<Param>, scope: set<Name>, recorded: set<nat>) {
    Marked(InParams(ps, scope, true), InParams(ps, scope, false), recorded)
  }

  predicate CodeMarked(code: Code, scope: set<Name>, recorded: set<nat>) {
    var inside := scope + CodeLocals(code);
    Marked(InCode(code, inside, true), InCode(code, inside, false), recorded)
  }

  predicate StmtMarked(s: Stmt, scope: set<Name>, recorded: set<nat>) {
    Marked(InStmt(s, scope, true), InStmt(s, scope, false), recorded)
  }

  predicate ListMarked(ss: seq<Stmt>, scope: set<Name>, recorded: set<nat>) {
    Marked(InList(ss, scope, true), InList(ss, scope, false), recorded)
  }

  // ---- The invariant ----

  /** A closure's code was resolved under the scopes of the frame it was made in. */
  predicate ValueOk(frames: seq<Frame>, recorded: set<nat>, v: Value) {
    v.Closure? ==> v.env < |frames| && CodeMarked(v.code, frames[v.env].scope, recorded)
  }

  /** What a frame other than the root binds, or holds back, is declared by the scopes around the code it belongs to. */
  predicate FrameOk(frames: seq<Frame>, f: nat)
    requires f < |frames|
  {
    var fr := frames[f];
    if f == 0 then fr.parent.None? && fr.scope == {}
    else
      && fr.parent.Some? && fr.parent.value < f && frames[fr.parent.value].scope <= fr.scope
      && fr.bindings.Keys <= fr.scope && fr.tdz <= fr.scope
  }

  ghost predicate EnvOk(e: Env, recorded: set<nat>) {
    && e.Valid()
    && (forall f :: 0 <= f < |e.frames| ==> FrameOk(e.frames, f))
    && (forall f, x :: 0 <= f < |e.frames| && x in e.frames[f].bindings ==>
          ValueOk(e.frames, recorded, e.frames[f].bindings[x]))
  }

  ghost predicate ValuesOk(frames: seq<Frame>, recorded: set<nat>, vs: seq<Value>) {
    forall i :: 0 <= i < |vs| ==> ValueOk(frames, recorded, vs[i])
  }

  ghost predicate StateOk(st: State, recorded: set<nat>) {
    EnvOk(st.env, recorded) && ValuesOk(st.env.frames, recorded, st.seen)
  }

  function Scope(e: Env): set<Name>
    requires e.Valid()
  {
    e.frames[e.current].scope
  }

  /** Frames keep their place, their parent and their scope. */
  predicate Keeps(a: Env, b: Env) {
    |a.frames| <= |b.frames|
    && forall f :: 0 <= f < |a.frames| ==>
         a.frames[f].scope == b.frames[f].scope && a.frames[f].parent == b.frames[f].parent
  }

  lemma ValueKept(a: Env, b: Env, recorded: set<nat>, v: Value)
    requires ValueOk(a.frames, recorded, v) && Keeps(a, b)
    ensures ValueOk(b.frames, recorded, v)
  {
  }

  lemma ValuesKept(a: Env, b: Env, recorded: set<nat>, vs: seq<Value>)
    requires ValuesOk(a.frames, recorded, vs) && Keeps(a, b)
    ensures ValuesOk(b.frames, recorded, vs)
  {
    hide CodeMarked;
  }

  lemma KeepsTwice(a: Env, b: Env, c: Env)
    requires Keeps(a, b) && Keeps(b, c)
    ensures Keeps(a, c)
  {
  }

  /** The names may be bound in the current frame. */
  predicate Declares(e: Env, names: set<Name>)
    requires e.Valid()
  {
    e.current == 0 || names <= Scope(e)
  }

  // ---- Reading ----

  /** A name no scope declares is looked up past every frame but the root. */
  lemma {:induction false} RootAnswers(frames: seq<Frame>, f: nat, x: Name)
    requires Linked(frames) && (forall g :: 0 <= g < |frames| ==> FrameOk(frames, g))
    requires f < |frames| && x !in frames[f].scope
    ensures LookupFrom(frames, f, x) == FrameLookup(frames[0], x)
    decreases f
  {
    assert FrameOk(frames, f);
    if f > 0 {
      RootAnswers(frames, frames[f].parent.value, x);
    }
  }

  /** A read at a recorded offset is answered by the chain as by the root alone, and so the fast answer is the slow
      one. */
  lemma RecordedReadsAgree(e: Env, recorded: set<nat>, x: Name, at: nat)
    requires EnvOk(e, recorded) && ExprMarked(Ident(x, at), Scope(e), recorded)
    ensures at in recorded ==> LookupRead(e, x) == FrameLookup(e.frames[0], x)
    ensures FastRead(e, x, at, recorded) == LookupRead(e, x) == FastRead(e, x, at, {})
  {
    if at in recorded {
      assert x !in Scope(e);
      RootAnswers(e.frames, e.current, x);
    }
  }

  lemma {:induction false} FoundIsOk(e: Env, recorded: set<nat>, f: nat, x: Name)
    requires EnvOk(e, recorded) && f < |e.frames| && LookupFrom(e.frames, f, x).Found?
    ensures ValueOk(e.frames, recorded, LookupFrom(e.frames, f, x).value)
    decreases f
  {
    hide ValueOk;
    if x !in e.frames[f].bindings {
      FoundIsOk(e, recorded, e.frames[f].parent.value, x);
    }
  }

  // ---- The environment operations keep the invariant ----

  lemma PushOk(e: Env, recorded: set<nat>, names: set<Name>)
    requires EnvOk(e, recorded)
    ensures var r := PushScope(e, names);
            && EnvOk(r, recorded) && Keeps(e, r) && Scope(r) == Scope(e) + names && r.current > 0
            && r.frames[r.current].parent == S.Some(e.current)
  {
    hide CodeMarked;
    var r := PushScope(e, names);
    forall f | 0 <= f < |r.frames|
      ensures FrameOk(r.frames, f)
    {
      assert f < |e.frames| ==> FrameOk(e.frames, f);
    }
  }

  lemma ForkOk(e: Env, recorded: set<nat>)
    requires EnvOk(e, recorded) && e.current > 0
    ensures var r := ForkCurrent(e);
            && EnvOk(r, recorded) && Keeps(e, r) && Scope(r) == Scope(e) && r.current > 0
            && r.frames[r.current].parent == e.frames[e.current].parent
  {
    hide CodeMarked;
    var r := ForkCurrent(e);
    assert FrameOk(e.frames, e.current);
    forall f | 0 <= f < |r.frames|
      ensures FrameOk(r.frames, f)
    {
      assert f < |e.frames| ==> FrameOk(e.frames, f);
    }
  }

  lemma DefineOk(e: Env, recorded: set<nat>, x: Name, v: Value)
    requires EnvOk(e, recorded) && ValueOk(e.frames, recorded, v) && Declares(e, {x})
    ensures var r := Define(e, x, v);
            EnvOk(r, recorded) && Keeps(e, r) && r.current == e.current
  {
    hide CodeMarked;
    var r := Define(e, x, v);
    forall f | 0 <= f < |r.frames|
      ensures FrameOk(r.frames, f)
    {
      assert FrameOk(e.frames, f);
    }
  }

  lemma TdzOk(e: Env, recorded: set<nat>, names: set<Name>)
    requires EnvOk(e, recorded) && names <= Scope(e)
    ensures var r := MarkTdz(e, names);
            EnvOk(r, recorded) && Keeps(e, r) && r.current == e.current
  {
    hide CodeMarked;
    var r := MarkTdz(e, names);
    forall f | 0 <= f < |r.frames|
      ensures FrameOk(r.frames, f)
    {
      assert FrameOk(e.frames, f);
    }
  }

  lemma {:induction false} HolderDeclares(e: Env, recorded: set<nat>, x: Name, v: Value)
    requires EnvOk(e, recorded) && ValueOk(e.frames, recorded, v) && Set(e, x, v).Some?
    ensures var r := Set(e, x, v).value;
            EnvOk(r, recorded) && Keeps(e, r) && r.current == e.current
  {
    hide CodeMarked;
    var r := Set(e, x, v).value;
    forall f | 0 <= f < |r.frames|
      ensures FrameOk(r.frames, f)
    {
      assert FrameOk(e.frames, f);
    }
  }

  lemma CurrentOk(e: Env, recorded: set<nat>, current: nat)
    requires EnvOk(e, recorded) && current < |e.frames|
    ensures EnvOk(e.(current := current), recorded)
  {
    hide CodeMarked;
  }

  // ---- Every run ----

  function Slow(m: Machine): Machine {
    m.(recorded := {})
  }

  predicate Carries(out: Out) {
    out.Val? || out.ReturnOut? || out.ThrowOut? || out.Error?
  }

  /** The step keeps the invariant and, unless an error passes, ends in frame `home`. */
  ghost predicate FineTo(recorded: set<nat>, st: State, home: nat, r: Step) {
    r.out.OutOfFuel? ||
    (&& StateOk(r.st, recorded) && Keeps(st.env, r.st.env)
     && (Carries(r.out) ==> ValueOk(r.st.env.frames, recorded, r.out.value))
     && (!r.out.Error? ==> r.st.env.current == home))
  }

  ghost predicate Fine(recorded: set<nat>, st: State, r: Step) {
    FineTo(recorded, st, st.env.current, r)
  }

  ghost predicate FineArgs(recorded: set<nat>, st: State, r: Args) {
    Fine(recorded, st, Step(r.st, r.out)) && (!r.out.OutOfFuel? ==> ValuesOk(r.st.env.frames, recorded, r.values))
  }

  /** Unless a `try` leaks, both machines do the same, and all is fine. */
  ghost predicate Agrees(recorded: set<nat>, st: State, fast: Step, slow: Step) {
    AgreesTo(recorded, st, st.env.current, fast, slow)
  }

  ghost predicate AgreesTo(recorded: set<nat>, st: State, home: nat, fast: Step, slow: Step) {
    !fast.st.leaked ==> fast == slow && FineTo(recorded, st, home, fast)
  }

  lemma FineChain(recorded: set<nat>, st: State, a: Step, b: Step)
    requires Fine(recorded, st, a) && !a.out.Error? && !a.out.OutOfFuel? && Fine(recorded, a.st, b)
    ensures Fine(recorded, st, b)
  {
    FineFrom(recorded, st, a.st, st.env.current, b);
  }

  lemma FineFrom(recorded: set<nat>, st: State, mid: State, home: nat, b: Step)
    requires Keeps(st.env, mid.env) && FineTo(recorded, mid, home, b)
    ensures FineTo(recorded, st, home, b)
  {
    hide StateOk, ValueOk;
    if !b.out.OutOfFuel? {
      KeepsTwice(st.env, mid.env, b.st.env);
    }
  }

  lemma ScopeKept(recorded: set<nat>, st: State, a: Step)
    requires st.Valid() && Fine(recorded, st, a) && !a.out.Error? && !a.out.OutOfFuel?
    ensures StateOk(a.st, recorded) && Scope(a.st.env) == Scope(st.env) && a.st.env.current == st.env.current
    ensures Carries(a.out) ==> ValueOk(a.st.env.frames, recorded, a.out.value)
  {
    hide EnvOk;
  }

  lemma ValueStays(recorded: set<nat>, v: Value, st: State, a: Step)
    requires ValueOk(st.env.frames, recorded, v) && Fine(recorded, st, a) && !a.out.OutOfFuel?
    ensures ValueOk(a.st.env.frames, recorded, v)
  {
    hide CodeMarked, StateOk;
  }

  lemma StuckFine(recorded: set<nat>, st: State)
    ensures Fine(recorded, st, Step(st, OutOfFuel))
  {
  }

  lemma FineHere(recorded: set<nat>, st: State, out: Out)
    requires StateOk(st, recorded) && (Carries(out) ==> ValueOk(st.env.frames, recorded, out.value))
    ensures Fine(recorded, st, Step(st, out))
  {
  }

  /** A change of the environment that keeps frames and the current frame is fine. */
  lemma FineWith(recorded: set<nat>, st: State, e: Env, out: Out)
    requires StateOk(st, recorded) && EnvOk(e, recorded) && Keeps(st.env, e)
    requires (out.Error? || e.current == st.env.current)
    requires Carries(out) ==> ValueOk(e.frames, recorded, out.value)
    ensures Fine(recorded, st, Step(With(st, e), out)) && StateOk(With(st, e), recorded)
  {
    ValuesKept(st.env, e, recorded, st.seen);
  }

  /** The parts of marked code are marked. */
  lemma ExprParts(e: Expr, scope: set<Name>, recorded: set<nat>)
    requires ExprMarked(e, scope, recorded)
    ensures e.Prim? ==> ExprsMarked(e.operands, scope, recorded)
    ensures e.Choice? ==> ExprMarked(e.condition, scope, recorded) && ExprMarked(e.thenExpr, scope, recorded)
                          && ExprMarked(e.elseExpr, scope, recorded)
    ensures e.Assign? ==> ExprMarked(e.value, scope, recorded)
    ensures e.Call? ==> ExprMarked(e.callee, scope, recorded) && ExprsMarked(e.args, scope, recorded)
  {
  }

  lemma StmtParts(s: Stmt, scope: set<Name>, recorded: set<nat>)
    requires StmtMarked(s, scope, recorded)
    ensures s.VarDecl? ==> PatternMarked(s.pattern, scope, recorded) && ExprMarked(s.init, scope, recorded)
    ensures s.If? ==> ExprMarked(s.condition, scope, recorded) && StmtMarked(s.thenBranch, scope, recorded)
                      && StmtMarked(s.elseBranch, scope, recorded)
    ensures s.While? ==> ExprMarked(s.condition, scope, recorded) && StmtMarked(s.loop, scope, recorded)
    ensures s.Block? ==> ListMarked(s.body, scope + Locals(s.body), recorded)
    ensures s.Eval? ==> ExprMarked(s.expr, scope, recorded)
    ensures s.Return? || s.Throw? ==> ExprMarked(s.value, scope, recorded)
    ensures s.FunctionDecl? ==> CodeMarked(s.code, scope, recorded)
  {
  }

  lemma ListParts(ss: seq<Stmt>, scope: set<Name>, recorded: set<nat>)
    requires ListMarked(ss, scope, recorded) && ss != []
    ensures StmtMarked(ss[0], scope, recorded) && ListMarked(ss[1..], scope, recorded)
  {
  }

  lemma ExprsParts(es: seq<Expr>, scope: set<Name>, recorded: set<nat>)
    requires ExprsMarked(es, scope, recorded) && es != []
    ensures ExprMarked(es[0], scope, recorded) && ExprsMarked(es[1..], scope, recorded)
  {
  }

  lemma PatternParts(p: Pattern, scope: set<Name>, recorded: set<nat>)
    requires PatternMarked(p, scope, recorded)
    ensures p.Default? ==> PatternMarked(p.inner, scope, recorded) && ExprMarked(p.default, scope, recorded)
    ensures p.Parts? ==> PartsMarked(p.parts, scope, recorded)
  {
  }

  lemma PartsParts(ps: seq<Pattern>, scope: set<Name>, recorded: set<nat>)
    requires PartsMarked(ps, scope, recorded) && ps != []
    ensures PatternMarked(ps[0], scope, recorded) && PartsMarked(ps[1..], scope, recorded)
  {
  }

  lemma IsValid(st: State, recorded: set<nat>)
    requires StateOk(st, recorded)
    ensures st.Valid()
  {
  }

  lemma PrimitiveFine(m: Machine, vs: seq<Value>, st: State)
    requires StateOk(st, m.recorded) && ValuesOk(st.env.frames, m.recorded, vs)
    ensures Agrees(m.recorded, st, Primitive(m, vs, st), Primitive(Slow(m), vs, st))
    ensures Fine(m.recorded, st, Primitive(m, vs, st))
  {
    hide CodeMarked, EnvOk;
    IsValid(st, m.recorded);
    var r := Primitive(m, vs, st);
    assert ValuesOk(r.st.env.frames, m.recorded, r.st.seen);
  }

  // ---- Expressions ----

  lemma {:induction false} ExprAgrees(m: Machine, fuel: nat, e: Expr, st: State)
    requires StateOk(st, m.recorded) && ExprMarked(e, Scope(st.env), m.recorded)
    ensures Agrees(m.recorded, st, EvalExpr(m, fuel, e, st), EvalExpr(Slow(m), fuel, e, st))
    decreases fuel, 0
  {
    if fuel > 0 {
      match e
      case Ident(x, at) => IdentAgrees(m, fuel, x, at, st);
      case Prim(es) => PrimAgrees(m, fuel, es, st);
      case Choice(c, x, y) => ChoiceAgrees(m, fuel, c, x, y, st);
      case Assign(x, at, value) => AssignAgrees(m, fuel, x, at, value, st);
      case Function(own, code) => ClosureFine(m, own, code, st);
      case Call(f, args) => CallAgrees(m, fuel, f, args, st);
    }
  }

  lemma IdentAgrees(m: Machine, fuel: nat, x: Name, at: nat, st: State)
    requires StateOk(st, m.recorded) && ExprMarked(Ident(x, at), Scope(st.env), m.recorded) && fuel > 0
    ensures Agrees(m.recorded, st, EvalExpr(m, fuel, Ident(x, at), st), EvalExpr(Slow(m), fuel, Ident(x, at), st))
  {
    RecordedReadsAgree(st.env, m.recorded, x, at);
    hide ExprMarked, EnvOk, FastRead;
    if LookupRead(st.env, x).Found? {
      FoundIsOk(st.env, m.recorded, st.env.current, x);
    }
  }

  lemma {:induction false} PrimAgrees(m: Machine, fuel: nat, es: seq<Expr>, st: State)
    requires StateOk(st, m.recorded) && ExprMarked(Prim(es), Scope(st.env), m.recorded) && fuel > 0
    ensures Agrees(m.recorded, st, EvalExpr(m, fuel, Prim(es), st), EvalExpr(Slow(m), fuel, Prim(es), st))
    decreases fuel - 1, 5
  {
    hide StateOk, ValueOk, ValuesOk, EvalExprs, Primitive, Keeps, ExprMarked, ExprsMarked, StmtMarked, ListMarked,
         PatternMarked, PartsMarked, FineTo;
    IsValid(st, m.recorded);
    ExprParts(Prim(es), Scope(st.env), m.recorded);
    ExprsAgree(m, fuel - 1, es, st);
    var a := EvalExprs(m, fuel - 1, es, st);
    if !a.st.leaked && a.out == Normal {
      ArgsFine(m.recorded, st, a);
      PrimitiveFine(m, a.values, a.st);
      FineChain(m.recorded, st, Step(a.st, a.out), Primitive(m, a.values, a.st));
    }
  }

  lemma ArgsFine(recorded: set<nat>, st: State, a: Args)
    requires st.Valid() && FineArgs(recorded, st, a) && a.out == Normal
    ensures StateOk(a.st, recorded) && ValuesOk(a.st.env.frames, recorded, a.values)
    ensures Scope(a.st.env) == Scope(st.env) && a.st.env.current == st.env.current
  {
    hide ValuesOk, EnvOk;
  }

  lemma {:induction false} ExprsAgree(m: Machine, fuel: nat, es: seq<Expr>, st: State)
    requires StateOk(st, m.recorded) && ExprsMarked(es, Scope(st.env), m.recorded)
    ensures var fast, slow := EvalExprs(m, fuel, es, st), EvalExprs(Slow(m), fuel, es, st);
            !fast.st.leaked ==> fast == slow && FineArgs(m.recorded, st, fast)
    decreases fuel, 0
  {
    if fuel > 0 {
      if es == [] {
        FineHere(m.recorded, st, Normal);
      } else {
        hide StateOk, ValueOk, EvalExpr, Keeps, ExprMarked, ExprsMarked, StmtMarked, ListMarked, PatternMarked,
             PartsMarked, FineTo;
        IsValid(st, m.recorded);
        ExprsParts(es, Scope(st.env), m.recorded);
        ExprAgrees(m, fuel - 1, es[0], st);
        var r := EvalExpr(m, fuel - 1, es[0], st);
        if !r.st.leaked && r.out.Val? {
          ScopeKept(m.recorded, st, r);
          ExprsAgree(m, fuel - 1, es[1..], r.st);
          var more := EvalExprs(m, fuel - 1, es[1..], r.st);
          if !more.st.leaked && !more.out.OutOfFuel? {
            FineChain(m.recorded, st, r, Step(more.st, more.out));
            OneMoreValue(m.recorded, r, more);
          }
        }
      }
    }
  }

  lemma OneMoreValue(recorded: set<nat>, r: Step, more: Args)
    requires ValueOk(r.st.env.frames, recorded, if r.out.Val? then r.out.value else Undefined) && r.out.Val?
    requires FineArgs(recorded, r.st, more) && !more.out.OutOfFuel?
    ensures ValuesOk(more.st.env.frames, recorded, [r.out.value] + more.values)
  {
    hide StateOk, CodeMarked;
    ValueStays(recorded, r.out.value, r.st, Step(more.st, more.out));
  }

  lemma {:induction false} ChoiceAgrees(m: Machine, fuel: nat, c: Expr, x: Expr, y: Expr, st: State)
    requires StateOk(st, m.recorded) && ExprMarked(Choice(c, x, y), Scope(st.env), m.recorded) && fuel > 0
    ensures var e := Choice(c, x, y);
            Agrees(m.recorded, st, EvalExpr(m, fuel, e, st), EvalExpr(Slow(m), fuel, e, st))
    decreases fuel - 1, 5
  {
    hide StateOk, ValueOk, Keeps, Truthy, ExprMarked, ExprsMarked, StmtMarked, ListMarked, PatternMarked, PartsMarked,
         FineTo;
    IsValid(st, m.recorded);
    ExprParts(Choice(c, x, y), Scope(st.env), m.recorded);
    ExprAgrees(m, fuel - 1, c, st);
    var r := EvalExpr(m, fuel - 1, c, st);
    if !r.st.leaked && r.out.Val? {
      var next := if Truthy(r.out.value) then x else y;
      ScopeKept(m.recorded, st, r);
      ExprAgrees(m, fuel - 1, next, r.st);
      var r' := EvalExpr(m, fuel - 1, next, r.st);
      if !r'.st.leaked {
        FineChain(m.recorded, st, r, r');
      }
    }
  }

  lemma {:induction false} AssignAgrees(m: Machine, fuel: nat, x: Name, at: nat, value: Expr, st: State)
    requires StateOk(st, m.recorded) && ExprMarked(Assign(x, at, value), Scope(st.env), m.recorded) && fuel > 0
    ensures var e := Assign(x, at, value);
            Agrees(m.recorded, st, EvalExpr(m, fuel, e, st), EvalExpr(Slow(m), fuel, e, st))
    decreases fuel - 1, 5
  {
    ExprAgrees(m, fuel - 1, value, st);
    var r := EvalExpr(m, fuel - 1, value, st);
    if !r.st.leaked && r.out.Val? {
      AssignFine(m.recorded, st, r, x);
    }
  }

  lemma AssignFine(recorded: set<nat>, st: State, r: Step, x: Name)
    requires r.st.Valid() && Fine(recorded, st, r) && r.out.Val?
    ensures var e := Set(r.st.env, x, r.out.value);
            && (e.None? ==> Fine(recorded, st, Step(r.st, Error(Undefined))))
            && (e.Some? ==> Fine(recorded, st, Step(With(r.st, e.value), r.out)))
  {
    hide EnvOk, CodeMarked, ValuesOk, Set;
    var e := Set(r.st.env, x, r.out.value);
    if e.Some? {
      HolderDeclares(r.st.env, recorded, x, r.out.value);
      ValueKept(r.st.env, e.value, recorded, r.out.value);
      FineWith(recorded, r.st, e.value, r.out);
      FineChain(recorded, st, r, Step(With(r.st, e.value), r.out));
    }
  }

  lemma ClosureFine(m: Machine, own: Maybe<Name>, code: Code, st: State)
    requires StateOk(st, m.recorded) && ExprMarked(Function(own, code), Scope(st.env), m.recorded)
    ensures Fine(m.recorded, st, MakeClosure(own, code, st))
  {
    var e := st.env;
    assert InExpr(Function(own, code), Scope(e), true) == InCode(code, Scope(e) + Named(own) + CodeLocals(code), true);
    if own.None? {
      assert Scope(e) + Named(own) == Scope(e);
      FineHere(m.recorded, st, Val(Closure(code, e.current)));
    } else {
      hide EnvOk;
      var inner := PushScope(e, {own.value});
      var f := Closure(code, inner.current);
      assert Named(own) == {own.value};
      PushOk(e, m.recorded, {own.value});
      DefineOk(inner, m.recorded, own.value, f);
      var defined := Define(inner, own.value, f);
      KeepsTwice(e, inner, defined);
      CurrentOk(defined, m.recorded, e.current);
      FineWith(m.recorded, st, defined.(current := e.current), Val(f));
    }
  }

  lemma {:induction false} CallAgrees(m: Machine, fuel: nat, f: Expr, args: seq<Expr>, st: State)
    requires StateOk(st, m.recorded) && ExprMarked(Call(f, args), Scope(st.env), m.recorded) && fuel > 0
    ensures var e := Call(f, args);
            Agrees(m.recorded, st, EvalExpr(m, fuel, e, st), EvalExpr(Slow(m), fuel, e, st))
    decreases fuel - 1, 5
  {
    hide StateOk, ValueOk, ValuesOk, EvalExprs, Keeps, CallFunction, ExprMarked, ExprsMarked, StmtMarked, ListMarked,
         PatternMarked, PartsMarked;
    IsValid(st, m.recorded);
    ExprParts(Call(f, args), Scope(st.env), m.recorded);
    ExprAgrees(m, fuel - 1, f, st);
    var r := EvalExpr(m, fuel - 1, f, st);
    if !r.st.leaked && r.out.Val? {
      ScopeKept(m.recorded, st, r);
      ExprsAgree(m, fuel - 1, args, r.st);
      var a := EvalExprs(m, fuel - 1, args, r.st);
      if !a.st.leaked && !a.out.OutOfFuel? {
        FineChain(m.recorded, st, r, Step(a.st, a.out));
        if a.out == Normal {
          ArgsFine(m.recorded, r.st, a);
          ValueStays(m.recorded, r.out.value, r.st, Step(a.st, a.out));
          CallFunctionAgrees(m, fuel - 1, r.out.value, a.values, a.st);
          var c := CallFunction(m, fuel - 1, r.out.value, a.values, a.st);
          if !c.st.leaked {
            FineChain(m.recorded, st, Step(a.st, a.out), c);
          }
        }
      }
    }
  }

  // ---- Calls ----

  lemma {:induction false} CallFunctionAgrees(m: Machine, fuel: nat, f: Value, args: seq<Value>, st: State)
    requires StateOk(st, m.recorded) && ValueOk(st.env.frames, m.recorded, f)
    requires ValuesOk(st.env.frames, m.recorded, args)
    ensures Agrees(m.recorded, st, CallFunction(m, fuel, f, args, st), CallFunction(Slow(m), fuel, f, args, st))
    decreases fuel, 0
  {
    if fuel > 0 {
      if !f.Closure? || |args| < Required(f.code.params) {
        FineHere(m.recorded, st, Error(Undefined));
      } else {
        EnteredFine(m, f, args, st);
        hide StateOk, ValueOk, ValuesOk, Keeps, BindParams, RunBody, Returned, PushScope, CodeMarked, MarkTdz,
             ExprMarked, ExprsMarked, StmtMarked, ListMarked, PatternMarked, PartsMarked, FineTo;
        var inner := With(st, PushScope(st.env.(current := f.env), CodeLocals(f.code)));
        ParamsAgree(m, fuel - 1, f.code.params, args, inner);
        var b := BindParams(m, fuel - 1, f.code.params, args, inner);
        if !b.st.leaked {
          if b.out != Normal {
            LeftFine(m.recorded, st, inner, b);
          } else {
            BodyReady(m.recorded, inner, b, f.code);
            var ready := With(b.st, MarkTdz(b.st.env, Lexical(f.code.body)));
            BodyAgrees(m, fuel - 1, f.code.body, ready);
            var r := RunBody(m, fuel - 1, f.code.body, ready);
            if !r.st.leaked {
              BackFine(m.recorded, st, inner, ready, r);
            }
          }
        }
      }
    }
  }

  /** The frame a call runs in knows the closure's scopes and the function's own names. */
  lemma EnteredFine(m: Machine, f: Value, args: seq<Value>, st: State)
    requires StateOk(st, m.recorded) && ValueOk(st.env.frames, m.recorded, f) && f.Closure?
    requires ValuesOk(st.env.frames, m.recorded, args)
    ensures var inner := With(st, PushScope(st.env.(current := f.env), CodeLocals(f.code)));
            && StateOk(inner, m.recorded) && Keeps(st.env, inner.env) && ValuesOk(inner.env.frames, m.recorded, args)
            && CodeLocals(f.code) <= Scope(inner.env) && inner.env.current > 0
            && ParamsMarked(f.code.params, Scope(inner.env), m.recorded)
            && ListMarked(f.code.body, Scope(inner.env), m.recorded)
  {
    hide ValuesOk, EnvOk;
    var at := st.env.(current := f.env);
    CurrentOk(st.env, m.recorded, f.env);
    PushOk(at, m.recorded, CodeLocals(f.code));
    var inner := PushScope(at, CodeLocals(f.code));
    ValuesKept(st.env, inner, m.recorded, st.seen);
    ValuesKept(st.env, inner, m.recorded, args);
  }

  /** An error while parameters are bound leaves the callee's frame current. */
  lemma LeftFine(recorded: set<nat>, st: State, inner: State, b: Step)
    requires Keeps(st.env, inner.env) && Fine(recorded, inner, b) && (b.out.Error? || b.out.OutOfFuel?)
    ensures Fine(recorded, st, b)
  {
    hide StateOk, ValueOk;
    if b.out.Error? {
      KeepsTwice(st.env, inner.env, b.st.env);
    }
  }

  lemma BodyReady(recorded: set<nat>, inner: State, b: Step, code: Code)
    requires inner.Valid() && inner.env.current > 0 && CodeLocals(code) <= Scope(inner.env)
    requires Fine(recorded, inner, b) && b.out == Normal && ListMarked(code.body, Scope(inner.env), recorded)
    ensures b.st.Valid()
    ensures var ready := With(b.st, MarkTdz(b.st.env, Lexical(code.body)));
            && StateOk(ready, recorded) && Keeps(inner.env, ready.env)
              && ListMarked(code.body, Scope(ready.env), recorded)
            && Locals(code.body) <= Scope(ready.env) && ready.env.current == inner.env.current
  {
    hide ListMarked, ValuesOk, EnvOk;
    LexicalAreLocals(code.body);
    TdzOk(b.st.env, recorded, Lexical(code.body));
    var e := MarkTdz(b.st.env, Lexical(code.body));
    FineWith(recorded, b.st, e, Normal);
    KeepsTwice(inner.env, b.st.env, e);
  }

  lemma BackFine(recorded: set<nat>, st: State, inner: State, ready: State, r: Step)
    requires st.Valid() && r.st.Valid() && StateOk(st, recorded)
    requires Keeps(st.env, inner.env) && Keeps(inner.env, ready.env)
    requires Fine(recorded, ready, r) && !r.out.Val? && st.Frames() <= r.st.Frames()
    ensures Fine(recorded, st, Step(With(r.st, r.st.env.(current := st.env.current)), Returned(r.out)))
  {
    hide ValuesOk, EnvOk, CodeMarked;
    if !r.out.OutOfFuel? {
      KeepsTwice(st.env, inner.env, ready.env);
      KeepsTwice(st.env, ready.env, r.st.env);
      CurrentOk(r.st.env, recorded, st.env.current);
    }
  }

  // ---- Patterns and parameters ----

  lemma {:induction false} PatternAgrees(m: Machine, fuel: nat, p: Pattern, v: Value, st: State)
    requires StateOk(st, m.recorded) && ValueOk(st.env.frames, m.recorded, v)
    requires PatternMarked(p, Scope(st.env), m.recorded) && Declares(st.env, PatternNames(p))
    ensures Agrees(m.recorded, st, BindPattern(m, fuel, p, v, st), BindPattern(Slow(m), fuel, p, v, st))
    decreases fuel, 0
  {
    if fuel > 0 {
      hide StateOk, ValueOk, Keeps, EvalExpr, ExprMarked, ExprsMarked, StmtMarked, ListMarked, PatternMarked,
           PartsMarked, FineTo;
      IsValid(st, m.recorded);
      PatternParts(p, Scope(st.env), m.recorded);
      match p
      case Bind(x) => BindFine(m.recorded, x, v, st);
      case Parts(ps) => PartsAgree(m, fuel - 1, ps, v, st);
      case Default(inner, e) =>
        if v == Undefined {
          DefaultAgrees(m, fuel, inner, e, st);
        } else {
          PatternAgrees(m, fuel - 1, inner, v, st);
        }
    }
  }

  lemma {:induction false} DefaultAgrees(m: Machine, fuel: nat, inner: Pattern, e: Expr, st: State)
    requires StateOk(st, m.recorded) && PatternMarked(inner, Scope(st.env), m.recorded) && fuel > 0
    requires ExprMarked(e, Scope(st.env), m.recorded) && Declares(st.env, PatternNames(inner))
    ensures Agrees(m.recorded, st, BindPattern(m, fuel, Default(inner, e), Undefined, st),
                   BindPattern(Slow(m), fuel, Default(inner, e), Undefined, st))
    decreases fuel - 1, 5
  {
    hide StateOk, ValueOk, Keeps, EvalExpr, ExprMarked, PatternMarked, FineTo, Linked;
    IsValid(st, m.recorded);
    ExprAgrees(m, fuel - 1, e, st);
    var r := EvalExpr(m, fuel - 1, e, st);
    if !r.st.leaked && r.out.Val? {
      ScopeKept(m.recorded, st, r);
      PatternAgrees(m, fuel - 1, inner, r.out.value, r.st);
      var b := BindPattern(m, fuel - 1, inner, r.out.value, r.st);
      if !b.st.leaked {
        FineChain(m.recorded, st, r, b);
      }
    }
  }

  lemma BindFine(recorded: set<nat>, x: Name, v: Value, st: State)
    requires StateOk(st, recorded) && ValueOk(st.env.frames, recorded, v) && Declares(st.env, {x})
    ensures Fine(recorded, st, Step(With(st, Define(st.env, x, v)), Normal))
  {
    DefineOk(st.env, recorded, x, v);
    FineWith(recorded, st, Define(st.env, x, v), Normal);
  }

  lemma {:induction false} PartsAgree(m: Machine, fuel: nat, ps: seq<Pattern>, v: Value, st: State)
    requires StateOk(st, m.recorded) && ValueOk(st.env.frames, m.recorded, v)
    requires PartsMarked(ps, Scope(st.env), m.recorded) && Declares(st.env, PartNames(ps))
    ensures Agrees(m.recorded, st, BindParts(m, fuel, ps, v, st), BindParts(Slow(m), fuel, ps, v, st))
    decreases fuel, 1
  {
    if fuel > 0 {
      if ps == [] {
        FineHere(m.recorded, st, Normal);
      } else {
        PartsStep(m, fuel, ps, v, st);
      }
    }
  }

  lemma {:induction false} PartsStep(m: Machine, fuel: nat, ps: seq<Pattern>, v: Value, st: State)
    requires StateOk(st, m.recorded) && ValueOk(st.env.frames, m.recorded, v)
    requires PartsMarked(ps, Scope(st.env), m.recorded) && Declares(st.env, PartNames(ps))
    requires fuel > 0 && ps != []
    ensures Agrees(m.recorded, st, BindParts(m, fuel, ps, v, st), BindParts(Slow(m), fuel, ps, v, st))
    decreases fuel, 0
  {
    hide StateOk, ValueOk, Keeps, Primitive, BindPattern, BindParts, ValuesOk, PatternMarked, PartsMarked, FineTo,
         Linked;
    IsValid(st, m.recorded);
    PartTaken(m, v, st);
    PartsParts(ps, Scope(st.env), m.recorded);
    PartsUnfold(m, fuel, ps, v, st);
    PartsUnfold(Slow(m), fuel, ps, v, st);
    var part := Primitive(m, [v], st);
    if part.out.Val? {
      ScopeKept(m.recorded, st, part);
      PatternAgrees(m, fuel - 1, ps[0], part.out.value, part.st);
      var r := BindPattern(m, fuel - 1, ps[0], part.out.value, part.st);
      StuckHome(m.recorded, st, st.env.current, r);
      if !r.st.leaked && !r.out.OutOfFuel? {
        FineChain(m.recorded, st, part, r);
        if r.out == Normal {
          ScopeKept(m.recorded, st, r);
          ValueStays(m.recorded, v, st, r);
          PartsAgree(m, fuel - 1, ps[1..], v, r.st);
          var more := BindParts(m, fuel - 1, ps[1..], v, r.st);
          if !more.st.leaked {
            FineChain(m.recorded, st, r, more);
          }
        }
      }
    }
  }

  lemma PartsUnfold(m: Machine, fuel: nat, ps: seq<Pattern>, v: Value, st: State)
    requires st.Valid() && fuel > 0 && ps != []
    ensures var part := Primitive(m, [v], st);
            BindParts(m, fuel, ps, v, st)
            == if !part.out.Val? then part
               else
                 var r := BindPattern(m, fuel - 1, ps[0], part.out.value, part.st);
                 if r.out != Normal then r else BindParts(m, fuel - 1, ps[1..], v, r.st)
  {
    hide Primitive, BindPattern;
  }

  lemma PartTaken(m: Machine, v: Value, st: State)
    requires StateOk(st, m.recorded) && ValueOk(st.env.frames, m.recorded, v)
    ensures Primitive(m, [v], st) == Primitive(Slow(m), [v], st) && Fine(m.recorded, st, Primitive(m, [v], st))
  {
    hide CodeMarked, EnvOk;
    PrimitiveFine(m, [v], st);
  }

  lemma {:induction false} ParamsAgree(m: Machine, fuel: nat, ps: seq<Param>, args: seq<Value>, st: State)
    requires StateOk(st, m.recorded) && ValuesOk(st.env.frames, m.recorded, args)
    requires ParamsMarked(ps, Scope(st.env), m.recorded) && Declares(st.env, ParamNames(ps))
    ensures Agrees(m.recorded, st, BindParams(m, fuel, ps, args, st), BindParams(Slow(m), fuel, ps, args, st))
    decreases fuel, 1
  {
    if fuel > 0 {
      if ps == [] {
        FineHere(m.recorded, st, Normal);
      } else {
        ParamsStep(m, fuel, ps, args, st);
      }
    }
  }

  lemma {:induction false} ParamsStep(m: Machine, fuel: nat, ps: seq<Param>, args: seq<Value>, st: State)
    requires StateOk(st, m.recorded) && ValuesOk(st.env.frames, m.recorded, args)
    requires ParamsMarked(ps, Scope(st.env), m.recorded) && Declares(st.env, ParamNames(ps))
    requires fuel > 0 && ps != []
    ensures Agrees(m.recorded, st, BindParams(m, fuel, ps, args, st), BindParams(Slow(m), fuel, ps, args, st))
    decreases fuel, 0
  {
    hide StateOk, ValueOk, Keeps, BindPattern, BindParams, ValuesOk, ParamsMarked, OptionalMarked, PatternMarked,
         Argument, FineTo, Linked;
    IsValid(st, m.recorded);
    FirstParamMarked(ps, Scope(st.env), m.recorded);
    ParamsUnfold(m, fuel, ps, args, st);
    ParamsUnfold(Slow(m), fuel, ps, args, st);
    ArgumentAgrees(m, fuel - 1, ps[0].default, args, st);
    var a := Argument(m, fuel - 1, ps[0].default, args, st);
    if !a.st.leaked && a.out.Val? {
      ScopeKept(m.recorded, st, a);
      PatternAgrees(m, fuel - 1, ps[0].pattern, a.out.value, a.st);
      var r := BindPattern(m, fuel - 1, ps[0].pattern, a.out.value, a.st);
      StuckHome(m.recorded, st, st.env.current, r);
      if !r.st.leaked && !r.out.OutOfFuel? {
        FineChain(m.recorded, st, a, r);
        if r.out == Normal {
          ScopeKept(m.recorded, st, r);
          var rest := if args == [] then [] else args[1..];
          RestStays(m.recorded, args, st, r);
          ParamsAgree(m, fuel - 1, ps[1..], rest, r.st);
          var more := BindParams(m, fuel - 1, ps[1..], rest, r.st);
          if !more.st.leaked {
            FineChain(m.recorded, st, r, more);
          }
        }
      }
    }
  }

  lemma ParamsUnfold(m: Machine, fuel: nat, ps: seq<Param>, args: seq<Value>, st: State)
    requires st.Valid() && fuel > 0 && ps != []
    ensures var a := Argument(m, fuel - 1, ps[0].default, args, st);
            BindParams(m, fuel, ps, args, st)
            == if !a.out.Val? then a
               else
                 var r := BindPattern(m, fuel - 1, ps[0].pattern, a.out.value, a.st);
                 if r.out != Normal then r
                 else BindParams(m, fuel - 1, ps[1..], if args == [] then [] else args[1..], r.st)
  {
    hide Argument, BindPattern;
  }

  lemma FirstParamMarked(ps: seq<Param>, scope: set<Name>, recorded: set<nat>)
    requires ParamsMarked(ps, scope, recorded) && ps != []
    ensures PatternMarked(ps[0].pattern, scope, recorded) && OptionalMarked(ps[0].default, scope, recorded)
    ensures ParamsMarked(ps[1..], scope, recorded)
  {
    forall free: bool
      ensures InParams(ps, scope, free)
           == InPattern(ps[0].pattern, scope, free) + InOptional(ps[0].default, scope, free)
             + InParams(ps[1..], scope, free)
    {
      assert InParams(ps, scope, free) == InParam(ps[0], scope, free) + InParams(ps[1..], scope, free);
    }
  }

  lemma RestStays(recorded: set<nat>, args: seq<Value>, st: State, r: Step)
    requires ValuesOk(st.env.frames, recorded, args) && Fine(recorded, st, r) && !r.out.OutOfFuel?
    ensures ValuesOk(r.st.env.frames, recorded, if args == [] then [] else args[1..])
  {
    hide StateOk, CodeMarked;
    ValuesKept(st.env, r.st.env, recorded, args);
  }

  lemma {:induction false} ArgumentAgrees(m: Machine, fuel: nat, default: Maybe<Expr>, args: seq<Value>, st: State)
    requires StateOk(st, m.recorded) && ValuesOk(st.env.frames, m.recorded, args)
    requires OptionalMarked(default, Scope(st.env), m.recorded)
    ensures Agrees(m.recorded, st, Argument(m, fuel, default, args, st), Argument(Slow(m), fuel, default, args, st))
    decreases fuel, 1
  {
    if args != [] {
      FineHere(m.recorded, st, Val(args[0]));
    } else if default.Some? {
      ExprAgrees(m, fuel, default.value, st);
    } else {
      FineHere(m.recorded, st, Val(Undefined));
    }
  }

  // ---- Statements ----

  lemma {:induction false} HoistOk(ss: seq<Stmt>, e: Env, recorded: set<nat>)
    requires EnvOk(e, recorded) && ListMarked(ss, Scope(e), recorded) && Declares(e, Locals(ss))
    ensures var r := HoistFunctions(ss, e);
            EnvOk(r, recorded) && Keeps(e, r) && r.current == e.current
    decreases |ss|
  {
    if ss != [] {
      if ss[0].FunctionDecl? {
        var f := Closure(ss[0].code, e.current);
        assert StmtMarked(ss[0], Scope(e), recorded);
        hide EnvOk;
        DefineOk(e, recorded, ss[0].name, f);
        var next := Define(e, ss[0].name, f);
        assert Scope(next) == Scope(e);
        HoistOk(ss[1..], next, recorded);
        KeepsTwice(e, next, HoistFunctions(ss[1..], next));
      } else {
        HoistOk(ss[1..], e, recorded);
      }
    }
  }

  lemma {:induction false} BodyAgrees(m: Machine, fuel: nat, ss: seq<Stmt>, st: State)
    requires StateOk(st, m.recorded) && ListMarked(ss, Scope(st.env), m.recorded) && Declares(st.env, Locals(ss))
    ensures Agrees(m.recorded, st, RunBody(m, fuel, ss, st), RunBody(Slow(m), fuel, ss, st))
    decreases fuel, 2
  {
    HoistOk(ss, st.env, m.recorded);
    var e := HoistFunctions(ss, st.env);
    FineWith(m.recorded, st, e, Normal);
    ScopeKept(m.recorded, st, Step(With(st, e), Normal));
    hide StateOk, EnvOk, HoistFunctions, ListMarked, Locals, RunList;
    ListAgrees(m, fuel, ss, With(st, e));
    if !RunList(m, fuel, ss, With(st, e)).st.leaked {
      FineFrom(m.recorded, st, With(st, e), st.env.current, RunList(m, fuel, ss, With(st, e)));
    }
  }

  lemma {:induction false} ListAgrees(m: Machine, fuel: nat, ss: seq<Stmt>, st: State)
    requires StateOk(st, m.recorded) && ListMarked(ss, Scope(st.env), m.recorded) && Declares(st.env, Locals(ss))
    ensures Agrees(m.recorded, st, RunList(m, fuel, ss, st), RunList(Slow(m), fuel, ss, st))
    decreases fuel, 1
  {
    if fuel > 0 {
      if ss == [] {
        FineHere(m.recorded, st, Normal);
      } else {
        hide StateOk, ValueOk, Keeps, RunStmt, ExprMarked, ExprsMarked, StmtMarked, ListMarked, PatternMarked,
             PartsMarked, FineTo;
        IsValid(st, m.recorded);
        ListParts(ss, Scope(st.env), m.recorded);
        StmtAgrees(m, fuel - 1, ss[0], st);
        var r := RunStmt(m, fuel - 1, ss[0], st);
        if !r.st.leaked && r.out == Normal {
          ScopeKept(m.recorded, st, r);
          ListAgrees(m, fuel - 1, ss[1..], r.st);
          var more := RunList(m, fuel - 1, ss[1..], r.st);
          if !more.st.leaked {
            FineChain(m.recorded, st, r, more);
          }
        }
      }
    }
  }

  lemma {:induction false} StmtAgrees(m: Machine, fuel: nat, s: Stmt, st: State)
    requires StateOk(st, m.recorded) && StmtMarked(s, Scope(st.env), m.recorded) && Declares(st.env, StmtLocals(s))
    ensures Agrees(m.recorded, st, RunStmt(m, fuel, s, st), RunStmt(Slow(m), fuel, s, st))
    decreases fuel, 0
  {
    hide InStmt, InList, Marked, ListMarked, ExprMarked, StmtMarked, PatternMarked, CodeMarked, FineTo, StateOk,
         EvalExpr, RunBlock, RunWhile, RunTry, RunFor, RunEach, BindPattern, PushScope;
    IsValid(st, m.recorded);
    StmtParts(s, Scope(st.env), m.recorded);
    UndefinedOk(st.env.frames, m.recorded);
    StuckFine(m.recorded, st);
    if fuel > 0 {
      match s
      case Empty =>
        FineHere(m.recorded, st, Normal);
      case Break =>
        FineHere(m.recorded, st, BreakOut);
      case Continue =>
        FineHere(m.recorded, st, ContinueOut);
      case VarDecl(p, e) => VarDeclAgrees(m, fuel, p, e, st);
      case Eval(e) => ValueAgrees(m, fuel, e, st);
      case Return(e) => ValueAgrees(m, fuel, e, st);
      case Throw(e) => ValueAgrees(m, fuel, e, st);
      case Block(body) =>
        BlockAgrees(m, fuel - 1, body, Locals(body), S.None, Undefined, st);
      case If(c, a, b) => IfAgrees(m, fuel, c, a, b, st);
      case While(c, loop) => WhileAgrees(m, fuel - 1, c, loop, st);
      case For(_, _, _, _) => ForAgrees(m, fuel, s, st);
      case ForEach(_, _, _) => ForEachAgrees(m, fuel, s, st);
      case FunctionDecl(x, code) => BindFine(m.recorded, x, Closure(code, st.env.current), st);
      case Try(tried, handler, finalizer) => TryAgrees(m, fuel - 1, tried, handler, finalizer, st);
    }
  }

  /** Statements that evaluate an expression and pass its value on. */
  lemma {:induction false} ValueAgrees(m: Machine, fuel: nat, e: Expr, st: State)
    requires StateOk(st, m.recorded) && ExprMarked(e, Scope(st.env), m.recorded) && fuel > 0
    ensures Agrees(m.recorded, st, RunStmt(m, fuel, Eval(e), st), RunStmt(Slow(m), fuel, Eval(e), st))
    ensures Agrees(m.recorded, st, RunStmt(m, fuel, Return(e), st), RunStmt(Slow(m), fuel, Return(e), st))
    ensures Agrees(m.recorded, st, RunStmt(m, fuel, Throw(e), st), RunStmt(Slow(m), fuel, Throw(e), st))
    decreases fuel - 1, 5
  {
    hide StateOk, ValueOk, Keeps, EvalExpr;
    IsValid(st, m.recorded);
    ExprAgrees(m, fuel - 1, e, st);
  }

  lemma {:induction false} VarDeclAgrees(m: Machine, fuel: nat, p: Pattern, e: Expr, st: State)
    requires StateOk(st, m.recorded) && StmtMarked(VarDecl(p, e), Scope(st.env), m.recorded) && fuel > 0
    requires Declares(st.env, PatternNames(p))
    ensures Agrees(m.recorded, st, RunStmt(m, fuel, VarDecl(p, e), st), RunStmt(Slow(m), fuel, VarDecl(p, e), st))
    decreases fuel - 1, 5
  {
    hide StateOk, ValueOk, Keeps, EvalExpr, BindPattern, ExprMarked, ExprsMarked, StmtMarked, ListMarked, PatternMarked,
         PartsMarked, FineTo;
    IsValid(st, m.recorded);
    StmtParts(VarDecl(p, e), Scope(st.env), m.recorded);
    ExprAgrees(m, fuel - 1, e, st);
    var r := EvalExpr(m, fuel - 1, e, st);
    if !r.st.leaked && r.out.Val? {
      ScopeKept(m.recorded, st, r);
      PatternAgrees(m, fuel - 1, p, r.out.value, r.st);
      var b := BindPattern(m, fuel - 1, p, r.out.value, r.st);
      if !b.st.leaked {
        FineChain(m.recorded, st, r, b);
      }
    }
  }

  lemma {:induction false} IfAgrees(m: Machine, fuel: nat, c: Expr, a: Stmt, b: Stmt, st: State)
    requires StateOk(st, m.recorded) && StmtMarked(If(c, a, b), Scope(st.env), m.recorded) && fuel > 0
    requires Declares(st.env, StmtLocals(If(c, a, b)))
    ensures Agrees(m.recorded, st, RunStmt(m, fuel, If(c, a, b), st), RunStmt(Slow(m), fuel, If(c, a, b), st))
    decreases fuel - 1, 5
  {
    hide StateOk, ValueOk, Keeps, EvalExpr, Truthy, ExprMarked, ExprsMarked, StmtMarked, ListMarked, PatternMarked,
         PartsMarked, FineTo;
    IsValid(st, m.recorded);
    StmtParts(If(c, a, b), Scope(st.env), m.recorded);
    ExprAgrees(m, fuel - 1, c, st);
    var r := EvalExpr(m, fuel - 1, c, st);
    if !r.st.leaked && r.out.Val? {
      var next := if Truthy(r.out.value) then a else b;
      ScopeKept(m.recorded, st, r);
      StmtAgrees(m, fuel - 1, next, r.st);
      var r' := RunStmt(m, fuel - 1, next, r.st);
      if !r'.st.leaked {
        FineChain(m.recorded, st, r, r');
      }
    }
  }

  lemma WhileUnfold(m: Machine, fuel: nat, c: Expr, loop: Stmt, st: State)
    requires st.Valid() && fuel > 0
    ensures var r := EvalExpr(m, fuel - 1, c, st);
            RunWhile(m, fuel, c, loop, st)
            == if !r.out.Val? then r else if !Truthy(r.out.value) then Step(r.st, Normal)
               else AfterWhile(m, fuel - 1, c, loop, RunStmt(m, fuel - 1, loop, r.st))
  {
    hide EvalExpr, AfterWhile, RunStmt, Truthy;
  }

  lemma {:induction false} WhileAgrees(m: Machine, fuel: nat, c: Expr, loop: Stmt, st: State)
    requires StateOk(st, m.recorded) && StmtMarked(While(c, loop), Scope(st.env), m.recorded)
    requires Declares(st.env, StmtLocals(loop))
    ensures Agrees(m.recorded, st, RunWhile(m, fuel, c, loop, st), RunWhile(Slow(m), fuel, c, loop, st))
    decreases fuel, 2
  {
    if fuel > 0 {
      WhileAgreesStep(m, fuel, c, loop, st);
    }
  }

  lemma {:induction false} WhileAgreesStep(m: Machine, fuel: nat, c: Expr, loop: Stmt, st: State)
    requires StateOk(st, m.recorded) && StmtMarked(While(c, loop), Scope(st.env), m.recorded)
    requires Declares(st.env, StmtLocals(loop))
    requires fuel > 0
    ensures Agrees(m.recorded, st, RunWhile(m, fuel, c, loop, st), RunWhile(Slow(m), fuel, c, loop, st))
    decreases fuel, 1
  {
    hide StateOk, ValueOk, Keeps, EvalExpr, RunStmt, Truthy, AfterWhile, ExprMarked, ExprsMarked, StmtMarked,
         ListMarked, PatternMarked, PartsMarked, FineTo, RunWhile;
    IsValid(st, m.recorded);
    StmtParts(While(c, loop), Scope(st.env), m.recorded);
    WhileUnfold(m, fuel, c, loop, st);
    WhileUnfold(Slow(m), fuel, c, loop, st);
    ExprAgrees(m, fuel - 1, c, st);
    var r := EvalExpr(m, fuel - 1, c, st);
    if !r.st.leaked && r.out.Val? {
      ScopeKept(m.recorded, st, r);
      if !Truthy(r.out.value) {
        FineHere(m.recorded, r.st, Normal);
        FineChain(m.recorded, st, r, Step(r.st, Normal));
      } else {
        StmtAgrees(m, fuel - 1, loop, r.st);
        var b := RunStmt(m, fuel - 1, loop, r.st);
        if !b.st.leaked {
          WhileGoesOn(m, fuel - 1, c, loop, r.st, b);
          if !AfterWhile(m, fuel - 1, c, loop, b).st.leaked {
            FineChain(m.recorded, st, r, AfterWhile(m, fuel - 1, c, loop, b));
          }
        }
      }
    }
  }

  lemma {:induction false} WhileGoesOn(m: Machine, fuel: nat, c: Expr, loop: Stmt, st: State, b: Step)
    requires StateOk(st, m.recorded) && StmtMarked(While(c, loop), Scope(st.env), m.recorded)
    requires Declares(st.env, StmtLocals(loop))
    requires b.st.Valid() && !b.out.Val? && Fine(m.recorded, st, b)
    ensures Agrees(m.recorded, st, AfterWhile(m, fuel, c, loop, b), AfterWhile(Slow(m), fuel, c, loop, b))
    decreases fuel, 3
  {
    hide StmtMarked, ValueOk, Keeps, RunWhile, EnvOk, ValuesOk, ExprMarked, ExprsMarked, ListMarked, PatternMarked,
         PartsMarked;
    IsValid(st, m.recorded);
    if b.out.Normal? || b.out.ContinueOut? {
      ScopeKept(m.recorded, st, b);
      WhileAgrees(m, fuel, c, loop, b.st);
      if !RunWhile(m, fuel, c, loop, b.st).st.leaked {
        FineChain(m.recorded, st, b, RunWhile(m, fuel, c, loop, b.st));
      }
    }
  }

  // ---- Blocks ----

  lemma {:induction false} BlockAgrees(m: Machine, fuel: nat, ss: seq<Stmt>, locals: set<Name>, caught: Maybe<Name>,
                                       v: Value, st: State)
    requires StateOk(st, m.recorded) && ValueOk(st.env.frames, m.recorded, v)
    requires ListMarked(ss, Scope(st.env) + locals, m.recorded) && Locals(ss) + Named(caught) <= locals
    ensures Agrees(m.recorded, st, RunBlock(m, fuel, ss, locals, caught, v, st),
                   RunBlock(Slow(m), fuel, ss, locals, caught, v, st))
    decreases fuel, 3
  {
    BlockReady(m.recorded, ss, locals, caught, v, st);
    hide StateOk, ValueOk, ListMarked, Locals, RunBody, Lexical, Keeps, PushScope, Define, MarkTdz, PopScope;
    var pushed := PushScope(st.env, locals);
    var bound := if caught.Some? then Define(pushed, caught.value, v) else pushed;
    var ready := With(st, MarkTdz(bound, Lexical(ss)));
    BodyAgrees(m, fuel, ss, ready);
    var r := RunBody(m, fuel, ss, ready);
    if !r.st.leaked {
      PoppedFine(m.recorded, st, ready, r);
    }
  }

  lemma BlockReady(recorded: set<nat>, ss: seq<Stmt>, locals: set<Name>, caught: Maybe<Name>, v: Value, st: State)
    requires StateOk(st, recorded) && ValueOk(st.env.frames, recorded, v)
    requires Locals(ss) + Named(caught) <= locals
    ensures var pushed := PushScope(st.env, locals);
            var bound := if caught.Some? then Define(pushed, caught.value, v) else pushed;
            var e := MarkTdz(bound, Lexical(ss));
            && StateOk(With(st, e), recorded) && Keeps(st.env, e) && Scope(e) == Scope(st.env) + locals
            && e.frames[e.current].parent == S.Some(st.env.current) && Declares(e, Locals(ss))
  {
    hide EnvOk, CodeMarked, ValuesOk;
    PushOk(st.env, recorded, locals);
    var pushed := PushScope(st.env, locals);
    ValueKept(st.env, pushed, recorded, v);
    if caught.Some? {
      DefineOk(pushed, recorded, caught.value, v);
    }
    var bound := if caught.Some? then Define(pushed, caught.value, v) else pushed;
    LexicalAreLocals(ss);
    TdzOk(bound, recorded, Lexical(ss));
    var e := MarkTdz(bound, Lexical(ss));
    KeepsTwice(st.env, pushed, bound);
    KeepsTwice(st.env, bound, e);
    ValuesKept(st.env, e, recorded, st.seen);
  }

  /** Leaving the frame that was entered at `ready` is coming home; after an error it may be another frame. */
  lemma PoppedFine(recorded: set<nat>, st: State, ready: State, r: Step)
    requires ready.Valid() && r.st.Valid() && Keeps(st.env, ready.env) && Fine(recorded, ready, r)
    requires ready.env.frames[ready.env.current].parent == S.Some(st.env.current)
    ensures Fine(recorded, st, Step(With(r.st, PopScope(r.st.env)), r.out))
  {
    HomeFine(recorded, st, ready, st.env.current, r, r.out);
  }

  /** From a loop's frame, whose parent is `home`, leaving goes home. */
  lemma HomeFine(recorded: set<nat>, st: State, inner: State, home: nat, r: Step, out: Out)
    requires inner.Valid() && r.st.Valid() && Keeps(st.env, inner.env) && Fine(recorded, inner, r)
    requires inner.env.frames[inner.env.current].parent == S.Some(home)
    requires out == r.out || (out == Normal && !r.out.Error? && !r.out.OutOfFuel?)
    ensures FineTo(recorded, st, home, Step(With(r.st, PopScope(r.st.env)), out))
  {
    hide ValuesOk, EnvOk, CodeMarked;
    if !r.out.OutOfFuel? {
      KeepsTwice(st.env, inner.env, r.st.env);
      var p := r.st.env.frames[r.st.env.current].parent;
      if p.Some? {
        ParentInside(r.st.env);
        CurrentOk(r.st.env, recorded, p.value);
      }
    }
  }

  lemma ParentInside(e: Env)
    requires e.Valid() && e.frames[e.current].parent.Some?
    ensures e.frames[e.current].parent.value < |e.frames|
  {
  }

  // ---- Loops ----

  lemma {:induction false} ForAgrees(m: Machine, fuel: nat, s: Stmt, st: State)
    requires StateOk(st, m.recorded) && StmtMarked(s, Scope(st.env), m.recorded) && s.For? && fuel > 0
    ensures Agrees(m.recorded, st, RunStmt(m, fuel, s, st), RunStmt(Slow(m), fuel, s, st))
    decreases fuel - 1, 5
  {
    hide StateOk, ValueOk, Keeps, PushScope, RunFor, RunStmt, StmtMarked, OptionalMarked, StmtLocals, FineTo, Linked;
    IsValid(st, m.recorded);
    ForStmtUnfold(m, fuel, s, st);
    ForStmtUnfold(Slow(m), fuel, s, st);
    LoopEntered(m.recorded, StmtLocals(s.start) + StmtLocals(s.loop), st);
    ForMarked(s, Scope(st.env), m.recorded);
    var inner := With(st, PushScope(st.env, StmtLocals(s.start) + StmtLocals(s.loop)));
    StmtAgrees(m, fuel - 1, s.start, inner);
    var r := RunStmt(m, fuel - 1, s.start, inner);
    if !r.st.leaked {
      if r.out.Error? || r.out.OutOfFuel? {
        LeftFine(m.recorded, st, inner, r);
      } else {
        LoopGoesOn(m.recorded, inner, r);
        ForLoopAgrees(m, fuel - 1, s.test, s.update, s.loop, r.st, st.env.current);
        var f := RunFor(m, fuel - 1, s.test, s.update, s.loop, r.st);
        if !f.st.leaked {
          LoopKeeps(m.recorded, st, inner, r);
          FineFrom(m.recorded, st, r.st, st.env.current, f);
        }
      }
    }
  }

  lemma ForStmtUnfold(m: Machine, fuel: nat, s: Stmt, st: State)
    requires st.Valid() && fuel > 0 && s.For?
    ensures var r := RunStmt(m, fuel - 1, s.start,
                             With(st, PushScope(st.env, StmtLocals(s.start) + StmtLocals(s.loop))));
            RunStmt(m, fuel, s, st)
            == if r.out.Error? || r.out.OutOfFuel? then r else RunFor(m, fuel - 1, s.test, s.update, s.loop, r.st)
  {
    hide RunFor, PushScope;
  }

  lemma ForMarked(s: Stmt, scope: set<Name>, recorded: set<nat>)
    requires s.For? && StmtMarked(s, scope, recorded)
    ensures var inside := scope + (StmtLocals(s.start) + StmtLocals(s.loop));
            && StmtMarked(s.start, inside, recorded) && OptionalMarked(s.test, inside, recorded)
            && OptionalMarked(s.update, inside, recorded) && StmtMarked(s.loop, inside, recorded)
  {
    assert scope + StmtLocals(s.start) + StmtLocals(s.loop) == scope + (StmtLocals(s.start) + StmtLocals(s.loop));
  }

  lemma LoopEntered(recorded: set<nat>, locals: set<Name>, st: State)
    requires StateOk(st, recorded)
    ensures var inner := With(st, PushScope(st.env, locals));
            && StateOk(inner, recorded) && Keeps(st.env, inner.env) && Scope(inner.env) == Scope(st.env) + locals
            && inner.env.current > 0 && inner.env.frames[inner.env.current].parent == S.Some(st.env.current)
  {
    PushOk(st.env, recorded, locals);
    ValuesKept(st.env, PushScope(st.env, locals), recorded, st.seen);
  }

  /** Inside a loop the current frame stays a frame of the loop. */
  lemma LoopGoesOn(recorded: set<nat>, inner: State, r: Step)
    requires inner.Valid() && r.st.Valid() && Fine(recorded, inner, r) && !r.out.Error? && !r.out.OutOfFuel?
    ensures StateOk(r.st, recorded) && Scope(r.st.env) == Scope(inner.env) && r.st.env.current == inner.env.current
    ensures r.st.env.frames[r.st.env.current].parent == inner.env.frames[inner.env.current].parent
    ensures Carries(r.out) ==> ValueOk(r.st.env.frames, recorded, r.out.value)
  {
    hide EnvOk, ValuesOk;
  }

  lemma LoopKeeps(recorded: set<nat>, st: State, inner: State, r: Step)
    requires Keeps(st.env, inner.env) && Fine(recorded, inner, r) && !r.out.OutOfFuel?
    ensures Keeps(st.env, r.st.env)
  {
    hide StateOk;
    KeepsTwice(st.env, inner.env, r.st.env);
  }

  lemma {:induction false} OptionalAgrees(m: Machine, fuel: nat, e: Maybe<Expr>, st: State)
    requires StateOk(st, m.recorded) && OptionalMarked(e, Scope(st.env), m.recorded)
    ensures Agrees(m.recorded, st, EvalOptional(m, fuel, e, st), EvalOptional(Slow(m), fuel, e, st))
    decreases fuel, 1
  {
    if e.Some? {
      ExprAgrees(m, fuel, e.value, st);
    } else {
      FineHere(m.recorded, st, Val(Plain(1)));
    }
  }

  /** What a loop's code needs of the frame it runs in. */
  ghost predicate InLoop(recorded: set<nat>, loop: Stmt, home: nat, st: State) {
    && StateOk(st, recorded) && st.env.current > 0 && st.env.frames[st.env.current].parent == S.Some(home)
    && StmtMarked(loop, Scope(st.env), recorded) && StmtLocals(loop) <= Scope(st.env)
  }

  lemma ForUnfold(m: Machine, fuel: nat, c: Maybe<Expr>, u: Maybe<Expr>, loop: Stmt, st: State)
    requires st.Valid() && fuel > 0
    ensures var r := EvalOptional(m, fuel - 1, c, st);
            RunFor(m, fuel, c, u, loop, st)
            == if !r.out.Val? then r else if !Truthy(r.out.value) then Leave(r.st, Normal)
               else AfterFor(m, fuel - 1, c, u, loop, RunStmt(m, fuel - 1, loop, r.st))
  {
    hide EvalOptional, AfterFor, RunStmt, Truthy, Leave;
  }

  lemma {:induction false} ForLoopAgrees(m: Machine, fuel: nat, c: Maybe<Expr>, u: Maybe<Expr>, loop: Stmt, st: State,
                                         home: nat)
    requires InLoop(m.recorded, loop, home, st)
    requires OptionalMarked(c, Scope(st.env), m.recorded) && OptionalMarked(u, Scope(st.env), m.recorded)
    ensures AgreesTo(m.recorded, st, home, RunFor(m, fuel, c, u, loop, st), RunFor(Slow(m), fuel, c, u, loop, st))
    decreases fuel, 3
  {
    if fuel > 0 {
      ForLoopAgreesStep(m, fuel, c, u, loop, st, home);
    }
  }

  lemma {:induction false} ForLoopAgreesStep(m: Machine, fuel: nat, c: Maybe<Expr>, u: Maybe<Expr>, loop: Stmt,
                                             st: State, home: nat)
    requires InLoop(m.recorded, loop, home, st)
    requires OptionalMarked(c, Scope(st.env), m.recorded) && OptionalMarked(u, Scope(st.env), m.recorded)
    requires fuel > 0
    ensures AgreesTo(m.recorded, st, home, RunFor(m, fuel, c, u, loop, st), RunFor(Slow(m), fuel, c, u, loop, st))
    decreases fuel, 2
  {
    hide StateOk, ValueOk, Keeps, EvalOptional, RunStmt, Truthy, Leave, StmtMarked, OptionalMarked, AfterFor,
         ExprMarked, ExprsMarked, ListMarked, PatternMarked, PartsMarked, FineTo, RunFor;
    IsValid(st, m.recorded);
    ForUnfold(m, fuel, c, u, loop, st);
    ForUnfold(Slow(m), fuel, c, u, loop, st);
    OptionalAgrees(m, fuel - 1, c, st);
    var r := EvalOptional(m, fuel - 1, c, st);
    if !r.st.leaked && !r.out.Val? {
      KeepsRefl(st.env);
      LeftToFine(m.recorded, st, st, home, r);
    }
    if !r.st.leaked && r.out.Val? {
      LoopGoesOn(m.recorded, st, r);
      if !Truthy(r.out.value) {
        LoopLeft(m.recorded, st, home, r, Normal);
      } else {
        StmtAgrees(m, fuel - 1, loop, r.st);
        var b := RunStmt(m, fuel - 1, loop, r.st);
        if !b.st.leaked {
          ForGoesOn(m, fuel - 1, c, u, loop, r.st, home, b);
          var more := AfterFor(m, fuel - 1, c, u, loop, b);
          if !more.st.leaked {
            StepFrom(m.recorded, st, r, home, more);
          }
        }
      }
    }
  }

  lemma StepFrom(recorded: set<nat>, st: State, r: Step, home: nat, more: Step)
    requires Fine(recorded, st, r) && !r.out.OutOfFuel? && FineTo(recorded, r.st, home, more)
    ensures FineTo(recorded, st, home, more)
  {
    hide StateOk, ValueOk;
    FineFrom(recorded, st, r.st, home, more);
  }

  lemma {:induction false} ForGoesOn(m: Machine, fuel: nat, c: Maybe<Expr>, u: Maybe<Expr>, loop: Stmt, st: State,
                                     home: nat, b: Step)
    requires InLoop(m.recorded, loop, home, st)
    requires OptionalMarked(c, Scope(st.env), m.recorded) && OptionalMarked(u, Scope(st.env), m.recorded)
    requires b.st.Valid() && !b.out.Val? && Fine(m.recorded, st, b)
    ensures AgreesTo(m.recorded, st, home, AfterFor(m, fuel, c, u, loop, b), AfterFor(Slow(m), fuel, c, u, loop, b))
    decreases fuel, 4
  {
    hide StateOk, ValueOk, Keeps, EvalOptional, RunFor, ForkCurrent, StmtMarked, OptionalMarked, Finish, ExprMarked,
         ExprsMarked, ListMarked, PatternMarked, PartsMarked, FineTo;
    IsValid(st, m.recorded);
    if Ends(b.out) {
      LoopFinished(m.recorded, st, home, b);
    } else {
      ForkEntered(m.recorded, st, b);
      var forked := With(b.st, ForkCurrent(b.st.env));
      OptionalAgrees(m, fuel, u, forked);
      var next := EvalOptional(m, fuel, u, forked);
      if !next.st.leaked {
        if !next.out.Val? {
          LeftToFine(m.recorded, st, forked, home, next);
        } else {
          LoopGoesOn(m.recorded, forked, next);
          LoopKeeps(m.recorded, st, forked, next);
          ForLoopAgrees(m, fuel, c, u, loop, next.st, home);
          var more := RunFor(m, fuel, c, u, loop, next.st);
          if !more.st.leaked {
            FineFrom(m.recorded, st, next.st, home, more);
          }
        }
      }
    }
  }

  lemma LoopLeft(recorded: set<nat>, st: State, home: nat, r: Step, out: Out)
    requires st.Valid() && r.st.Valid() && Fine(recorded, st, r) && st.env.frames[st.env.current].parent == S.Some(home)
    requires out == r.out || (out == Normal && !r.out.Error? && !r.out.OutOfFuel?)
    ensures FineTo(recorded, st, home, Leave(r.st, out))
  {
    hide StateOk, ValueOk, PopScope;
    KeepsRefl(st.env);
    HomeFine(recorded, st, st, home, r, out);
  }

  /** However the body ends the loop, it is left properly, except by an error. */
  lemma LoopFinished(recorded: set<nat>, st: State, home: nat, b: Step)
    requires st.Valid() && b.st.Valid() && Fine(recorded, st, b) && Ends(b.out) && !b.out.Val?
    requires st.env.frames[st.env.current].parent == S.Some(home)
    ensures FineTo(recorded, st, home, Finish(b))
  {
    hide StateOk, ValueOk, Leave;
    if !b.out.OutOfFuel? {
      LoopLeft(recorded, st, home, b, if b.out.BreakOut? then Normal else b.out);
    }
  }

  lemma KeepsRefl(e: Env)
    ensures Keeps(e, e)
  {
  }

  lemma LeftToFine(recorded: set<nat>, st: State, inner: State, home: nat, b: Step)
    requires Keeps(st.env, inner.env) && Fine(recorded, inner, b) && (b.out.Error? || b.out.OutOfFuel?)
    ensures FineTo(recorded, st, home, b)
  {
    hide StateOk, ValueOk;
    if b.out.Error? {
      KeepsTwice(st.env, inner.env, b.st.env);
    }
  }

  lemma ForkEntered(recorded: set<nat>, st: State, b: Step)
    requires st.Valid() && b.st.Valid() && Fine(recorded, st, b) && !b.out.Error? && !b.out.OutOfFuel?
    requires st.env.current > 0
    ensures var forked := With(b.st, ForkCurrent(b.st.env));
            && StateOk(forked, recorded) && Keeps(st.env, forked.env) && Scope(forked.env) == Scope(st.env)
            && forked.env.current > 0
            && forked.env.frames[forked.env.current].parent == st.env.frames[st.env.current].parent
  {
    hide EnvOk, CodeMarked, ValuesOk;
    ForkOk(b.st.env, recorded);
    var e := ForkCurrent(b.st.env);
    ValuesKept(b.st.env, e, recorded, b.st.seen);
    KeepsTwice(st.env, b.st.env, e);
  }

  lemma {:induction false} ForEachAgrees(m: Machine, fuel: nat, s: Stmt, st: State)
    requires StateOk(st, m.recorded) && StmtMarked(s, Scope(st.env), m.recorded) && s.ForEach? && fuel > 0
    ensures Agrees(m.recorded, st, RunStmt(m, fuel, s, st), RunStmt(Slow(m), fuel, s, st))
    decreases fuel - 1, 5
  {
    hide StateOk, ValueOk, Keeps, PushScope, RunEach, RunStmt, EvalExpr, StmtMarked, PatternMarked, ExprMarked,
         StmtLocals, PatternNames, FineTo, Linked;
    IsValid(st, m.recorded);
    EachStmtUnfold(m, fuel, s, st);
    EachStmtUnfold(Slow(m), fuel, s, st);
    EachMarked(s, Scope(st.env), m.recorded);
    ExprAgrees(m, fuel - 1, s.iterable, st);
    var r := EvalExpr(m, fuel - 1, s.iterable, st);
    if !r.st.leaked && r.out.Val? {
      ScopeKept(m.recorded, st, r);
      var locals := PatternNames(s.pattern) + StmtLocals(s.loop);
      LoopEntered(m.recorded, locals, r.st);
      var inner := With(r.st, PushScope(r.st.env, locals));
      ValueCarried(m.recorded, r.out.value, r.st, inner);
      EachLoopAgrees(m, fuel - 1, s.pattern, r.out.value, s.loop, inner, st.env.current);
      var f := RunEach(m, fuel - 1, s.pattern, r.out.value, s.loop, inner);
      if !f.st.leaked {
        FineFrom(m.recorded, r.st, inner, st.env.current, f);
        FineChain(m.recorded, st, r, f);
      }
    }
  }

  lemma EachStmtUnfold(m: Machine, fuel: nat, s: Stmt, st: State)
    requires st.Valid() && fuel > 0 && s.ForEach?
    ensures var r := EvalExpr(m, fuel - 1, s.iterable, st);
            RunStmt(m, fuel, s, st)
            == if !r.out.Val? then r
               else RunEach(m, fuel - 1, s.pattern, r.out.value, s.loop,
                            With(r.st, PushScope(r.st.env, PatternNames(s.pattern) + StmtLocals(s.loop))))
  {
    hide RunEach, PushScope, EvalExpr;
  }

  lemma ValueCarried(recorded: set<nat>, v: Value, a: State, b: State)
    requires ValueOk(a.env.frames, recorded, v) && Keeps(a.env, b.env)
    ensures ValueOk(b.env.frames, recorded, v)
  {
  }

  lemma EachMarked(s: Stmt, scope: set<Name>, recorded: set<nat>)
    requires s.ForEach? && StmtMarked(s, scope, recorded)
    ensures var inside := scope + (PatternNames(s.pattern) + StmtLocals(s.loop));
            && ExprMarked(s.iterable, scope, recorded) && PatternMarked(s.pattern, inside, recorded)
            && StmtMarked(s.loop, inside, recorded)
  {
    assert scope + PatternNames(s.pattern) + StmtLocals(s.loop)
      == scope + (PatternNames(s.pattern) + StmtLocals(s.loop));
  }

  lemma EachUnfold(m: Machine, fuel: nat, p: Pattern, items: Value, loop: Stmt, st: State)
    requires st.Valid() && fuel > 0
    ensures var item := Primitive(m, [items], st);
            RunEach(m, fuel, p, items, loop, st)
            == if !item.out.Val? then Leave(item.st, Normal)
               else EachBody(m, fuel - 1, p, items, loop,
                             BindPattern(m, fuel - 1, p, item.out.value, With(item.st, ForkCurrent(item.st.env))))
  {
    hide Primitive, BindPattern, EachBody, Leave, ForkCurrent;
  }

  lemma {:induction false} EachLoopAgrees(m: Machine, fuel: nat, p: Pattern, items: Value, loop: Stmt, st: State,
                                          home: nat)
    requires InLoop(m.recorded, loop, home, st) && ValueOk(st.env.frames, m.recorded, items)
    requires PatternMarked(p, Scope(st.env), m.recorded) && PatternNames(p) <= Scope(st.env)
    ensures AgreesTo(m.recorded, st, home, RunEach(m, fuel, p, items, loop, st),
                     RunEach(Slow(m), fuel, p, items, loop, st))
    decreases fuel, 3
  {
    if fuel > 0 {
      EachLoopAgreesStep(m, fuel, p, items, loop, st, home);
    }
  }

  lemma {:induction false} EachLoopAgreesStep(m: Machine, fuel: nat, p: Pattern, items: Value, loop: Stmt, st: State,
                                              home: nat)
    requires InLoop(m.recorded, loop, home, st) && ValueOk(st.env.frames, m.recorded, items)
    requires PatternMarked(p, Scope(st.env), m.recorded) && PatternNames(p) <= Scope(st.env)
    requires fuel > 0
    ensures AgreesTo(m.recorded, st, home, RunEach(m, fuel, p, items, loop, st),
                     RunEach(Slow(m), fuel, p, items, loop, st))
    decreases fuel, 2
  {
    hide StateOk, ValueOk, Keeps, Primitive, BindPattern, ForkCurrent, StmtMarked, PatternMarked, EachBody, Leave,
         FineTo, StmtLocals, PatternNames, RunEach;
    IsValid(st, m.recorded);
    EachUnfold(m, fuel, p, items, loop, st);
    EachUnfold(Slow(m), fuel, p, items, loop, st);
    PartTaken(m, items, st);
    var item := Primitive(m, [items], st);
    if !item.out.Val? {
      ItemsEnd(m.recorded, st, home, item);
    } else {
      LoopGoesOn(m.recorded, st, item);
      ForkEntered(m.recorded, st, item);
      var forked := With(item.st, ForkCurrent(item.st.env));
      ForkValue(m.recorded, item);
      PatternAgrees(m, fuel - 1, p, item.out.value, forked);
      var bound := BindPattern(m, fuel - 1, p, item.out.value, forked);
      if !bound.st.leaked {
        ValueCarried(m.recorded, items, st, forked);
        EachBodyAgrees(m, fuel - 1, p, items, loop, forked, home, bound);
        var more := EachBody(m, fuel - 1, p, items, loop, bound);
        if !more.st.leaked {
          FineFrom(m.recorded, st, forked, home, more);
        }
      }
    }
  }

  lemma StuckHome(recorded: set<nat>, st: State, home: nat, r: Step)
    ensures r.out.OutOfFuel? ==> FineTo(recorded, st, home, r)
  {
  }

  lemma {:induction false} EachBodyAgrees(m: Machine, fuel: nat, p: Pattern, items: Value, loop: Stmt, st: State,
                                          home: nat, bound: Step)
    requires InLoop(m.recorded, loop, home, st) && ValueOk(st.env.frames, m.recorded, items)
    requires PatternMarked(p, Scope(st.env), m.recorded) && PatternNames(p) <= Scope(st.env)
    requires bound.st.Valid() && !bound.out.Val? && Fine(m.recorded, st, bound)
    ensures AgreesTo(m.recorded, st, home, EachBody(m, fuel, p, items, loop, bound),
                     EachBody(Slow(m), fuel, p, items, loop, bound))
    decreases fuel, 5
  {
    hide StateOk, ValueOk, Keeps, RunStmt, RunEach, StmtMarked, PatternMarked, AfterEach, Leave, StmtLocals,
         PatternNames, FineTo, Linked;
    StuckHome(m.recorded, st, home, bound);
    IsValid(st, m.recorded);
    if bound.out.Error? {
      KeepsRefl(st.env);
      BoundLeft(m.recorded, st, st, home, bound);
    } else if !bound.out.OutOfFuel? {
      LoopGoesOn(m.recorded, st, bound);
      StmtAgrees(m, fuel, loop, bound.st);
      var b := RunStmt(m, fuel, loop, bound.st);
      if !b.st.leaked {
        ValueStays(m.recorded, items, st, bound);
        EachGoesOn(m, fuel, p, items, loop, bound.st, home, b);
        var more := AfterEach(m, fuel, p, items, loop, b);
        if !more.st.leaked {
          StepFrom(m.recorded, st, bound, home, more);
        }
      }
    }
  }

  lemma BoundLeft(recorded: set<nat>, st: State, inner: State, home: nat, r: Step)
    requires inner.Valid() && r.st.Valid() && Keeps(st.env, inner.env) && Fine(recorded, inner, r)
    requires inner.env.frames[inner.env.current].parent == S.Some(home)
    ensures FineTo(recorded, st, home, Leave(r.st, r.out))
  {
    hide StateOk, ValueOk, PopScope;
    HomeFine(recorded, st, inner, home, r, r.out);
  }

  lemma {:induction false} EachGoesOn(m: Machine, fuel: nat, p: Pattern, items: Value, loop: Stmt, st: State, home: nat,
                                      b: Step)
    requires InLoop(m.recorded, loop, home, st) && ValueOk(st.env.frames, m.recorded, items)
    requires PatternMarked(p, Scope(st.env), m.recorded) && PatternNames(p) <= Scope(st.env)
    requires b.st.Valid() && !b.out.Val? && Fine(m.recorded, st, b)
    ensures AgreesTo(m.recorded, st, home, AfterEach(m, fuel, p, items, loop, b),
                     AfterEach(Slow(m), fuel, p, items, loop, b))
    decreases fuel, 4
  {
    hide StateOk, ValueOk, Keeps, RunEach, StmtMarked, PatternMarked, Finish, ExprMarked, ExprsMarked, ListMarked,
         PartsMarked, FineTo;
    IsValid(st, m.recorded);
    if Ends(b.out) {
      LoopFinished(m.recorded, st, home, b);
    } else {
      LoopGoesOn(m.recorded, st, b);
      ValueStays(m.recorded, items, st, b);
      EachLoopAgrees(m, fuel, p, items, loop, b.st, home);
      var more := RunEach(m, fuel, p, items, loop, b.st);
      if !more.st.leaked {
        StepFrom(m.recorded, st, b, home, more);
      }
    }
  }

  lemma ItemsEnd(recorded: set<nat>, st: State, home: nat, item: Step)
    requires st.Valid() && item.st.Valid() && Fine(recorded, st, item) && item.st.env == st.env && item.out.Error?
    requires st.env.frames[st.env.current].parent == S.Some(home)
    ensures FineTo(recorded, st, home, Leave(item.st, Normal))
  {
    hide EnvOk, CodeMarked, ValuesOk;
    ParentInside(st.env);
    CurrentOk(st.env, recorded, home);
  }

  lemma ForkValue(recorded: set<nat>, item: Step)
    requires item.st.Valid() && item.out.Val? && ValueOk(item.st.env.frames, recorded, item.out.value)
    ensures ValueOk(ForkCurrent(item.st.env).frames, recorded, item.out.value)
  {
  }

  // ---- Try ----

  /** When no leak is noted, the next block begins in the frame the `try` began in. */
  lemma NotedFine(recorded: set<nat>, st: State, t: Step)
    requires st.Valid() && t.st.Valid() && Fine(recorded, st, t) && !t.out.OutOfFuel? && !Noting(t.st, st).leaked
    ensures var n := Noting(t.st, st);
            StateOk(n, recorded) && Scope(n.env) == Scope(st.env) && n.env.current == st.env.current && n == t.st
  {
    hide EnvOk, ValuesOk;
  }

  lemma TryMarked(tried: seq<Stmt>, handler: Maybe<Handler>, finalizer: Maybe<Finalizer>, scope: set<Name>,
                  recorded: set<nat>)
    requires StmtMarked(Try(tried, handler, finalizer), scope, recorded)
    ensures ListMarked(tried, scope + Locals(tried), recorded)
    ensures handler.Some? ==> ListMarked(handler.value.handling, scope + HandlerLocals(handler.value), recorded)
    ensures finalizer.Some? ==> ListMarked(finalizer.value.finals, scope + FinalizerLocals(finalizer.value), recorded)
  {
    var s := Try(tried, handler, finalizer);
    forall free: bool
      ensures InList(tried, scope + Locals(tried), free) <= InStmt(s, scope, free)
      ensures handler.Some? ==> InHandler(handler.value, scope, free) <= InStmt(s, scope, free)
      ensures finalizer.Some? ==> InFinalizer(finalizer.value, scope, free) <= InStmt(s, scope, free)
    {
    }
  }

  lemma UndefinedOk(frames: seq<Frame>, recorded: set<nat>)
    ensures ValueOk(frames, recorded, Undefined)
  {
  }

  lemma {:induction false} TryAgrees(m: Machine, fuel: nat, tried: seq<Stmt>, handler: Maybe<Handler>,
                                     finalizer: Maybe<Finalizer>, st: State)
    requires StateOk(st, m.recorded) && StmtMarked(Try(tried, handler, finalizer), Scope(st.env), m.recorded)
    ensures Agrees(m.recorded, st, RunTry(m, fuel, tried, handler, finalizer, st),
                   RunTry(Slow(m), fuel, tried, handler, finalizer, st))
    decreases fuel, 7
  {
    hide *;
    hide StateOk;
    IsValid(st, m.recorded);
    TryMarked(tried, handler, finalizer, Scope(st.env), m.recorded);
    TryParts(m, fuel, tried, handler, finalizer, st);
  }

  lemma {:induction false} TryParts(m: Machine, fuel: nat, tried: seq<Stmt>, handler: Maybe<Handler>,
                                    finalizer: Maybe<Finalizer>, st: State)
    requires StateOk(st, m.recorded) && ListMarked(tried, Scope(st.env) + Locals(tried), m.recorded)
    requires handler.Some? ==>
               ListMarked(handler.value.handling, Scope(st.env) + HandlerLocals(handler.value), m.recorded)
    requires finalizer.Some? ==>
               ListMarked(finalizer.value.finals, Scope(st.env) + FinalizerLocals(finalizer.value), m.recorded)
    ensures Agrees(m.recorded, st, RunTry(m, fuel, tried, handler, finalizer, st),
                   RunTry(Slow(m), fuel, tried, handler, finalizer, st))
    decreases fuel, 6
  {
    hide StateOk, ValueOk, Keeps, RunBlock, ListMarked, HandlerLocals, FinalizerLocals, Locals, Caught, Finalized;
    IsValid(st, m.recorded);
    UndefinedOk(st.env.frames, m.recorded);
    assert Locals(tried) + Named(S.None) <= Locals(tried);
    BlockAgrees(m, fuel, tried, Locals(tried), S.None, Undefined, st);
    var t := RunBlock(m, fuel, tried, Locals(tried), S.None, Undefined, st);
    if !t.st.leaked && !t.out.OutOfFuel? {
      CatchAgrees(m, fuel, handler, st, t);
      var c := Caught(m, fuel, handler, st, t);
      if !c.st.leaked && !c.out.OutOfFuel? {
        FinallyAgrees(m, fuel, finalizer, st, c);
      }
    }
  }

  lemma {:induction false} CatchAgrees(m: Machine, fuel: nat, handler: Maybe<Handler>, st: State, t: Step)
    requires StateOk(st, m.recorded) && t.st.Valid() && Fine(m.recorded, st, t) && !t.out.OutOfFuel? && !t.out.Val?
    requires handler.Some? ==>
               ListMarked(handler.value.handling, Scope(st.env) + HandlerLocals(handler.value), m.recorded)
    ensures Agrees(m.recorded, st, Caught(m, fuel, handler, st, t), Caught(Slow(m), fuel, handler, st, t))
    decreases fuel, 5
  {
    hide StateOk, ValueOk, Keeps, RunBlock, ListMarked, Locals, Noting;
    IsValid(st, m.recorded);
    if handler.Some? && (t.out.Error? || t.out.ThrowOut?) {
      var n, h := Noting(t.st, st), handler.value;
      if !n.leaked {
        NotedFine(m.recorded, st, t);
        BlockAgrees(m, fuel, h.handling, HandlerLocals(h), h.caught, t.out.value, n);
        var r := RunBlock(m, fuel, h.handling, HandlerLocals(h), h.caught, t.out.value, n);
        if !r.st.leaked {
          FineFrom(m.recorded, st, n, st.env.current, r);
        }
      } else {
        NotedValid(st, t);
      }
    }
  }

  lemma NotedValid(st: State, t: Step)
    requires st.Valid() && t.st.Valid()
    ensures Noting(t.st, st).Valid()
  {
  }

  lemma {:induction false} FinallyAgrees(m: Machine, fuel: nat, finalizer: Maybe<Finalizer>, st: State, c: Step)
    requires StateOk(st, m.recorded) && c.st.Valid() && Fine(m.recorded, st, c) && !c.out.OutOfFuel? && !c.out.Val?
    requires finalizer.Some? ==>
               ListMarked(finalizer.value.finals, Scope(st.env) + FinalizerLocals(finalizer.value), m.recorded)
    ensures Agrees(m.recorded, st, Finalized(m, fuel, finalizer, st, c), Finalized(Slow(m), fuel, finalizer, st, c))
    decreases fuel, 5
  {
    hide StateOk, ValueOk, Keeps, RunBlock, ListMarked, Locals, Noting;
    IsValid(st, m.recorded);
    if finalizer.Some? {
      var n, fin := Noting(c.st, st), finalizer.value;
      NotedValid(st, c);
      if !n.leaked {
        NotedFine(m.recorded, st, c);
        UndefinedOk(n.env.frames, m.recorded);
        BlockAgrees(m, fuel, fin.finals, FinalizerLocals(fin), S.None, Undefined, n);
        var f := RunBlock(m, fuel, fin.finals, FinalizerLocals(fin), S.None, Undefined, n);
        if !f.st.leaked && !f.out.OutOfFuel? {
          FineFrom(m.recorded, st, n, st.env.current, f);
          if !f.out.Error? {
            OutcomeStays(m.recorded, st, c, n, f);
          }
        }
      }
    }
  }

  /** A finalizer that just ends leaves the outcome before it standing. */
  lemma OutcomeStays(recorded: set<nat>, st: State, c: Step, n: State, f: Step)
    requires n == c.st && Fine(recorded, st, c) && !c.out.OutOfFuel? && Fine(recorded, n, f)
    requires Fine(recorded, st, f) && !f.out.Error? && !f.out.OutOfFuel?
    ensures Fine(recorded, st, Step(f.st, c.out))
  {
    hide StateOk, CodeMarked;
  }

  // ---- The result ----

  predicate GlobalsOk(globals: map<Name, Value>) {
    forall x :: x in globals ==> !globals[x].Closure?
  }

  /** A script run with its recorded reads going straight to the root frame does exactly what it does when every read
      walks the chain of frames, unless a `try` leaks. */
  lemma FastRunsLikeSlow(pick: (nat, seq<Value>) -> Pick, fuel: nat, script: seq<Stmt>, globals: map<Name, Value>)
    requires OffsetsTell(script) && GlobalsOk(globals)
    ensures var fast := RunScript(Machine(pick, InList(script, {}, true)), fuel, script, globals);
            !fast.st.leaked ==> fast == RunScript(Machine(pick, {}), fuel, script, globals)
  {
    var m := Machine(pick, InList(script, {}, true));
    var st := State(Env([Frame(globals, {}, S.None, {})], 0), [], 0, false);
    assert StateOk(st, m.recorded);
    assert ListMarked(script, Scope(st.env), m.recorded);
    hide StateOk, RunBody, ListMarked;
    BodyAgrees(m, fuel, script, st);
  }
}
