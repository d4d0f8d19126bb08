/** Where an error leaves the current frame. Guarded scripts never go on in a frame deeper than their own, so their
    recorded reads are never observed; for single statements and calls the exact condition is given. */
module TryFrames {
  import opened Scripts
  import opened Environments
  import opened Runs
  import opened RootReads
  import opened Guards
  import S = Syntax

  // ---- Frames and values ----

  /** Every closure around runs guarded code. */
  predicate Tame(calm: bool, v: Value) {
    v.Closure? ==> CodeGuarded(calm, v.code)
  }

  ghost predicate EnvTame(calm: bool, e: Env) {
    && e.Valid()
    && (forall f :: 0 < f < |e.frames| ==> e.frames[f].parent.Some?)
    && (forall f, x :: 0 <= f < |e.frames| && x in e.frames[f].bindings ==> Tame(calm, e.frames[f].bindings[x]))
  }

  ghost predicate AllTame(calm: bool, vs: seq<Value>) {
    forall i :: 0 <= i < |vs| ==> Tame(calm, vs[i])
  }

  ghost predicate StateTame(calm: bool, st: State) {
    EnvTame(calm, st.env) && AllTame(calm, st.seen)
  }

  /** `home` is `f` or one of the frames around it. */
  predicate Under(frames: seq<Frame>, f: nat, home: nat)
    decreases f
  {
    && f < |frames|
    && (f == home
        || (frames[f].parent.Some? && frames[f].parent.value < f && Under(frames, frames[f].parent.value, home)))
  }

  lemma {:induction false} UnderKept(a: Env, b: Env, f: nat, home: nat)
    requires Keeps(a, b) && Under(a.frames, f, home)
    ensures Under(b.frames, f, home)
    decreases f
  {
    if f != home {
      UnderKept(a, b, a.frames[f].parent.value, home);
    }
  }

  lemma {:induction false} UnderOuter(frames: seq<Frame>, f: nat, inner: nat, home: nat)
    requires Under(frames, f, inner) && inner < |frames| && frames[inner].parent == S.Some(home) && home < inner
    ensures Under(frames, f, home)
    decreases f
  {
    if f == inner {
      assert Under(frames, home, home);
    } else {
      UnderOuter(frames, frames[f].parent.value, inner, home);
    }
  }

  lemma {:induction false} UnderIsLater(frames: seq<Frame>, f: nat, home: nat)
    requires Under(frames, f, home)
    ensures home <= f
    decreases f
  {
    if f != home {
      UnderIsLater(frames, frames[f].parent.value, home);
    }
  }

  // ---- The environment operations ----

  lemma PushTame(calm: bool, e: Env, names: set<Name>)
    requires EnvTame(calm, e)
    ensures var r := PushScope(e, names);
            && EnvTame(calm, r) && Keeps(e, r) && r.current == |e.frames|
            && r.frames[r.current].parent == S.Some(e.current)
  {
    hide CodeGuarded;
  }

  lemma ForkTame(calm: bool, e: Env)
    requires EnvTame(calm, e) && e.current > 0
    ensures var r := ForkCurrent(e);
            && EnvTame(calm, r) && Keeps(e, r) && r.current == |e.frames|
            && r.frames[r.current].parent == e.frames[e.current].parent
  {
    hide CodeGuarded;
  }

  lemma DefineTame(calm: bool, e: Env, x: Name, v: Value)
    requires EnvTame(calm, e) && Tame(calm, v)
    ensures var r := Define(e, x, v);
            EnvTame(calm, r) && Keeps(e, r) && r.current == e.current
  {
    hide CodeGuarded;
  }

  lemma TdzTame(calm: bool, e: Env, names: set<Name>)
    requires EnvTame(calm, e)
    ensures var r := MarkTdz(e, names);
            EnvTame(calm, r) && Keeps(e, r) && r.current == e.current
  {
    hide CodeGuarded;
  }

  lemma SetTame(calm: bool, e: Env, x: Name, v: Value)
    requires EnvTame(calm, e) && Tame(calm, v) && Set(e, x, v).Some?
    ensures var r := Set(e, x, v).value;
            EnvTame(calm, r) && Keeps(e, r) && r.current == e.current
  {
    hide CodeGuarded;
  }

  lemma CurrentTame(calm: bool, e: Env, current: nat)
    requires EnvTame(calm, e) && current < |e.frames|
    ensures EnvTame(calm, e.(current := current))
  {
    hide CodeGuarded;
  }

  lemma {:induction false} FoundTame(calm: bool, e: Env, f: nat, x: Name)
    requires EnvTame(calm, e) && f < |e.frames| && LookupFrom(e.frames, f, x).Found?
    ensures Tame(calm, LookupFrom(e.frames, f, x).value)
    decreases f
  {
    hide CodeGuarded;
    if x !in e.frames[f].bindings {
      FoundTame(calm, e, e.frames[f].parent.value, x);
    }
  }

  lemma {:induction false} HoistTame(calm: bool, ss: seq<Stmt>, e: Env)
    requires EnvTame(calm, e) && ListGuarded(calm, ss)
    ensures var r := HoistFunctions(ss, e);
            EnvTame(calm, r) && Keeps(e, r) && r.current == e.current
    decreases |ss|
  {
    if ss != [] {
      if ss[0].FunctionDecl? {
        var next := Define(e, ss[0].name, Closure(ss[0].code, e.current));
        assert StmtGuarded(calm, ss[0]);
        DefineTame(calm, e, ss[0].name, Closure(ss[0].code, e.current));
        hide EnvTame;
        HoistTame(calm, ss[1..], next);
        KeepsTwice(e, next, HoistFunctions(ss[1..], next));
      } else {
        HoistTame(calm, ss[1..], e);
      }
    }
  }

  // ---- One step of a run ----

  /** The step leaves no trace of a leak. It ends in frame `home`, or by an error: then also, if the code is `steady`,
      and in a frame inside `home` if it is `quiet`. */
  ghost predicate LandsIn(calm: bool, st: State, home: nat, quiet: bool, steady: bool, r: Step) {
    && r.st.leaked == st.leaked
    && (r.out.OutOfFuel? ||
        (&& StateTame(calm, r.st) && Keeps(st.env, r.st.env) && (Carries(r.out) ==> Tame(calm, r.out.value))
         && (!r.out.Error? || steady ==> r.st.env.current == home)
         && (quiet ==> Under(r.st.env.frames, r.st.env.current, home))))
  }

  ghost predicate Lands(calm: bool, st: State, quiet: bool, steady: bool, r: Step) {
    LandsIn(calm, st, st.env.current, quiet, steady, r)
  }

  lemma LandsHere(calm: bool, st: State, out: Out)
    requires StateTame(calm, st) && (Carries(out) ==> Tame(calm, out.value))
    ensures Lands(calm, st, true, true, Step(st, out))
  {
  }

  lemma LandsWith(calm: bool, st: State, e: Env, out: Out)
    requires StateTame(calm, st) && EnvTame(calm, e) && Keeps(st.env, e) && e.current == st.env.current
    requires Carries(out) ==> Tame(calm, out.value)
    ensures Lands(calm, st, true, true, Step(With(st, e), out)) && StateTame(calm, With(st, e))
  {
  }

  /** Less may be asked. */
  lemma LandsLess(calm: bool, st: State, home: nat, quiet: bool, steady: bool, r: Step, q: bool, s: bool)
    requires LandsIn(calm, st, home, quiet, steady, r) && (q ==> quiet) && (s ==> steady)
    ensures LandsIn(calm, st, home, q, s, r)
  {
    hide StateTame;
  }

  lemma LandsAtMost(calm: bool, st: State, quiet: bool, steady: bool, r: Step, q: bool, s: bool)
    requires Lands(calm, st, quiet, steady, r) && (q ==> quiet) && (s ==> steady)
    ensures Lands(calm, st, q, s, r)
  {
    hide StateTame;
  }

  /** What follows a step that came home. */
  lemma LandsOn(calm: bool, st: State, mid: State, home: nat, q: bool, s: bool, b: Step)
    requires mid.leaked == st.leaked && Keeps(st.env, mid.env) && LandsIn(calm, mid, home, q, s, b)
    ensures LandsIn(calm, st, home, q, s, b)
  {
    hide StateTame;
    if !b.out.OutOfFuel? {
      KeepsTwice(st.env, mid.env, b.st.env);
    }
  }

  lemma CameHome(calm: bool, st: State, q: bool, s: bool, a: Step)
    requires Lands(calm, st, q, s, a) && !a.out.Error? && !a.out.OutOfFuel?
    ensures StateTame(calm, a.st) && a.st.env.current == st.env.current && Keeps(st.env, a.st.env)
    ensures a.st.leaked == st.leaked && (Carries(a.out) ==> Tame(calm, a.out.value))
  {
    hide StateTame;
  }

  ghost predicate LandsArgs(calm: bool, st: State, quiet: bool, r: Args) {
    Lands(calm, st, quiet, quiet, Step(r.st, r.out)) && (!r.out.OutOfFuel? ==> AllTame(calm, r.values))
  }

  lemma PrimitiveLands(calm: bool, m: Machine, vs: seq<Value>, st: State)
    requires StateTame(calm, st) && AllTame(calm, vs)
    ensures Lands(calm, st, true, true, Primitive(m, vs, st))
  {
    hide CodeGuarded, EnvTame;
    assert st.Valid() by { TameIsValid(calm, st); }
    var r := Primitive(m, vs, st);
    assert AllTame(calm, r.st.seen);
  }

  lemma TameIsValid(calm: bool, st: State)
    requires StateTame(calm, st)
    ensures st.Valid()
  {
  }

  // ---- Expressions ----

  lemma {:induction false} ExprLands(calm: bool, m: Machine, fuel: nat, e: Expr, st: State)
    requires StateTame(calm, st) && ExprGuarded(calm, e)
    ensures Lands(calm, st, ExprQuiet(calm, e), ExprQuiet(calm, e), EvalExpr(m, fuel, e, st))
    decreases fuel, 1
  {
    if fuel > 0 {
      match e
      case Ident(x, at) => IdentLands(calm, m, fuel, x, at, st);
      case Prim(es) => PrimLands(calm, m, fuel, e, st);
      case Choice(_, _, _) => ChoiceLands(calm, m, fuel, e, st);
      case Assign(_, _, _) => AssignLands(calm, m, fuel, e, st);
      case Function(own, code) => ClosureLands(calm, own, code, st);
      case Call(_, _) => CallLands(calm, m, fuel, e, st);
    }
  }

  lemma IdentLands(calm: bool, m: Machine, fuel: nat, x: Name, at: nat, st: State)
    requires StateTame(calm, st) && fuel > 0
    ensures Lands(calm, st, true, true, EvalExpr(m, fuel, Ident(x, at), st))
  {
    hide CodeGuarded;
    if LookupRead(st.env, x).Found? {
      FoundTame(calm, st.env, st.env.current, x);
    }
  }

  lemma {:induction false} PrimLands(calm: bool, m: Machine, fuel: nat, e: Expr, st: State)
    requires StateTame(calm, st) && ExprGuarded(calm, e) && e.Prim? && fuel > 0
    ensures Lands(calm, st, ExprQuiet(calm, e), ExprQuiet(calm, e), EvalExpr(m, fuel, e, st))
    decreases fuel, 0
  {
    hide StateTame, AllTame, EvalExprs, Primitive, Keeps, Under, Tame;
    TameIsValid(calm, st);
    var q := ExprQuiet(calm, e);
    ExprsLand(calm, m, fuel - 1, e.operands, st);
    var a := EvalExprs(m, fuel - 1, e.operands, st);
    if a.out == Normal {
      CameHome(calm, st, q, q, Step(a.st, a.out));
      PrimitiveLands(calm, m, a.values, a.st);
      LandsLess(calm, a.st, st.env.current, true, true, Primitive(m, a.values, a.st), q, q);
      LandsOn(calm, st, a.st, st.env.current, q, q, Primitive(m, a.values, a.st));
    }
  }

  lemma {:induction false} ExprsLand(calm: bool, m: Machine, fuel: nat, es: seq<Expr>, st: State)
    requires StateTame(calm, st) && ExprsGuarded(calm, es)
    ensures LandsArgs(calm, st, ExprsQuiet(calm, es), EvalExprs(m, fuel, es, st))
    decreases fuel, 1
  {
    if fuel > 0 {
      if es == [] {
        LandsHere(calm, st, Normal);
      } else {
        hide StateTame, EvalExpr, Keeps, Under, CodeGuarded;
        TameIsValid(calm, st);
        var q := ExprsQuiet(calm, es);
        ExprLands(calm, m, fuel - 1, es[0], st);
        var r := EvalExpr(m, fuel - 1, es[0], st);
        LandsLess(calm, st, st.env.current, ExprQuiet(calm, es[0]), ExprQuiet(calm, es[0]), r, q, q);
        if r.out.Val? {
          CameHome(calm, st, q, q, r);
          ExprsLand(calm, m, fuel - 1, es[1..], r.st);
          var more := EvalExprs(m, fuel - 1, es[1..], r.st);
          LandsLess(calm, r.st, st.env.current, ExprsQuiet(calm, es[1..]), ExprsQuiet(calm, es[1..]),
                    Step(more.st, more.out), q, q);
          LandsOn(calm, st, r.st, st.env.current, q, q, Step(more.st, more.out));
        }
      }
    }
  }

  lemma {:induction false} ChoiceLands(calm: bool, m: Machine, fuel: nat, e: Expr, st: State)
    requires StateTame(calm, st) && ExprGuarded(calm, e) && e.Choice? && fuel > 0
    ensures Lands(calm, st, ExprQuiet(calm, e), ExprQuiet(calm, e), EvalExpr(m, fuel, e, st))
    decreases fuel, 0
  {
    hide StateTame, Keeps, Under, Tame, Truthy, LandsIn;
    TameIsValid(calm, st);
    var q := ExprQuiet(calm, e);
    ExprLands(calm, m, fuel - 1, e.condition, st);
    var r := EvalExpr(m, fuel - 1, e.condition, st);
    LandsLess(calm, st, st.env.current, ExprQuiet(calm, e.condition), ExprQuiet(calm, e.condition), r, q, q);
    if r.out.Val? {
      CameHome(calm, st, q, q, r);
      var next := if Truthy(r.out.value) then e.thenExpr else e.elseExpr;
      ExprLands(calm, m, fuel - 1, next, r.st);
      var r2 := EvalExpr(m, fuel - 1, next, r.st);
      LandsLess(calm, r.st, st.env.current, ExprQuiet(calm, next), ExprQuiet(calm, next), r2, q, q);
      LandsOn(calm, st, r.st, st.env.current, q, q, r2);
    }
  }

  lemma {:induction false} AssignLands(calm: bool, m: Machine, fuel: nat, e: Expr, st: State)
    requires StateTame(calm, st) && ExprGuarded(calm, e) && e.Assign? && fuel > 0
    ensures Lands(calm, st, ExprQuiet(calm, e), ExprQuiet(calm, e), EvalExpr(m, fuel, e, st))
    decreases fuel, 0
  {
    hide StateTame, Keeps, Under, Tame, LandsIn, Set;
    TameIsValid(calm, st);
    ExprLands(calm, m, fuel - 1, e.value, st);
    var r := EvalExpr(m, fuel - 1, e.value, st);
    if r.out.Val? {
      StoreLands(calm, st, ExprQuiet(calm, e), r, e.name);
    }
  }

  lemma StoreLands(calm: bool, st: State, q: bool, r: Step, x: Name)
    requires r.st.Valid() && Lands(calm, st, q, q, r) && r.out.Val?
    ensures var e := Set(r.st.env, x, r.out.value);
            Lands(calm, st, q, q, if e.None? then Step(r.st, Error(Undefined)) else Step(With(r.st, e.value), r.out))
  {
    hide EnvTame, CodeGuarded, AllTame, Set, Keeps;
    var e := Set(r.st.env, x, r.out.value);
    CameHome(calm, st, q, q, r);
    if e.Some? {
      SetTame(calm, r.st.env, x, r.out.value);
      LandsWith(calm, r.st, e.value, r.out);
      LandsOn(calm, st, r.st, st.env.current, true, true, Step(With(r.st, e.value), r.out));
    } else {
      LandsHere(calm, r.st, Error(Undefined));
      LandsOn(calm, st, r.st, st.env.current, true, true, Step(r.st, Error(Undefined)));
    }
  }

  lemma ClosureLands(calm: bool, own: Maybe<Name>, code: Code, st: State)
    requires StateTame(calm, st) && CodeGuarded(calm, code)
    ensures Lands(calm, st, true, true, MakeClosure(own, code, st))
  {
    if own.None? {
      LandsHere(calm, st, Val(Closure(code, st.env.current)));
    } else {
      hide EnvTame, CodeGuarded;
      var inner := PushScope(st.env, {own.value});
      var f := Closure(code, inner.current);
      PushTame(calm, st.env, {own.value});
      DefineTame(calm, inner, own.value, f);
      var defined := Define(inner, own.value, f);
      KeepsTwice(st.env, inner, defined);
      CurrentTame(calm, defined, st.env.current);
      LandsWith(calm, st, defined.(current := st.env.current), Val(f));
    }
  }

  lemma {:induction false} CallLands(calm: bool, m: Machine, fuel: nat, e: Expr, st: State)
    requires StateTame(calm, st) && ExprGuarded(calm, e) && e.Call? && fuel > 0
    ensures Lands(calm, st, ExprQuiet(calm, e), ExprQuiet(calm, e), EvalExpr(m, fuel, e, st))
    decreases fuel, 0
  {
    hide StateTame, Keeps, Under, Tame, AllTame, EvalExprs, CallFunction;
    TameIsValid(calm, st);
    var q := ExprQuiet(calm, e);
    ExprLands(calm, m, fuel - 1, e.callee, st);
    var r := EvalExpr(m, fuel - 1, e.callee, st);
    LandsLess(calm, st, st.env.current, ExprQuiet(calm, e.callee), ExprQuiet(calm, e.callee), r, q, q);
    if r.out.Val? {
      CameHome(calm, st, q, q, r);
      ExprsLand(calm, m, fuel - 1, e.args, r.st);
      var a := EvalExprs(m, fuel - 1, e.args, r.st);
      LandsLess(calm, r.st, st.env.current, ExprsQuiet(calm, e.args), ExprsQuiet(calm, e.args), Step(a.st, a.out), q,
                q);
      LandsOn(calm, st, r.st, st.env.current, q, q, Step(a.st, a.out));
      if a.out == Normal {
        CameHome(calm, st, q, q, Step(a.st, a.out));
        CallFunctionLands(calm, m, fuel - 1, r.out.value, a.values, a.st);
        var c := CallFunction(m, fuel - 1, r.out.value, a.values, a.st);
        LandsLess(calm, a.st, st.env.current, calm, calm, c, q, q);
        LandsOn(calm, st, a.st, st.env.current, q, q, c);
      }
    }
  }

  // ---- Calls ----

  lemma {:induction false} CallFunctionLands(calm: bool, m: Machine, fuel: nat, f: Value, args: seq<Value>, st: State)
    requires StateTame(calm, st) && Tame(calm, f) && AllTame(calm, args)
    ensures Lands(calm, st, calm, calm, CallFunction(m, fuel, f, args, st))
    decreases fuel, 1
  {
    if fuel == 0 {
    } else if !f.Closure? || f.env >= st.Frames() || |args| < Required(f.code.params) {
      LandsHere(calm, st, Error(Undefined));
    } else {
      EnteredTame(calm, f, st);
      hide StateTame, AllTame, Keeps, Under, BindParams, RunBody, PushScope, MarkTdz, ParamsGuarded, ListGuarded,
           Lands;
      var inner := With(st, PushScope(st.env.(current := f.env), CodeLocals(f.code)));
      ParamsLand(calm, m, fuel - 1, f.code.params, args, inner);
      var b := BindParams(m, fuel - 1, f.code.params, args, inner);
      if b.out != Normal {
        if calm {
          PlainBinds(m, fuel - 1, f.code.params, args, inner);
        }
        BindingFailed(calm, st, inner, b);
      } else {
        CameHome(calm, inner, false, false, b);
        BodyEntered(calm, b.st, f.code);
        var ready := With(b.st, MarkTdz(b.st.env, Lexical(f.code.body)));
        BodyLands(calm, m, fuel - 1, f.code.body, ready);
        var r := RunBody(m, fuel - 1, f.code.body, ready);
        KeepsTwice(st.env, inner.env, b.st.env);
        KeepsTwice(st.env, b.st.env, ready.env);
        CallerBack(calm, st, ready, f.code.body, r);
      }
    }
  }

  lemma EnteredTame(calm: bool, f: Value, st: State)
    requires StateTame(calm, st) && f.Closure? && f.env < st.Frames()
    ensures var inner := With(st, PushScope(st.env.(current := f.env), CodeLocals(f.code)));
            StateTame(calm, inner) && Keeps(st.env, inner.env) && inner.env.current == st.Frames()
  {
    hide CodeGuarded;
    CurrentTame(calm, st.env, f.env);
    PushTame(calm, st.env.(current := f.env), CodeLocals(f.code));
  }

  /** Plain parameters are bound without error. */
  lemma {:induction false} PlainBinds(m: Machine, fuel: nat, ps: seq<Param>, args: seq<Value>, st: State)
    requires st.Valid() && PlainParams(ps)
    ensures !BindParams(m, fuel, ps, args, st).out.Error?
    decreases fuel
  {
    if fuel > 0 && ps != [] {
      var a := Argument(m, fuel - 1, ps[0].default, args, st);
      assert a.out.Val?;
      var r := BindPattern(m, fuel - 1, ps[0].pattern, a.out.value, a.st);
      assert !r.out.Error?;
      if r.out == Normal {
        PlainBinds(m, fuel - 1, ps[1..], if args == [] then [] else args[1..], r.st);
      }
    }
  }

  lemma BindingFailed(calm: bool, st: State, inner: State, b: Step)
    requires inner.leaked == st.leaked && Keeps(st.env, inner.env) && Lands(calm, inner, false, false, b)
    requires b.out.OutOfFuel? || (b.out.Error? && !calm)
    ensures Lands(calm, st, calm, calm, b)
  {
    hide StateTame;
    if !b.out.OutOfFuel? {
      KeepsTwice(st.env, inner.env, b.st.env);
    }
  }

  lemma BodyEntered(calm: bool, st: State, code: Code)
    requires StateTame(calm, st) && CodeGuarded(calm, code)
    ensures var ready := With(st, MarkTdz(st.env, Lexical(code.body)));
            StateTame(calm, ready) && ListGuarded(calm, code.body) && Keeps(st.env, ready.env)
  {
    TdzTame(calm, st.env, Lexical(code.body));
  }

  lemma CallerBack(calm: bool, st: State, ready: State, body: seq<Stmt>, r: Step)
    requires StateTame(calm, st) && ready.leaked == st.leaked && Keeps(st.env, ready.env)
    requires Lands(calm, ready, ListQuiet(calm, true, body), ListQuiet(calm, false, body), r)
    requires r.st.Valid() && !r.out.Val? && st.Frames() <= r.st.Frames()
    ensures Lands(calm, st, calm, calm, Step(With(r.st, r.st.env.(current := st.env.current)), Returned(r.out)))
  {
    hide EnvTame, CodeGuarded, AllTame;
    if !r.out.OutOfFuel? {
      KeepsTwice(st.env, ready.env, r.st.env);
      assert st.env.current < st.Frames() by { TameIsValid(calm, st); }
      CurrentTame(calm, r.st.env, st.env.current);
    }
  }

  // ---- Patterns and parameters ----

  lemma {:induction false} PatternLands(calm: bool, m: Machine, fuel: nat, p: Pattern, v: Value, st: State)
    requires StateTame(calm, st) && Tame(calm, v) && PatternGuarded(calm, p)
    ensures Lands(calm, st, PatternQuiet(calm, p), PatternQuiet(calm, p), BindPattern(m, fuel, p, v, st))
    decreases fuel, 1
  {
    if fuel > 0 {
      match p
      case Bind(x) => BindLands(calm, x, v, st);
      case Parts(ps) => PartsLand(calm, m, fuel - 1, ps, v, st);
      case Default(inner, e) =>
        if v == Undefined {
          DefaultLands(calm, m, fuel, inner, e, st);
        } else {
          PatternLands(calm, m, fuel - 1, inner, v, st);
          LandsLess(calm, st, st.env.current, PatternQuiet(calm, inner), PatternQuiet(calm, inner),
                    BindPattern(m, fuel - 1, inner, v, st), PatternQuiet(calm, p), PatternQuiet(calm, p));
        }
    }
  }

  lemma BindLands(calm: bool, x: Name, v: Value, st: State)
    requires StateTame(calm, st) && Tame(calm, v)
    ensures Lands(calm, st, true, true, Step(With(st, Define(st.env, x, v)), Normal))
  {
    hide EnvTame, CodeGuarded;
    TameIsValid(calm, st);
    DefineTame(calm, st.env, x, v);
    LandsWith(calm, st, Define(st.env, x, v), Normal);
  }

  lemma {:induction false} DefaultLands(calm: bool, m: Machine, fuel: nat, inner: Pattern, e: Expr, st: State)
    requires StateTame(calm, st) && PatternGuarded(calm, inner) && ExprGuarded(calm, e) && fuel > 0
    ensures var p := Default(inner, e);
            Lands(calm, st, PatternQuiet(calm, p), PatternQuiet(calm, p), BindPattern(m, fuel, p, Undefined, st))
    decreases fuel, 0
  {
    hide StateTame, Keeps, Under, Tame, LandsIn;
    TameIsValid(calm, st);
    var q := PatternQuiet(calm, Default(inner, e));
    ExprLands(calm, m, fuel - 1, e, st);
    var r := EvalExpr(m, fuel - 1, e, st);
    LandsLess(calm, st, st.env.current, ExprQuiet(calm, e), ExprQuiet(calm, e), r, q, q);
    if r.out.Val? {
      CameHome(calm, st, q, q, r);
      PatternLands(calm, m, fuel - 1, inner, r.out.value, r.st);
      var b := BindPattern(m, fuel - 1, inner, r.out.value, r.st);
      LandsLess(calm, r.st, st.env.current, PatternQuiet(calm, inner), PatternQuiet(calm, inner), b, q, q);
      LandsOn(calm, st, r.st, st.env.current, q, q, b);
    }
  }

  lemma {:induction false} PartsLand(calm: bool, m: Machine, fuel: nat, ps: seq<Pattern>, v: Value, st: State)
    requires StateTame(calm, st) && Tame(calm, v) && PartsGuarded(calm, ps)
    ensures Lands(calm, st, PartsQuiet(calm, ps), PartsQuiet(calm, ps), BindParts(m, fuel, ps, v, st))
    decreases fuel, 1
  {
    if fuel > 0 {
      if ps == [] {
        LandsHere(calm, st, Normal);
      } else {
        PartsStepLands(calm, m, fuel, ps, v, st);
      }
    }
  }

  lemma {:induction false} PartsStepLands(calm: bool, m: Machine, fuel: nat, ps: seq<Pattern>, v: Value, st: State)
    requires StateTame(calm, st) && Tame(calm, v) && PartsGuarded(calm, ps) && fuel > 0 && ps != []
    ensures Lands(calm, st, PartsQuiet(calm, ps), PartsQuiet(calm, ps), BindParts(m, fuel, ps, v, st))
    decreases fuel, 0
  {
    hide StateTame, Keeps, Under, Tame, LandsIn, Primitive, BindPattern, BindParts, PatternGuarded, PatternQuiet;
    TameIsValid(calm, st);
    PartsUnfold(m, fuel, ps, v, st);
    var q := PartsQuiet(calm, ps);
    PrimitiveLands(calm, m, [v], st);
    var part := Primitive(m, [v], st);
    LandsLess(calm, st, st.env.current, true, true, part, q, q);
    if part.out.Val? {
      CameHome(calm, st, q, q, part);
      PatternLands(calm, m, fuel - 1, ps[0], part.out.value, part.st);
      var r := BindPattern(m, fuel - 1, ps[0], part.out.value, part.st);
      LandsLess(calm, part.st, st.env.current, PatternQuiet(calm, ps[0]), PatternQuiet(calm, ps[0]), r, q, q);
      LandsOn(calm, st, part.st, st.env.current, q, q, r);
      if r.out == Normal {
        CameHome(calm, st, q, q, r);
        PartsLand(calm, m, fuel - 1, ps[1..], v, r.st);
        var more := BindParts(m, fuel - 1, ps[1..], v, r.st);
        LandsLess(calm, r.st, st.env.current, PartsQuiet(calm, ps[1..]), PartsQuiet(calm, ps[1..]), more, q, q);
        LandsOn(calm, st, r.st, st.env.current, q, q, more);
      }
    }
  }

  lemma {:induction false} ParamsLand(calm: bool, m: Machine, fuel: nat, ps: seq<Param>, args: seq<Value>, st: State)
    requires StateTame(calm, st) && AllTame(calm, args) && ParamsGuarded(calm, ps)
    ensures Lands(calm, st, false, false, BindParams(m, fuel, ps, args, st))
    decreases fuel, 1
  {
    if fuel > 0 {
      if ps == [] {
        LandsHere(calm, st, Normal);
      } else {
        ParamsStepLands(calm, m, fuel, ps, args, st);
      }
    }
  }

  lemma {:induction false} ParamsStepLands(calm: bool, m: Machine, fuel: nat, ps: seq<Param>, args: seq<Value>,
                                           st: State)
    requires StateTame(calm, st) && AllTame(calm, args) && ParamsGuarded(calm, ps) && fuel > 0 && ps != []
    ensures Lands(calm, st, false, false, BindParams(m, fuel, ps, args, st))
    decreases fuel, 0
  {
    hide StateTame, Keeps, Under, Tame, LandsIn, Argument, BindPattern, BindParams, PatternGuarded, OptionalGuarded,
         PatternQuiet;
    TameIsValid(calm, st);
    ParamsUnfold(m, fuel, ps, args, st);
    ArgumentLands(calm, m, fuel - 1, ps[0].default, args, st);
    var a := Argument(m, fuel - 1, ps[0].default, args, st);
    if a.out.Val? {
      CameHome(calm, st, false, false, a);
      PatternLands(calm, m, fuel - 1, ps[0].pattern, a.out.value, a.st);
      var r := BindPattern(m, fuel - 1, ps[0].pattern, a.out.value, a.st);
      LandsLess(calm, a.st, st.env.current, PatternQuiet(calm, ps[0].pattern), PatternQuiet(calm, ps[0].pattern), r,
                false, false);
      LandsOn(calm, st, a.st, st.env.current, false, false, r);
      if r.out == Normal {
        CameHome(calm, st, false, false, r);
        var rest := if args == [] then [] else args[1..];
        ParamsLand(calm, m, fuel - 1, ps[1..], rest, r.st);
        LandsOn(calm, st, r.st, st.env.current, false, false, BindParams(m, fuel - 1, ps[1..], rest, r.st));
      }
    }
  }

  lemma {:induction false} ArgumentLands(calm: bool, m: Machine, fuel: nat, default: Maybe<Expr>, args: seq<Value>,
                                         st: State)
    requires StateTame(calm, st) && AllTame(calm, args) && OptionalGuarded(calm, default)
    ensures Lands(calm, st, false, false, Argument(m, fuel, default, args, st))
    decreases fuel, 2
  {
    if args != [] {
      LandsHere(calm, st, Val(args[0]));
    } else if default.Some? {
      ExprLands(calm, m, fuel, default.value, st);
      LandsLess(calm, st, st.env.current, ExprQuiet(calm, default.value), ExprQuiet(calm, default.value),
                EvalExpr(m, fuel, default.value, st), false, false);
    } else {
      LandsHere(calm, st, Val(Undefined));
    }
  }

  // ---- Statements ----

  lemma {:induction false} BodyLands(calm: bool, m: Machine, fuel: nat, ss: seq<Stmt>, st: State)
    requires StateTame(calm, st) && ListGuarded(calm, ss)
    ensures Lands(calm, st, ListQuiet(calm, true, ss), ListQuiet(calm, false, ss), RunBody(m, fuel, ss, st))
    decreases fuel, 3
  {
    hide Under, HoistFunctions, ListGuarded, EnvTame, Keeps;
    TameIsValid(calm, st);
    HoistTame(calm, ss, st.env);
    LandsWith(calm, st, HoistFunctions(ss, st.env), Normal);
    var hoisted := With(st, HoistFunctions(ss, st.env));
    ListLands(calm, m, fuel, ss, hoisted);
    LandsOn(calm, st, hoisted, st.env.current, ListQuiet(calm, true, ss), ListQuiet(calm, false, ss),
            RunList(m, fuel, ss, hoisted));
  }

  lemma {:induction false} ListLands(calm: bool, m: Machine, fuel: nat, ss: seq<Stmt>, st: State)
    requires StateTame(calm, st) && ListGuarded(calm, ss)
    ensures Lands(calm, st, ListQuiet(calm, true, ss), ListQuiet(calm, false, ss), RunList(m, fuel, ss, st))
    decreases fuel, 2
  {
    if fuel > 0 {
      if ss == [] {
        LandsHere(calm, st, Normal);
      } else {
        hide StateTame, Keeps, Under, Tame, LandsIn, RunStmt, StmtGuarded, StmtQuiet;
        TameIsValid(calm, st);
        var q, s := ListQuiet(calm, true, ss), ListQuiet(calm, false, ss);
        StmtLands(calm, m, fuel - 1, ss[0], st);
        var r := RunStmt(m, fuel - 1, ss[0], st);
        LandsLess(calm, st, st.env.current, StmtQuiet(calm, true, ss[0]), StmtQuiet(calm, false, ss[0]), r, q, s);
        if r.out == Normal {
          CameHome(calm, st, q, s, r);
          ListLands(calm, m, fuel - 1, ss[1..], r.st);
          var more := RunList(m, fuel - 1, ss[1..], r.st);
          LandsLess(calm, r.st, st.env.current, ListQuiet(calm, true, ss[1..]), ListQuiet(calm, false, ss[1..]), more,
                    q, s);
          LandsOn(calm, st, r.st, st.env.current, q, s, more);
        }
      }
    }
  }

  lemma {:induction false} BlockLands(calm: bool, m: Machine, fuel: nat, ss: seq<Stmt>, locals: set<Name>,
                                      caught: Maybe<Name>, v: Value, st: State)
    requires StateTame(calm, st) && Tame(calm, v) && ListGuarded(calm, ss)
    ensures Lands(calm, st, ListQuiet(calm, true, ss), ListQuiet(calm, false, ss),
                  RunBlock(m, fuel, ss, locals, caught, v, st))
    decreases fuel, 4
  {
    BlockEntered(calm, ss, locals, caught, v, st);
    hide StateTame, Keeps, Under, Tame, LandsIn, RunBody, PushScope, Define, MarkTdz, PopScope, Lexical, ListGuarded,
         ListQuiet;
    var pushed := PushScope(st.env, locals);
    var bound := if caught.Some? then Define(pushed, caught.value, v) else pushed;
    var ready := With(st, MarkTdz(bound, Lexical(ss)));
    BodyLands(calm, m, fuel, ss, ready);
    var r := RunBody(m, fuel, ss, ready);
    BlockLeft(calm, st, ready, st.env.current, ListQuiet(calm, true, ss), ListQuiet(calm, false, ss), r, r.out);
  }

  lemma BlockEntered(calm: bool, ss: seq<Stmt>, locals: set<Name>, caught: Maybe<Name>, v: Value, st: State)
    requires StateTame(calm, st) && Tame(calm, v)
    ensures st.Valid()
    ensures var pushed := PushScope(st.env, locals);
            var bound := if caught.Some? then Define(pushed, caught.value, v) else pushed;
            var ready := With(st, MarkTdz(bound, Lexical(ss)));
            && StateTame(calm, ready) && Keeps(st.env, ready.env) && ready.env.current == st.Frames()
            && ready.env.frames[ready.env.current].parent == S.Some(st.env.current)
  {
    hide EnvTame, CodeGuarded;
    TameIsValid(calm, st);
    PushTame(calm, st.env, locals);
    var pushed := PushScope(st.env, locals);
    if caught.Some? {
      DefineTame(calm, pushed, caught.value, v);
    }
    var bound := if caught.Some? then Define(pushed, caught.value, v) else pushed;
    TdzTame(calm, bound, Lexical(ss));
    KeepsTwice(st.env, pushed, bound);
    KeepsTwice(st.env, bound, MarkTdz(bound, Lexical(ss)));
  }

  /** Leaving a frame around `home`'s inner code: the frame is popped, whatever the outcome. */
  lemma BlockLeft(calm: bool, st: State, inner: State, home: nat, q: bool, s: bool, r: Step, out: Out)
    requires inner.Valid() && r.st.Valid() && inner.leaked == st.leaked && Keeps(st.env, inner.env)
    requires inner.env.frames[inner.env.current].parent == S.Some(home)
    requires LandsIn(calm, inner, inner.env.current, q, s, r)
    requires out == r.out || (out == Normal && !r.out.Error? && !r.out.OutOfFuel?)
    ensures LandsIn(calm, st, home, q, s, Step(With(r.st, PopScope(r.st.env)), out))
  {
    hide AllTame, CodeGuarded;
    if !r.out.OutOfFuel? {
      var f, e := inner.env.current, r.st.env;
      KeepsTwice(st.env, inner.env, e);
      assert home < f < |e.frames| && e.frames[f].parent == S.Some(home);
      if e.frames[e.current].parent.Some? {
        CurrentTame(calm, e, e.frames[e.current].parent.value);
      }
      if q {
        PoppedUnder(e, f, home);
      }
    }
  }

  /** Popping one frame from inside `f` stays inside the frame around `f`. */
  lemma PoppedUnder(e: Env, f: nat, home: nat)
    requires e.Valid() && Under(e.frames, e.current, f) && f < |e.frames| && e.frames[f].parent == S.Some(home)
    ensures Under(e.frames, PopScope(e).current, home)
  {
    assert home < f;
    assert Under(e.frames, home, home);
    if e.current != f {
      UnderOuter(e.frames, e.frames[e.current].parent.value, f, home);
    }
  }

  lemma {:induction false} StmtLands(calm: bool, m: Machine, fuel: nat, s: Stmt, st: State)
    requires StateTame(calm, st) && StmtGuarded(calm, s)
    ensures Lands(calm, st, StmtQuiet(calm, true, s), StmtQuiet(calm, false, s), RunStmt(m, fuel, s, st))
    decreases fuel, 1
  {
    hide StateTame, LandsIn, EvalExpr, RunBlock, RunWhile, RunTry, RunFor, RunEach, BindPattern, PushScope,
         ListGuarded, ListQuiet, CodeGuarded, Tame;
    TameIsValid(calm, st);
    OutLands(calm, st);
    if fuel > 0 {
      match s
      case Empty =>
      case Break =>
      case Continue =>
      case VarDecl(p, e) => VarDeclLands(calm, m, fuel, p, e, st);
      case Eval(e) => ValueLands(calm, m, fuel, e, st);
      case Return(e) => ValueLands(calm, m, fuel, e, st);
      case Throw(e) => ValueLands(calm, m, fuel, e, st);
      case Block(body) =>
        UndefinedTame(calm);
        BlockLands(calm, m, fuel - 1, body, Locals(body), S.None, Undefined, st);
      case If(c, a, b) => IfLands(calm, m, fuel, c, a, b, st);
      case While(c, loop) => WhileLands(calm, m, fuel - 1, c, loop, st);
      case For(_, _, _, _) =>
        ForLands(calm, m, fuel, s, st);
        LeavesLands(calm, st, StmtQuiet(calm, true, s), StmtQuiet(calm, true, s), RunStmt(m, fuel, s, st));
      case ForEach(_, _, _) => ForEachLands(calm, m, fuel, s, st);
      case FunctionDecl(x, code) =>
        ClosureTame(calm, code, st.env.current);
        BindLands(calm, x, Closure(code, st.env.current), st);
      case Try(_, _, _) => TryLands(calm, m, fuel - 1, s, st);
    }
  }

  lemma OutLands(calm: bool, st: State)
    requires StateTame(calm, st)
    ensures forall q, s :: Lands(calm, st, q, s, Step(st, OutOfFuel))
    ensures Lands(calm, st, true, true, Step(st, Normal)) && Lands(calm, st, true, true, Step(st, BreakOut))
    ensures Lands(calm, st, true, true, Step(st, ContinueOut))
  {
  }

  lemma UndefinedTame(calm: bool)
    ensures Tame(calm, Undefined)
  {
  }

  lemma ClosureTame(calm: bool, code: Code, f: nat)
    requires CodeGuarded(calm, code)
    ensures Tame(calm, Closure(code, f))
  {
  }

  /** Statements that evaluate an expression and pass its value on. */
  lemma {:induction false} ValueLands(calm: bool, m: Machine, fuel: nat, e: Expr, st: State)
    requires StateTame(calm, st) && ExprGuarded(calm, e) && fuel > 0
    ensures Lands(calm, st, ExprQuiet(calm, e), ExprQuiet(calm, e), RunStmt(m, fuel, Eval(e), st))
    ensures Lands(calm, st, ExprQuiet(calm, e), ExprQuiet(calm, e), RunStmt(m, fuel, Return(e), st))
    ensures Lands(calm, st, ExprQuiet(calm, e), ExprQuiet(calm, e), RunStmt(m, fuel, Throw(e), st))
    decreases fuel, 0
  {
    hide StateTame, Keeps, Under, Tame, EvalExpr;
    TameIsValid(calm, st);
    ExprLands(calm, m, fuel - 1, e, st);
  }

  lemma {:induction false} VarDeclLands(calm: bool, m: Machine, fuel: nat, p: Pattern, e: Expr, st: State)
    requires StateTame(calm, st) && PatternGuarded(calm, p) && ExprGuarded(calm, e) && fuel > 0
    ensures var q := PatternQuiet(calm, p) && ExprQuiet(calm, e);
            Lands(calm, st, q, q, RunStmt(m, fuel, VarDecl(p, e), st))
    decreases fuel, 0
  {
    hide StateTame, Keeps, Under, Tame, LandsIn, EvalExpr, BindPattern;
    TameIsValid(calm, st);
    var q := PatternQuiet(calm, p) && ExprQuiet(calm, e);
    ExprLands(calm, m, fuel - 1, e, st);
    var r := EvalExpr(m, fuel - 1, e, st);
    LandsLess(calm, st, st.env.current, ExprQuiet(calm, e), ExprQuiet(calm, e), r, q, q);
    if r.out.Val? {
      CameHome(calm, st, q, q, r);
      PatternLands(calm, m, fuel - 1, p, r.out.value, r.st);
      var b := BindPattern(m, fuel - 1, p, r.out.value, r.st);
      LandsLess(calm, r.st, st.env.current, PatternQuiet(calm, p), PatternQuiet(calm, p), b, q, q);
      LandsOn(calm, st, r.st, st.env.current, q, q, b);
    }
  }

  lemma {:induction false} IfLands(calm: bool, m: Machine, fuel: nat, c: Expr, a: Stmt, b: Stmt, st: State)
    requires StateTame(calm, st) && StmtGuarded(calm, If(c, a, b)) && fuel > 0
    ensures Lands(calm, st, StmtQuiet(calm, true, If(c, a, b)), StmtQuiet(calm, false, If(c, a, b)),
                  RunStmt(m, fuel, If(c, a, b), st))
    decreases fuel, 0
  {
    hide StateTame, Keeps, Under, Tame, LandsIn, EvalExpr, Truthy, RunStmt;
    TameIsValid(calm, st);
    IfUnfold(m, fuel, c, a, b, st);
    var q, s := StmtQuiet(calm, true, If(c, a, b)), StmtQuiet(calm, false, If(c, a, b));
    ExprLands(calm, m, fuel - 1, c, st);
    var r := EvalExpr(m, fuel - 1, c, st);
    LandsLess(calm, st, st.env.current, ExprQuiet(calm, c), ExprQuiet(calm, c), r, q, s);
    if r.out.Val? {
      CameHome(calm, st, q, s, r);
      var next := if Truthy(r.out.value) then a else b;
      StmtLands(calm, m, fuel - 1, next, r.st);
      var r2 := RunStmt(m, fuel - 1, next, r.st);
      LandsLess(calm, r.st, st.env.current, StmtQuiet(calm, true, next), StmtQuiet(calm, false, next), r2, q, s);
      LandsOn(calm, st, r.st, st.env.current, q, s, r2);
    }
  }

  lemma IfUnfold(m: Machine, fuel: nat, c: Expr, a: Stmt, b: Stmt, st: State)
    requires st.Valid() && fuel > 0
    ensures var r := EvalExpr(m, fuel - 1, c, st);
            RunStmt(m, fuel, If(c, a, b), st)
            == if !r.out.Val? then r else RunStmt(m, fuel - 1, if Truthy(r.out.value) then a else b, r.st)
  {
    hide EvalExpr, Truthy;
  }

  lemma {:induction false} WhileLands(calm: bool, m: Machine, fuel: nat, c: Expr, loop: Stmt, st: State)
    requires StateTame(calm, st) && StmtGuarded(calm, While(c, loop))
    ensures Lands(calm, st, StmtQuiet(calm, true, While(c, loop)), StmtQuiet(calm, false, While(c, loop)),
                  RunWhile(m, fuel, c, loop, st))
    decreases fuel, 3
  {
    if fuel > 0 {
      WhileStepLands(calm, m, fuel, c, loop, st);
    }
  }

  lemma {:induction false} WhileStepLands(calm: bool, m: Machine, fuel: nat, c: Expr, loop: Stmt, st: State)
    requires StateTame(calm, st) && StmtGuarded(calm, While(c, loop)) && fuel > 0
    ensures Lands(calm, st, StmtQuiet(calm, true, While(c, loop)), StmtQuiet(calm, false, While(c, loop)),
                  RunWhile(m, fuel, c, loop, st))
    decreases fuel, 2
  {
    hide StateTame, Keeps, Under, Tame, LandsIn, EvalExpr, RunStmt, RunWhile, AfterWhile, Truthy;
    TameIsValid(calm, st);
    WhileUnfold(m, fuel, c, loop, st);
    var q, s := StmtQuiet(calm, true, While(c, loop)), StmtQuiet(calm, false, While(c, loop));
    ExprLands(calm, m, fuel - 1, c, st);
    var r := EvalExpr(m, fuel - 1, c, st);
    LandsLess(calm, st, st.env.current, ExprQuiet(calm, c), ExprQuiet(calm, c), r, q, s);
    if r.out.Val? {
      CameHome(calm, st, q, s, r);
      if !Truthy(r.out.value) {
        OutLands(calm, r.st);
        LandsLess(calm, r.st, st.env.current, true, true, Step(r.st, Normal), q, s);
        LandsOn(calm, st, r.st, st.env.current, q, s, Step(r.st, Normal));
      } else {
        StmtLands(calm, m, fuel - 1, loop, r.st);
        var b := RunStmt(m, fuel - 1, loop, r.st);
        LandsLess(calm, r.st, st.env.current, StmtQuiet(calm, true, loop), StmtQuiet(calm, false, loop), b, q, s);
        AfterWhileLands(calm, m, fuel - 1, c, loop, r.st, b);
        LandsOn(calm, st, r.st, st.env.current, q, s, AfterWhile(m, fuel - 1, c, loop, b));
      }
    }
  }

  lemma {:induction false} AfterWhileLands(calm: bool, m: Machine, fuel: nat, c: Expr, loop: Stmt, st: State, b: Step)
    requires StmtGuarded(calm, While(c, loop)) && b.st.Valid() && !b.out.Val?
    requires Lands(calm, st, StmtQuiet(calm, true, While(c, loop)), StmtQuiet(calm, false, While(c, loop)), b)
    ensures Lands(calm, st, StmtQuiet(calm, true, While(c, loop)), StmtQuiet(calm, false, While(c, loop)),
                  AfterWhile(m, fuel, c, loop, b))
    decreases fuel, 4
  {
    hide StateTame, Keeps, Under, Tame, RunWhile, StmtGuarded, StmtQuiet;
    var q, s := StmtQuiet(calm, true, While(c, loop)), StmtQuiet(calm, false, While(c, loop));
    if b.out.Normal? || b.out.ContinueOut? {
      CameHome(calm, st, q, s, b);
      WhileLands(calm, m, fuel, c, loop, b.st);
      LandsOn(calm, st, b.st, st.env.current, q, s, RunWhile(m, fuel, c, loop, b.st));
    }
  }

  // ---- Loops with a frame of their own ----

  /** A state inside a loop that was entered from frame `home`. */
  ghost predicate Looping(calm: bool, home: nat, st: State) {
    StateTame(calm, st) && st.env.frames[st.env.current].parent == S.Some(home)
  }

  /** The loop ends in `home`; if it is `deep`, an error leaves it in a later frame. */
  ghost predicate Leaves(calm: bool, st: State, home: nat, quiet: bool, deep: bool, r: Step) {
    LandsIn(calm, st, home, quiet, false, r) && (deep && r.out.Error? ==> home < r.st.env.current)
  }

  lemma LoopingOn(calm: bool, home: nat, st: State, q: bool, s: bool, r: Step)
    requires Looping(calm, home, st) && Lands(calm, st, q, s, r) && !r.out.Error? && !r.out.OutOfFuel?
    ensures Looping(calm, home, r.st) && r.st.leaked == st.leaked && Keeps(st.env, r.st.env)
    ensures Carries(r.out) ==> Tame(calm, r.out.value)
  {
    hide CodeGuarded, AllTame;
  }

  lemma LeavesOn(calm: bool, st: State, mid: State, home: nat, q: bool, d: bool, b: Step)
    requires mid.leaked == st.leaked && Keeps(st.env, mid.env) && Leaves(calm, mid, home, q, d, b)
    ensures Leaves(calm, st, home, q, d, b)
  {
    LandsOn(calm, st, mid, home, q, false, b);
  }

  /** An error inside the loop ends it where the error arose. */
  lemma FailedInside(calm: bool, st: State, home: nat, q: bool, s: bool, r: Step)
    requires Looping(calm, home, st) && Lands(calm, st, q, s, r) && (r.out.Error? || r.out.OutOfFuel?)
    ensures Leaves(calm, st, home, q, q, r)
  {
    hide AllTame, CodeGuarded;
    if q && !r.out.OutOfFuel? {
      var f, e := st.env.current, r.st.env;
      assert home < f && e.frames[f].parent == S.Some(home);
      UnderOuter(e.frames, e.current, f, home);
      UnderIsLater(e.frames, e.current, f);
    }
  }

  /** Any other end of a round pops the loop's frame. */
  lemma LeftLoop(calm: bool, st: State, home: nat, q: bool, s: bool, r: Step, out: Out)
    requires Looping(calm, home, st) && Lands(calm, st, q, s, r) && !r.out.Error? && !r.out.OutOfFuel?
    requires r.st.Valid() && (out == r.out || out == Normal)
    ensures Leaves(calm, st, home, q, q, Leave(r.st, out))
  {
    hide StateTame, Under, Tame, LandsIn, PopScope;
    TameIsValid(calm, st);
    BlockLeft(calm, st, st, home, q, s, r, out);
    LandsLess(calm, st, home, q, s, Leave(r.st, out), q, false);
  }

  lemma LoopFinishes(calm: bool, st: State, home: nat, q: bool, s: bool, b: Step)
    requires Looping(calm, home, st) && Lands(calm, st, q, s, b) && Ends(b.out) && !b.out.Val? && b.st.Valid()
    ensures Leaves(calm, st, home, q, q, Finish(b))
  {
    hide StateTame, Keeps, Under, Tame, LandsIn, Leave, Leaves, Looping;
    if b.out.Error? || b.out.OutOfFuel? {
      FailedInside(calm, st, home, q, s, b);
    } else {
      LeftLoop(calm, st, home, q, s, b, if b.out.BreakOut? then Normal else b.out);
    }
  }

  lemma LoopBegins(calm: bool, locals: set<Name>, st: State)
    requires StateTame(calm, st)
    ensures var inner := With(st, PushScope(st.env, locals));
            Looping(calm, st.env.current, inner) && Keeps(st.env, inner.env)
  {
    hide CodeGuarded;
    PushTame(calm, st.env, locals);
  }

  lemma LoopForks(calm: bool, home: nat, st: State)
    requires Looping(calm, home, st)
    ensures var forked := With(st, ForkCurrent(st.env));
            Looping(calm, home, forked) && Keeps(st.env, forked.env)
  {
    hide CodeGuarded;
    ForkTame(calm, st.env);
  }

  /** What follows in the frame of the loop, or a copy of it. */
  predicate ForQuiet(calm: bool, c: Maybe<Expr>, u: Maybe<Expr>, loop: Stmt) {
    OptionalQuiet(calm, c) && OptionalQuiet(calm, u) && StmtQuiet(calm, true, loop)
  }

  lemma {:induction false} OptionalLands(calm: bool, m: Machine, fuel: nat, e: Maybe<Expr>, st: State)
    requires StateTame(calm, st) && OptionalGuarded(calm, e)
    ensures Lands(calm, st, OptionalQuiet(calm, e), OptionalQuiet(calm, e), EvalOptional(m, fuel, e, st))
    decreases fuel, 2
  {
    if e.Some? {
      ExprLands(calm, m, fuel, e.value, st);
    } else {
      LandsHere(calm, st, Val(Plain(1)));
    }
  }

  lemma {:induction false} ForLands(calm: bool, m: Machine, fuel: nat, s: Stmt, st: State)
    requires StateTame(calm, st) && StmtGuarded(calm, s) && s.For? && fuel > 0
    ensures Leaves(calm, st, st.env.current, StmtQuiet(calm, true, s), StmtQuiet(calm, true, s),
                   RunStmt(m, fuel, s, st))
    decreases fuel, 0
  {
    hide StateTame, Keeps, Under, Tame, LandsIn, PushScope, RunFor, RunStmt, Leaves, Looping;
    TameIsValid(calm, st);
    ForStmtUnfold(m, fuel, s, st);
    LoopBegins(calm, StmtLocals(s.start) + StmtLocals(s.loop), st);
    var inner := With(st, PushScope(st.env, StmtLocals(s.start) + StmtLocals(s.loop)));
    var home, q := st.env.current, StmtQuiet(calm, true, s);
    StmtLands(calm, m, fuel - 1, s.start, inner) by { LoopingTame(calm, home, inner); }
    var r := RunStmt(m, fuel - 1, s.start, inner);
    LandsLess(calm, inner, inner.env.current, StmtQuiet(calm, true, s.start), StmtQuiet(calm, false, s.start), r, q,
              false);
    if r.out.Error? || r.out.OutOfFuel? {
      FailedInside(calm, inner, home, q, false, r);
      LeavesOn(calm, st, inner, home, q, q, r);
    } else {
      LoopingOn(calm, home, inner, q, false, r);
      ForLoopLands(calm, m, fuel - 1, s.test, s.update, s.loop, r.st, home);
      var f := RunFor(m, fuel - 1, s.test, s.update, s.loop, r.st);
      LeavesLess(calm, r.st, home, ForQuiet(calm, s.test, s.update, s.loop), f, q);
      LeavesOn(calm, inner, r.st, home, q, q, f);
      LeavesOn(calm, st, inner, home, q, q, f);
    }
  }

  lemma LoopingTame(calm: bool, home: nat, st: State)
    requires Looping(calm, home, st)
    ensures StateTame(calm, st)
  {
  }

  lemma LeavesLess(calm: bool, st: State, home: nat, quiet: bool, r: Step, q: bool)
    requires Leaves(calm, st, home, quiet, quiet, r) && (q ==> quiet)
    ensures Leaves(calm, st, home, q, q, r)
  {
    hide StateTame;
  }

  lemma {:induction false} ForLoopLands(calm: bool, m: Machine, fuel: nat, c: Maybe<Expr>, u: Maybe<Expr>, loop: Stmt,
                                        st: State, home: nat)
    requires Looping(calm, home, st) && OptionalGuarded(calm, c) && OptionalGuarded(calm, u) && StmtGuarded(calm, loop)
    ensures Leaves(calm, st, home, ForQuiet(calm, c, u, loop), ForQuiet(calm, c, u, loop),
                   RunFor(m, fuel, c, u, loop, st))
    decreases fuel, 4
  {
    if fuel > 0 {
      ForStepLands(calm, m, fuel, c, u, loop, st, home);
    }
  }

  lemma {:induction false} ForStepLands(calm: bool, m: Machine, fuel: nat, c: Maybe<Expr>, u: Maybe<Expr>, loop: Stmt,
                                        st: State, home: nat)
    requires Looping(calm, home, st) && OptionalGuarded(calm, c) && OptionalGuarded(calm, u) && StmtGuarded(calm, loop)
    requires fuel > 0
    ensures Leaves(calm, st, home, ForQuiet(calm, c, u, loop), ForQuiet(calm, c, u, loop),
                   RunFor(m, fuel, c, u, loop, st))
    decreases fuel, 3
  {
    hide StateTame, Keeps, Under, Tame, LandsIn, EvalOptional, RunStmt, RunFor, AfterFor, Leave, Truthy, Leaves,
         Looping, OptionalGuarded, OptionalQuiet, StmtGuarded, StmtQuiet, Lands;
    LoopingTame(calm, home, st);
    TameIsValid(calm, st);
    ForUnfold(m, fuel, c, u, loop, st);
    var q := ForQuiet(calm, c, u, loop);
    OptionalLands(calm, m, fuel - 1, c, st);
    var r := EvalOptional(m, fuel - 1, c, st);
    LandsAtMost(calm, st, OptionalQuiet(calm, c), OptionalQuiet(calm, c), r, q, q);
    if !r.out.Val? {
      FailedInside(calm, st, home, q, q, r);
    } else if !Truthy(r.out.value) {
      LeftLoop(calm, st, home, q, q, r, Normal);
    } else {
      LoopingOn(calm, home, st, q, q, r);
      StmtLands(calm, m, fuel - 1, loop, r.st) by { LoopingTame(calm, home, r.st); }
      var b := RunStmt(m, fuel - 1, loop, r.st);
      LandsAtMost(calm, r.st, StmtQuiet(calm, true, loop), StmtQuiet(calm, false, loop), b, q, false);
      AfterForLands(calm, m, fuel - 1, c, u, loop, r.st, home, b);
      LeavesOn(calm, st, r.st, home, q, q, AfterFor(m, fuel - 1, c, u, loop, b));
    }
  }

  lemma {:induction false} AfterForLands(calm: bool, m: Machine, fuel: nat, c: Maybe<Expr>, u: Maybe<Expr>, loop: Stmt,
                                         st: State, home: nat, b: Step)
    requires Looping(calm, home, st) && OptionalGuarded(calm, c) && OptionalGuarded(calm, u) && StmtGuarded(calm, loop)
    requires b.st.Valid() && !b.out.Val? && Lands(calm, st, ForQuiet(calm, c, u, loop), false, b)
    ensures Leaves(calm, st, home, ForQuiet(calm, c, u, loop), ForQuiet(calm, c, u, loop),
                   AfterFor(m, fuel, c, u, loop, b))
    decreases fuel, 5
  {
    hide StateTame, Keeps, Under, Tame, LandsIn, EvalOptional, RunFor, Finish, Leaves, Looping, ForkCurrent,
         OptionalGuarded, OptionalQuiet, StmtGuarded, StmtQuiet, Lands;
    var q := ForQuiet(calm, c, u, loop);
    if Ends(b.out) {
      LoopFinishes(calm, st, home, q, false, b);
    } else {
      LoopingOn(calm, home, st, q, false, b);
      LoopForks(calm, home, b.st);
      var forked := With(b.st, ForkCurrent(b.st.env));
      OptionalLands(calm, m, fuel, u, forked) by { LoopingTame(calm, home, forked); }
      var next := EvalOptional(m, fuel, u, forked);
      LandsAtMost(calm, forked, OptionalQuiet(calm, u), OptionalQuiet(calm, u), next, q, q);
      if !next.out.Val? {
        FailedInside(calm, forked, home, q, q, next);
        LeavesOn(calm, b.st, forked, home, q, q, next);
        LeavesOn(calm, st, b.st, home, q, q, next);
      } else {
        LoopingOn(calm, home, forked, q, q, next);
        ForLoopLands(calm, m, fuel, c, u, loop, next.st, home);
        var f := RunFor(m, fuel, c, u, loop, next.st);
        LeavesOn(calm, forked, next.st, home, q, q, f);
        LeavesOn(calm, b.st, forked, home, q, q, f);
        LeavesOn(calm, st, b.st, home, q, q, f);
      }
    }
  }

  // ---- Loops over items ----

  predicate EachQuiet(calm: bool, p: Pattern, loop: Stmt) {
    PatternQuiet(calm, p) && StmtQuiet(calm, true, loop)
  }

  /** A plain name is bound without error. */
  predicate EachDeep(calm: bool, p: Pattern, loop: Stmt) {
    EachQuiet(calm, p, loop) && p.Bind?
  }

  lemma {:induction false} ForEachLands(calm: bool, m: Machine, fuel: nat, s: Stmt, st: State)
    requires StateTame(calm, st) && StmtGuarded(calm, s) && s.ForEach? && fuel > 0
    ensures Lands(calm, st, StmtQuiet(calm, true, s), false, RunStmt(m, fuel, s, st))
    ensures var r := EvalExpr(m, fuel - 1, s.iterable, st);
            r.out.Val? ==> Leaves(calm, st, st.env.current, StmtQuiet(calm, true, s),
                                  StmtQuiet(calm, true, s) && s.pattern.Bind?, RunStmt(m, fuel, s, st))
    decreases fuel, 0
  {
    hide StateTame, Keeps, Under, Tame, LandsIn, PushScope, RunEach, RunStmt, EvalExpr, Leaves, Looping;
    TameIsValid(calm, st);
    EachStmtUnfold(m, fuel, s, st);
    var home, q := st.env.current, StmtQuiet(calm, true, s);
    ExprLands(calm, m, fuel - 1, s.iterable, st);
    var r := EvalExpr(m, fuel - 1, s.iterable, st);
    LandsLess(calm, st, home, ExprQuiet(calm, s.iterable), ExprQuiet(calm, s.iterable), r, q, false);
    if r.out.Val? {
      CameHome(calm, st, q, false, r);
      var locals := PatternNames(s.pattern) + StmtLocals(s.loop);
      LoopBegins(calm, locals, r.st);
      var inner := With(r.st, PushScope(r.st.env, locals));
      EachLoopLands(calm, m, fuel - 1, s.pattern, r.out.value, s.loop, inner, home);
      var f := RunEach(m, fuel - 1, s.pattern, r.out.value, s.loop, inner);
      var d := q && s.pattern.Bind?;
      EachLess(calm, inner, home, EachQuiet(calm, s.pattern, s.loop), EachDeep(calm, s.pattern, s.loop), f, q, d);
      LeavesOn(calm, r.st, inner, home, q, d, f);
      LeavesOn(calm, st, r.st, home, q, d, f);
      LeavesLands(calm, st, q, d, f);
    }
  }

  lemma LeavesLands(calm: bool, st: State, q: bool, d: bool, r: Step)
    requires Leaves(calm, st, st.env.current, q, d, r)
    ensures Lands(calm, st, q, false, r)
  {
    hide LandsIn;
  }

  lemma EachLess(calm: bool, st: State, home: nat, quiet: bool, deep: bool, r: Step, q: bool, d: bool)
    requires Leaves(calm, st, home, quiet, deep, r) && (q ==> quiet) && (d ==> deep)
    ensures Leaves(calm, st, home, q, d, r)
  {
    hide StateTame;
  }

  lemma {:induction false} EachLoopLands(calm: bool, m: Machine, fuel: nat, p: Pattern, items: Value, loop: Stmt,
                                         st: State, home: nat)
    requires Looping(calm, home, st) && Tame(calm, items) && PatternGuarded(calm, p) && StmtGuarded(calm, loop)
    ensures Leaves(calm, st, home, EachQuiet(calm, p, loop), EachDeep(calm, p, loop),
                   RunEach(m, fuel, p, items, loop, st))
    decreases fuel, 4
  {
    if fuel > 0 {
      EachStepLands(calm, m, fuel, p, items, loop, st, home);
    }
  }

  lemma {:induction false} EachStepLands(calm: bool, m: Machine, fuel: nat, p: Pattern, items: Value, loop: Stmt,
                                         st: State, home: nat)
    requires Looping(calm, home, st) && Tame(calm, items) && PatternGuarded(calm, p) && StmtGuarded(calm, loop)
    requires fuel > 0
    ensures Leaves(calm, st, home, EachQuiet(calm, p, loop), EachDeep(calm, p, loop),
                   RunEach(m, fuel, p, items, loop, st))
    decreases fuel, 3
  {
    hide StateTame, Keeps, Under, Tame, LandsIn, Primitive, BindPattern, RunEach, EachBody, Leave, Leaves, Looping,
         ForkCurrent, PatternGuarded, StmtGuarded, EachQuiet;
    LoopingTame(calm, home, st);
    TameIsValid(calm, st);
    EachUnfold(m, fuel, p, items, loop, st);
    var q, d := EachQuiet(calm, p, loop), EachDeep(calm, p, loop);
    PrimitiveLands(calm, m, [items], st);
    var item := Primitive(m, [items], st);
    if !item.out.Val? {
      LandsHere(calm, st, Normal);
      ItemsEnded(calm, st, home, item);
      EachLess(calm, st, home, true, true, Leave(item.st, Normal), q, d);
    } else {
      LoopingOn(calm, home, st, true, true, item);
      LoopForks(calm, home, item.st);
      var forked := With(item.st, ForkCurrent(item.st.env));
      PatternLands(calm, m, fuel - 1, p, item.out.value, forked) by { LoopingTame(calm, home, forked); }
      var bound := BindPattern(m, fuel - 1, p, item.out.value, forked);
      EachBodyLands(calm, m, fuel - 1, p, items, loop, forked, home, bound) by {
        BoundPlainly(m, fuel - 1, p, item.out.value, forked);
      }
      var f := EachBody(m, fuel - 1, p, items, loop, bound);
      LeavesOn(calm, item.st, forked, home, q, d, f);
      LeavesOn(calm, st, item.st, home, q, d, f);
    }
  }

  lemma BoundPlainly(m: Machine, fuel: nat, p: Pattern, v: Value, st: State)
    requires st.Valid()
    ensures p.Bind? ==> !BindPattern(m, fuel, p, v, st).out.Error?
  {
  }

  /** Running out of items is no error. */
  lemma ItemsEnded(calm: bool, st: State, home: nat, item: Step)
    requires Looping(calm, home, st) && Lands(calm, st, true, true, item) && item.out.Error? && item.st.Valid()
    ensures Leaves(calm, st, home, true, true, Leave(item.st, Normal))
  {
    hide StateTame, Under, Tame, Keeps;
    LandsNormal(calm, st, item);
    LeftLoop(calm, st, home, true, true, Step(item.st, Normal), Normal);
  }

  lemma LandsNormal(calm: bool, st: State, r: Step)
    requires Lands(calm, st, true, true, r) && r.out.Error?
    ensures Lands(calm, st, true, true, Step(r.st, Normal))
  {
    hide StateTame;
  }

  lemma {:induction false} EachBodyLands(calm: bool, m: Machine, fuel: nat, p: Pattern, items: Value, loop: Stmt,
                                         st: State, home: nat, bound: Step)
    requires Looping(calm, home, st) && Tame(calm, items) && PatternGuarded(calm, p) && StmtGuarded(calm, loop)
    requires bound.st.Valid() && !bound.out.Val? && (p.Bind? ==> !bound.out.Error?)
    requires Lands(calm, st, PatternQuiet(calm, p), PatternQuiet(calm, p), bound)
    ensures Leaves(calm, st, home, EachQuiet(calm, p, loop), EachDeep(calm, p, loop),
                   EachBody(m, fuel, p, items, loop, bound))
    decreases fuel, 6
  {
    hide StateTame, Keeps, Under, Tame, LandsIn, RunStmt, AfterEach, Leave, Leaves, Looping, PatternGuarded,
         StmtGuarded, PatternQuiet, StmtQuiet;
    var q, d := EachQuiet(calm, p, loop), EachDeep(calm, p, loop);
    LandsLess(calm, st, st.env.current, PatternQuiet(calm, p), PatternQuiet(calm, p), bound, q, q);
    if bound.out.Error? {
      BindingLeft(calm, st, home, q, bound);
    } else if bound.out.OutOfFuel? {
      FailedInside(calm, st, home, q, q, bound);
      EachLess(calm, st, home, q, q, bound, q, d);
    } else {
      LoopingOn(calm, home, st, q, q, bound);
      StmtLands(calm, m, fuel, loop, bound.st) by { LoopingTame(calm, home, bound.st); }
      var b := RunStmt(m, fuel, loop, bound.st);
      LandsLess(calm, bound.st, bound.st.env.current, StmtQuiet(calm, true, loop), StmtQuiet(calm, false, loop), b, q,
                false);
      AfterEachLands(calm, m, fuel, p, items, loop, bound.st, home, b);
      LeavesOn(calm, st, bound.st, home, q, d, AfterEach(m, fuel, p, items, loop, b));
    }
  }

  /** When an item cannot be bound, the loop's frame is popped. */
  lemma BindingLeft(calm: bool, st: State, home: nat, q: bool, r: Step)
    requires Looping(calm, home, st) && Lands(calm, st, q, q, r) && r.out.Error? && r.st.Valid()
    ensures Leaves(calm, st, home, q, false, Leave(r.st, r.out))
    ensures q ==> Leave(r.st, r.out).st.env.current == home
  {
    hide StateTame, Under, Tame;
    LoopingTame(calm, home, st);
    TameIsValid(calm, st);
    BlockLeft(calm, st, st, home, q, q, r, r.out);
    LandsLess(calm, st, home, q, q, Leave(r.st, r.out), q, false);
  }

  lemma {:induction false} AfterEachLands(calm: bool, m: Machine, fuel: nat, p: Pattern, items: Value, loop: Stmt,
                                          st: State, home: nat, b: Step)
    requires Looping(calm, home, st) && Tame(calm, items) && PatternGuarded(calm, p) && StmtGuarded(calm, loop)
    requires b.st.Valid() && !b.out.Val? && Lands(calm, st, EachQuiet(calm, p, loop), false, b)
    ensures Leaves(calm, st, home, EachQuiet(calm, p, loop), EachDeep(calm, p, loop),
                   AfterEach(m, fuel, p, items, loop, b))
    decreases fuel, 5
  {
    hide StateTame, Keeps, Under, Tame, LandsIn, RunEach, Finish, Leaves, Looping, PatternGuarded, StmtGuarded,
         EachQuiet, Lands;
    var q, d := EachQuiet(calm, p, loop), EachDeep(calm, p, loop);
    if Ends(b.out) {
      LoopFinishes(calm, st, home, q, false, b);
      EachLess(calm, st, home, q, q, Finish(b), q, d);
    } else {
      LoopingOn(calm, home, st, q, false, b);
      EachLoopLands(calm, m, fuel, p, items, loop, b.st, home);
      LeavesOn(calm, st, b.st, home, q, d, RunEach(m, fuel, p, items, loop, b.st));
    }
  }

  // ---- Try ----

  /** When the next block of a guarded `try` begins, the `try`'s frame is current. */
  lemma {:induction false} TryLands(calm: bool, m: Machine, fuel: nat, s: Stmt, st: State)
    requires StateTame(calm, st) && StmtGuarded(calm, s) && s.Try?
    ensures Lands(calm, st, StmtQuiet(calm, true, s), StmtQuiet(calm, false, s),
                  RunTry(m, fuel, s.tried, s.handler, s.finalizer, st))
    decreases fuel, 7
  {
    hide StateTame, Keeps, Under, LandsIn, RunBlock, Caught, Finalized, ListGuarded, ListQuiet, HandlerLocals,
         FinalizerLocals, Locals, CodeGuarded;
    TameIsValid(calm, st);
    BlockLands(calm, m, fuel, s.tried, Locals(s.tried), S.None, Undefined, st);
    var t := RunBlock(m, fuel, s.tried, Locals(s.tried), S.None, Undefined, st);
    var q, steady := StmtQuiet(calm, true, s), StmtQuiet(calm, false, s);
    if t.out.OutOfFuel? {
      LandsLess(calm, st, st.env.current, ListQuiet(calm, true, s.tried), ListQuiet(calm, false, s.tried), t, q,
                steady);
    } else {
      CaughtLands(calm, m, fuel, s, st, t);
      var c := Caught(m, fuel, s.handler, st, t);
      if c.out.OutOfFuel? {
        LandsLess(calm, st, st.env.current, SoFarQuiet(calm, true, s), SoFarQuiet(calm, false, s), c, q, steady);
      } else {
        FinalizedLands(calm, m, fuel, s, st, c);
      }
    }
  }

  /** Of a `try`, all before the finalizer. */
  predicate SoFarQuiet(calm: bool, loops: bool, s: Stmt)
    requires s.Try?
  {
    ListQuiet(calm, loops, s.tried) && (s.handler.Some? ==> HandlerQuiet(calm, loops, s.handler.value))
  }

  /** The error did not move the current frame, so going on is no leak. */
  lemma NothingNoted(calm: bool, st: State, q: bool, s: bool, t: Step)
    requires Lands(calm, st, q, s, t) && !t.out.OutOfFuel? && (t.out.Error? ==> s)
    ensures Noting(t.st, st) == t.st && StateTame(calm, t.st) && t.st.env.current == st.env.current
    ensures t.st.leaked == st.leaked && Keeps(st.env, t.st.env) && (Carries(t.out) ==> Tame(calm, t.out.value))
  {
    hide StateTame;
  }

  lemma {:induction false} CaughtLands(calm: bool, m: Machine, fuel: nat, s: Stmt, st: State, t: Step)
    requires st.Valid() && t.st.Valid() && StmtGuarded(calm, s) && s.Try? && !t.out.Val? && !t.out.OutOfFuel?
    requires Lands(calm, st, ListQuiet(calm, true, s.tried), ListQuiet(calm, false, s.tried), t)
    ensures Lands(calm, st, SoFarQuiet(calm, true, s), SoFarQuiet(calm, false, s), Caught(m, fuel, s.handler, st, t))
    decreases fuel, 5
  {
    hide StateTame, Keeps, Under, LandsIn, RunBlock, ListGuarded, ListQuiet, HandlerLocals, CodeGuarded, Noting, Tame;
    var q, steady := SoFarQuiet(calm, true, s), SoFarQuiet(calm, false, s);
    LandsLess(calm, st, st.env.current, ListQuiet(calm, true, s.tried), ListQuiet(calm, false, s.tried), t, q, steady);
    if s.handler.Some? && (t.out.Error? || t.out.ThrowOut?) {
      var h := s.handler.value;
      NothingNoted(calm, st, ListQuiet(calm, true, s.tried), ListQuiet(calm, false, s.tried), t);
      BlockLands(calm, m, fuel, h.handling, HandlerLocals(h), h.caught, t.out.value, t.st);
      var r := RunBlock(m, fuel, h.handling, HandlerLocals(h), h.caught, t.out.value, t.st);
      LandsLess(calm, t.st, st.env.current, ListQuiet(calm, true, h.handling), ListQuiet(calm, false, h.handling), r, q,
                steady);
      LandsOn(calm, st, t.st, st.env.current, q, steady, r);
    }
  }

  lemma {:induction false} FinalizedLands(calm: bool, m: Machine, fuel: nat, s: Stmt, st: State, c: Step)
    requires st.Valid() && c.st.Valid() && StmtGuarded(calm, s) && s.Try? && !c.out.Val? && !c.out.OutOfFuel?
    requires Lands(calm, st, SoFarQuiet(calm, true, s), SoFarQuiet(calm, false, s), c)
    ensures Lands(calm, st, StmtQuiet(calm, true, s), StmtQuiet(calm, false, s),
                  Finalized(m, fuel, s.finalizer, st, c))
    decreases fuel, 5
  {
    hide StateTame, Keeps, Under, LandsIn, RunBlock, ListGuarded, ListQuiet, FinalizerLocals, CodeGuarded, Noting,
         Tame;
    var q, steady := StmtQuiet(calm, true, s), StmtQuiet(calm, false, s);
    LandsLess(calm, st, st.env.current, SoFarQuiet(calm, true, s), SoFarQuiet(calm, false, s), c, q, steady);
    if s.finalizer.Some? {
      var fin := s.finalizer.value;
      NothingNoted(calm, st, SoFarQuiet(calm, true, s), SoFarQuiet(calm, false, s), c);
      UndefinedTame(calm);
      BlockLands(calm, m, fuel, fin.finals, FinalizerLocals(fin), S.None, Undefined, c.st);
      var f := RunBlock(m, fuel, fin.finals, FinalizerLocals(fin), S.None, Undefined, c.st);
      assert forall loops :: FinalizerQuiet(calm, loops, fin) == ListQuiet(calm, loops, fin.finals);
      LandsLess(calm, c.st, st.env.current, ListQuiet(calm, true, fin.finals), ListQuiet(calm, false, fin.finals), f, q,
                steady);
      LandsOn(calm, st, c.st, st.env.current, q, steady, f);
      if !f.out.Error? && !f.out.OutOfFuel? {
        StandingOut(calm, st, q, steady, f, c.out);
      }
    }
  }

  lemma StandingOut(calm: bool, st: State, q: bool, s: bool, f: Step, out: Out)
    requires Lands(calm, st, q, s, f) && !f.out.Error? && !f.out.OutOfFuel?
    requires Carries(out) ==> Tame(calm, out.value)
    ensures Lands(calm, st, q, s, Step(f.st, out))
  {
    hide StateTame, Tame;
  }

  // ---- Guarded scripts ----

  lemma {:induction false} TameScript(calm: bool, m: Machine, fuel: nat, script: seq<Stmt>, globals: map<Name, Value>)
    requires ListGuarded(calm, script) && GlobalsOk(globals)
    ensures !RunScript(m, fuel, script, globals).st.leaked
  {
    var st := State(Env([Frame(globals, {}, S.None, {})], 0), [], 0, false);
    assert StateTame(calm, st);
    BodyLands(calm, m, fuel, script, st);
  }

  /** No run of a guarded script, whatever its primitive steps give, goes on in a frame other than its own. */
  lemma GuardedNeverLeaks(m: Machine, fuel: nat, script: seq<Stmt>, globals: map<Name, Value>)
    requires Guarded(script) && GlobalsOk(globals)
    ensures !RunScript(m, fuel, script, globals).st.leaked
  {
    hide *;
    GuardedSomehow(script);
    if ListGuarded(true, script) {
      TameScript(true, m, fuel, script, globals);
    } else {
      TameScript(false, m, fuel, script, globals);
    }
  }

  lemma GuardedSomehow(script: seq<Stmt>)
    requires Guarded(script)
    ensures ListGuarded(true, script) || ListGuarded(false, script)
  {
    hide ListGuarded;
  }

  /** Sending the recorded reads of a guarded script straight to the root frame is never observed. */
  lemma GuardedRunsFast(pick: (nat, seq<Value>) -> Pick, fuel: nat, script: seq<Stmt>, globals: map<Name, Value>)
    requires OffsetsTell(script) && GlobalsOk(globals) && Guarded(script)
    ensures RunScript(Machine(pick, InList(script, {}, true)), fuel, script, globals)
         == RunScript(Machine(pick, {}), fuel, script, globals)
  {
    hide *;
    GuardedNeverLeaks(Machine(pick, InList(script, {}, true)), fuel, script, globals);
    FastRunsLikeSlow(pick, fuel, script, globals);
  }
}
