/** The free identifiers of a script, collected from the inside out, and what the resolver finds from the outside in:
    the same ones. */
module FreeNames {
  import opened Scripts
  import S = Syntax

  /** A name and the offset where it stands. */
  type Use = (Name, nat)

  function Outside(us: set<Use>, names: set<Name>): set<Use> {
    set u | u in us && u.0 !in names
  }

  function Offsets(us: set<Use>): set<nat> {
    set u | u in us :: u.1
  }

  // ---- Free identifiers, from the inside out ----

  function OfExpr(e: Expr): set<Use> {
    match e
    case Ident(x, at) => {(x, at)}
    case Prim(es) => OfExprs(es)
    case Choice(c, a, b) => OfExpr(c) + OfExpr(a) + OfExpr(b)
    case Assign(x, at, v) => {(x, at)} + OfExpr(v)
    case Function(own, code) => Outside(OfCode(code), Named(own))
    case Call(f, args) => OfExpr(f) + OfExprs(args)
  }

  function OfExprs(es: seq<Expr>): set<Use> {
    if es == [] then {} else OfExpr(es[0]) + OfExprs(es[1..])
  }

  function OfOptional(e: Maybe<Expr>): set<Use> {
    if e.Some? then OfExpr(e.value) else {}
  }

  /** Parameters and locals of a function are not free in it, nor in its parameters' defaults. */
  function OfCode(code: Code): set<Use> {
    Outside(OfParams(code.params) + OfList(code.body), CodeLocals(code))
  }

  function OfParams(ps: seq<Param>): set<Use> {
    if ps == [] then {} else OfParam(ps[0]) + OfParams(ps[1..])
  }

  function OfParam(p: Param): set<Use> {
    OfPattern(p.pattern) + OfOptional(p.default)
  }

  function OfPattern(p: Pattern): set<Use> {
    match p
    case Bind(_) => {}
    case Default(inner, e) => OfPattern(inner) + OfExpr(e)
    case Parts(ps) => OfParts(ps)
  }

  function OfParts(ps: seq<Pattern>): set<Use> {
    if ps == [] then {} else OfPattern(ps[0]) + OfParts(ps[1..])
  }

  function OfStmt(s: Stmt): set<Use> {
    match s
    case Empty | Break | Continue => {}
    case VarDecl(p, e) => OfPattern(p) + OfExpr(e)
    case Eval(e) => OfExpr(e)
    case Return(e) => OfExpr(e)
    case Throw(e) => OfExpr(e)
    case Block(body) => Outside(OfList(body), Locals(body))
    case If(c, a, b) => OfExpr(c) + OfStmt(a) + OfStmt(b)
    case While(c, loop) => OfExpr(c) + OfStmt(loop)
    case For(start, c, u, loop) =>
      Outside(OfStmt(start) + OfOptional(c) + OfOptional(u) + OfStmt(loop), StmtLocals(start) + StmtLocals(loop))
    case ForEach(p, e, loop) => OfExpr(e) + Outside(OfPattern(p) + OfStmt(loop), PatternNames(p) + StmtLocals(loop))
    case FunctionDecl(_, code) => OfCode(code)
    case Try(tried, handler, finalizer) =>
      Outside(OfList(tried), Locals(tried))
      + (if handler.Some? then OfHandler(handler.value) else {})
      + (if finalizer.Some? then OfFinalizer(finalizer.value) else {})
  }

  function OfHandler(h: Handler): set<Use> {
    Outside(OfList(h.handling), Named(h.caught) + Locals(h.handling))
  }

  function OfFinalizer(f: Finalizer): set<Use> {
    Outside(OfList(f.finals), Locals(f.finals))
  }

  function OfList(ss: seq<Stmt>): set<Use> {
    if ss == [] then {} else OfStmt(ss[0]) + OfList(ss[1..])
  }

  // ---- The two collections agree ----

  /** The offsets of those of `us` that no scope around them declares. */
  function Beyond(us: set<Use>, scope: set<Name>): set<nat> {
    Offsets(Outside(us, scope))
  }

  lemma BeyondBoth(a: set<Use>, b: set<Use>, scope: set<Name>)
    ensures Beyond(a + b, scope) == Beyond(a, scope) + Beyond(b, scope)
  {
    var both := Outside(a, scope) + Outside(b, scope);
    assert Outside(a + b, scope) == both;
    forall at | at in Offsets(both)
      ensures at in Beyond(a, scope) + Beyond(b, scope)
    {
      var u :| u in both && u.1 == at;
    }
  }

  lemma BeyondInner(us: set<Use>, inner: set<Name>, scope: set<Name>)
    ensures Beyond(Outside(us, inner), scope) == Beyond(us, scope + inner)
  {
    assert Outside(Outside(us, inner), scope) == Outside(us, scope + inner);
  }

  lemma BeyondOne(x: Name, at: nat, scope: set<Name>)
    ensures Beyond({(x, at)}, scope) == One(x, at, scope, true)
  {
    assert Outside({(x, at)}, scope) == if x in scope then {} else {(x, at)};
    assert Offsets({}) == {} && Offsets({(x, at)}) == {at};
  }

  lemma BeyondNone(scope: set<Name>)
    ensures Beyond({}, scope) == {}
  {
  }

  lemma {:induction false} ExprAgrees(e: Expr, scope: set<Name>)
    ensures InExpr(e, scope, true) == Beyond(OfExpr(e), scope)
    decreases e
  {
    hide Beyond, Outside, One;
    match e
    case Ident(x, at) => BeyondOne(x, at, scope);
    case Prim(es) => ExprsAgree(es, scope);
    case Choice(c, a, b) =>
      ExprAgrees(c, scope);
      ExprAgrees(a, scope);
      ExprAgrees(b, scope);
      BeyondBoth(OfExpr(c), OfExpr(a), scope);
      BeyondBoth(OfExpr(c) + OfExpr(a), OfExpr(b), scope);
    case Assign(x, at, v) =>
      BeyondOne(x, at, scope);
      ExprAgrees(v, scope);
      BeyondBoth({(x, at)}, OfExpr(v), scope);
    case Function(own, code) =>
      BeyondInner(OfCode(code), Named(own), scope);
      CodeAgrees(code, scope + Named(own));
    case Call(f, args) =>
      ExprAgrees(f, scope);
      ExprsAgree(args, scope);
      BeyondBoth(OfExpr(f), OfExprs(args), scope);
  }

  lemma {:induction false} ExprsAgree(es: seq<Expr>, scope: set<Name>)
    ensures InExprs(es, scope, true) == Beyond(OfExprs(es), scope)
    decreases es
  {
    hide Beyond;
    if es == [] {
      BeyondNone(scope);
    } else {
      ExprAgrees(es[0], scope);
      ExprsAgree(es[1..], scope);
      BeyondBoth(OfExpr(es[0]), OfExprs(es[1..]), scope);
    }
  }

  lemma {:induction false} OptionalAgrees(e: Maybe<Expr>, scope: set<Name>)
    ensures InOptional(e, scope, true) == Beyond(OfOptional(e), scope)
    decreases e
  {
    if e.Some? {
      ExprAgrees(e.value, scope);
    }
  }

  lemma {:induction false} CodeAgrees(code: Code, scope: set<Name>)
    ensures InCode(code, scope + CodeLocals(code), true) == Beyond(OfCode(code), scope)
    decreases code
  {
    hide Beyond, Outside;
    var inside := scope + CodeLocals(code);
    ParamsAgree(code.params, inside);
    ListAgrees(code.body, inside);
    BeyondBoth(OfParams(code.params), OfList(code.body), inside);
    BeyondInner(OfParams(code.params) + OfList(code.body), CodeLocals(code), scope);
  }

  lemma {:induction false} ParamsAgree(ps: seq<Param>, scope: set<Name>)
    ensures InParams(ps, scope, true) == Beyond(OfParams(ps), scope)
    decreases ps
  {
    hide Beyond;
    if ps == [] {
      BeyondNone(scope);
    } else {
      ParamAgrees(ps[0], scope);
      ParamsAgree(ps[1..], scope);
      BeyondBoth(OfParam(ps[0]), OfParams(ps[1..]), scope);
    }
  }

  lemma {:induction false} ParamAgrees(p: Param, scope: set<Name>)
    ensures InParam(p, scope, true) == Beyond(OfParam(p), scope)
    decreases p
  {
    hide Beyond;
    PatternAgrees(p.pattern, scope);
    OptionalAgrees(p.default, scope);
    BeyondBoth(OfPattern(p.pattern), OfOptional(p.default), scope);
  }

  lemma {:induction false} PatternAgrees(p: Pattern, scope: set<Name>)
    ensures InPattern(p, scope, true) == Beyond(OfPattern(p), scope)
    decreases p
  {
    hide Beyond;
    match p
    case Bind(_) => BeyondNone(scope);
    case Default(inner, e) =>
      PatternAgrees(inner, scope);
      ExprAgrees(e, scope);
      BeyondBoth(OfPattern(inner), OfExpr(e), scope);
    case Parts(ps) => PartsAgree(ps, scope);
  }

  lemma {:induction false} PartsAgree(ps: seq<Pattern>, scope: set<Name>)
    ensures InParts(ps, scope, true) == Beyond(OfParts(ps), scope)
    decreases ps
  {
    hide Beyond;
    if ps == [] {
      BeyondNone(scope);
    } else {
      PatternAgrees(ps[0], scope);
      PartsAgree(ps[1..], scope);
      BeyondBoth(OfPattern(ps[0]), OfParts(ps[1..]), scope);
    }
  }

  /** A list in a scope of its own. */
  lemma {:induction false} ScopeAgrees(ss: seq<Stmt>, names: set<Name>, scope: set<Name>)
    ensures InList(ss, scope + names, true) == Beyond(Outside(OfList(ss), names), scope)
    decreases ss, 1
  {
    hide Beyond, Outside;
    ListAgrees(ss, scope + names);
    BeyondInner(OfList(ss), names, scope);
  }

  lemma {:induction false} StmtAgrees(s: Stmt, scope: set<Name>)
    ensures InStmt(s, scope, true) == Beyond(OfStmt(s), scope)
    decreases s
  {
    hide Beyond, Outside;
    match s
    case Empty | Break | Continue => BeyondNone(scope);
    case VarDecl(p, e) =>
      PatternAgrees(p, scope);
      ExprAgrees(e, scope);
      BeyondBoth(OfPattern(p), OfExpr(e), scope);
    case Eval(e) => ExprAgrees(e, scope);
    case Return(e) => ExprAgrees(e, scope);
    case Throw(e) => ExprAgrees(e, scope);
    case Block(body) => ScopeAgrees(body, Locals(body), scope);
    case If(c, a, b) =>
      ExprAgrees(c, scope);
      StmtAgrees(a, scope);
      StmtAgrees(b, scope);
      BeyondBoth(OfExpr(c), OfStmt(a), scope);
      BeyondBoth(OfExpr(c) + OfStmt(a), OfStmt(b), scope);
    case While(c, loop) =>
      ExprAgrees(c, scope);
      StmtAgrees(loop, scope);
      BeyondBoth(OfExpr(c), OfStmt(loop), scope);
    case For(_, _, _, _) => ForAgrees(s, scope);
    case ForEach(_, _, _) => ForEachAgrees(s, scope);
    case FunctionDecl(_, code) => CodeAgrees(code, scope);
    case Try(_, _, _) => TryAgrees(s, scope);
  }

  lemma {:induction false} ForAgrees(s: Stmt, scope: set<Name>)
    requires s.For?
    ensures InStmt(s, scope, true) == Beyond(OfStmt(s), scope)
    decreases s, 0
  {
    hide Beyond, Outside;
    var names := StmtLocals(s.start) + StmtLocals(s.loop);
    var inside := scope + names;
    assert scope + StmtLocals(s.start) + StmtLocals(s.loop) == inside;
    StmtAgrees(s.start, inside);
    OptionalAgrees(s.test, inside);
    OptionalAgrees(s.update, inside);
    StmtAgrees(s.loop, inside);
    var a, b := OfStmt(s.start) + OfOptional(s.test), OfStmt(s.start) + OfOptional(s.test) + OfOptional(s.update);
    BeyondBoth(OfStmt(s.start), OfOptional(s.test), inside);
    BeyondBoth(a, OfOptional(s.update), inside);
    BeyondBoth(b, OfStmt(s.loop), inside);
    BeyondInner(b + OfStmt(s.loop), names, scope);
  }

  lemma {:induction false} ForEachAgrees(s: Stmt, scope: set<Name>)
    requires s.ForEach?
    ensures InStmt(s, scope, true) == Beyond(OfStmt(s), scope)
    decreases s, 0
  {
    hide Beyond, Outside;
    var names := PatternNames(s.pattern) + StmtLocals(s.loop);
    var inside := scope + names;
    assert scope + PatternNames(s.pattern) + StmtLocals(s.loop) == inside;
    ExprAgrees(s.iterable, scope);
    PatternAgrees(s.pattern, inside);
    StmtAgrees(s.loop, inside);
    BeyondBoth(OfPattern(s.pattern), OfStmt(s.loop), inside);
    BeyondInner(OfPattern(s.pattern) + OfStmt(s.loop), names, scope);
    BeyondBoth(OfExpr(s.iterable), Outside(OfPattern(s.pattern) + OfStmt(s.loop), names), scope);
  }

  lemma {:induction false} TryAgrees(s: Stmt, scope: set<Name>)
    requires s.Try?
    ensures InStmt(s, scope, true) == Beyond(OfStmt(s), scope)
    decreases s, 0
  {
    hide Beyond, Outside;
    var tried := Outside(OfList(s.tried), Locals(s.tried));
    var handled := if s.handler.Some? then OfHandler(s.handler.value) else {};
    var final := if s.finalizer.Some? then OfFinalizer(s.finalizer.value) else {};
    ScopeAgrees(s.tried, Locals(s.tried), scope);
    BeyondNone(scope);
    if s.handler.Some? {
      ScopeAgrees(s.handler.value.handling, HandlerLocals(s.handler.value), scope);
    }
    if s.finalizer.Some? {
      ScopeAgrees(s.finalizer.value.finals, FinalizerLocals(s.finalizer.value), scope);
    }
    BeyondBoth(tried, handled, scope);
    BeyondBoth(tried + handled, final, scope);
  }

  lemma {:induction false} ListAgrees(ss: seq<Stmt>, scope: set<Name>)
    ensures InList(ss, scope, true) == Beyond(OfList(ss), scope)
    decreases ss, 0
  {
    hide Beyond;
    if ss == [] {
      BeyondNone(scope);
    } else {
      StmtAgrees(ss[0], scope);
      ListAgrees(ss[1..], scope);
      BeyondBoth(OfStmt(ss[0]), OfList(ss[1..]), scope);
    }
  }

  /** The resolver finds the script's free identifiers and no others. */
  lemma ResolvesFreeNames(script: seq<Stmt>)
    ensures InList(script, {}, true) == Offsets(OfList(script))
  {
    ListAgrees(script, {});
    assert Outside(OfList(script), {}) == OfList(script);
  }
}
