/** Scripts as the interpreter's resolver sees them: what each construct declares, and which identifiers it reads. */
module Scripts {
  import S = Syntax

  type Name = S.Name

  type Maybe<T> = S.Option<T>

  datatype Pattern = Bind(name: Name) | Default(inner: Pattern, default: Expr) | Parts(parts: seq<Pattern>)

  datatype Param = Param(pattern: Pattern, default: Maybe<Expr>)

  /** `Ident` and `Assign` carry the offset where the identifier starts. `Prim` is every construct that evaluates its
      operands in order and touches no variable itself: literals, operators, templates, member access. */
  datatype Expr =
    | Ident(name: Name, at: nat)
    | Prim(operands: seq<Expr>)
    | Choice(condition: Expr, thenExpr: Expr, elseExpr: Expr)
    | Assign(name: Name, at: nat, value: Expr)
    | Function(own: Maybe<Name>, code: Code)
    | Call(callee: Expr, args: seq<Expr>)

  datatype Stmt =
    | Empty
    | VarDecl(pattern: Pattern, init: Expr)
    | Eval(expr: Expr)
    | Block(body: seq<Stmt>)
    | If(condition: Expr, thenBranch: Stmt, elseBranch: Stmt)
    | While(condition: Expr, loop: Stmt)
    | For(start: Stmt, test: Maybe<Expr>, update: Maybe<Expr>, loop: Stmt)
    | ForEach(pattern: Pattern, iterable: Expr, loop: Stmt)
    | FunctionDecl(name: Name, code: Code)
    | Return(value: Expr)
    | Throw(value: Expr)
    | Break
    | Continue
    | Try(tried: seq<Stmt>, handler: Maybe<Handler>, finalizer: Maybe<Finalizer>)

  datatype Handler = Handler(caught: Maybe<Name>, handling: seq<Stmt>)

  datatype Finalizer = Finalizer(finals: seq<Stmt>)

  datatype Code = Code(params: seq<Param>, body: seq<Stmt>)

  // ---- Declared names ----

  function Named(x: Maybe<Name>): set<Name> {
    if x.Some? then {x.value} else {}
  }

  function PatternNames(p: Pattern): set<Name> {
    match p
    case Bind(x) => {x}
    case Default(inner, _) => PatternNames(inner)
    case Parts(ps) => PartNames(ps)
  }

  function PartNames(ps: seq<Pattern>): set<Name> {
    if ps == [] then {} else PatternNames(ps[0]) + PartNames(ps[1..])
  }

  function ParamNames(ps: seq<Param>): set<Name> {
    if ps == [] then {} else PatternNames(ps[0].pattern) + ParamNames(ps[1..])
  }

  /** The names a statement declares anywhere inside it, short of inner functions. */
  function StmtLocals(s: Stmt): set<Name> {
    match s
    case VarDecl(p, _) => PatternNames(p)
    case FunctionDecl(x, _) => {x}
    case Block(body) => Locals(body)
    case If(_, a, b) => StmtLocals(a) + StmtLocals(b)
    case While(_, loop) => StmtLocals(loop)
    case For(start, _, _, loop) => StmtLocals(start) + StmtLocals(loop)
    case ForEach(p, _, loop) => PatternNames(p) + StmtLocals(loop)
    case Try(tried, handler, finalizer) =>
      Locals(tried)
      + (if handler.Some? then HandlerLocals(handler.value) else {})
      + (if finalizer.Some? then FinalizerLocals(finalizer.value) else {})
    case _ => {}
  }

  function Locals(ss: seq<Stmt>): set<Name> {
    if ss == [] then {} else StmtLocals(ss[0]) + Locals(ss[1..])
  }

  function HandlerLocals(h: Handler): set<Name> {
    Named(h.caught) + Locals(h.handling)
  }

  function FinalizerLocals(f: Finalizer): set<Name> {
    Locals(f.finals)
  }

  /** The variables a statement list itself declares; they are unreadable until their declaration is reached. */
  function Lexical(ss: seq<Stmt>): set<Name> {
    if ss == [] then {}
    else (if ss[0].VarDecl? then PatternNames(ss[0].pattern) else {}) + Lexical(ss[1..])
  }

  function CodeLocals(code: Code): set<Name> {
    ParamNames(code.params) + Locals(code.body)
  }

  lemma {:induction false} LexicalAreLocals(ss: seq<Stmt>)
    ensures Lexical(ss) <= Locals(ss)
  {
    if ss != [] {
      LexicalAreLocals(ss[1..]);
    }
  }

  // ---- Occurrences ----

  function One(x: Name, at: nat, scope: set<Name>, free: bool): set<nat> {
    if (x !in scope) == free then {at} else {}
  }

  /** Where identifiers stand whose name lies outside (`free`) or inside the scopes around them. */
  function InExpr(e: Expr, scope: set<Name>, free: bool): set<nat> {
    match e
    case Ident(x, at) => One(x, at, scope, free)
    case Prim(es) => InExprs(es, scope, free)
    case Choice(c, a, b) => InExpr(c, scope, free) + InExpr(a, scope, free) + InExpr(b, scope, free)
    case Assign(x, at, v) => One(x, at, scope, free) + InExpr(v, scope, free)
    case Function(own, code) => InCode(code, scope + Named(own) + CodeLocals(code), free)
    case Call(f, args) => InExpr(f, scope, free) + InExprs(args, scope, free)
  }

  function InExprs(es: seq<Expr>, scope: set<Name>, free: bool): set<nat> {
    if es == [] then {} else InExpr(es[0], scope, free) + InExprs(es[1..], scope, free)
  }

  function InOptional(e: Maybe<Expr>, scope: set<Name>, free: bool): set<nat> {
    if e.Some? then InExpr(e.value, scope, free) else {}
  }

  /** `inside` already holds the function's own names. */
  function InCode(code: Code, inside: set<Name>, free: bool): set<nat> {
    InParams(code.params, inside, free) + InList(code.body, inside, free)
  }

  function InParams(ps: seq<Param>, scope: set<Name>, free: bool): set<nat> {
    if ps == [] then {} else InParam(ps[0], scope, free) + InParams(ps[1..], scope, free)
  }

  function InParam(p: Param, scope: set<Name>, free: bool): set<nat> {
    InPattern(p.pattern, scope, free) + InOptional(p.default, scope, free)
  }

  function InPattern(p: Pattern, scope: set<Name>, free: bool): set<nat> {
    match p
    case Bind(_) => {}
    case Default(inner, e) => InPattern(inner, scope, free) + InExpr(e, scope, free)
    case Parts(ps) => InParts(ps, scope, free)
  }

  function InParts(ps: seq<Pattern>, scope: set<Name>, free: bool): set<nat> {
    if ps == [] then {} else InPattern(ps[0], scope, free) + InParts(ps[1..], scope, free)
  }

  function InStmt(s: Stmt, scope: set<Name>, free: bool): set<nat> {
    match s
    case Empty | Break | Continue => {}
    case VarDecl(p, e) => InPattern(p, scope, free) + InExpr(e, scope, free)
    case Eval(e) => InExpr(e, scope, free)
    case Return(e) => InExpr(e, scope, free)
    case Throw(e) => InExpr(e, scope, free)
    case Block(body) => InList(body, scope + Locals(body), free)
    case If(c, a, b) => InExpr(c, scope, free) + InStmt(a, scope, free) + InStmt(b, scope, free)
    case While(c, loop) => InExpr(c, scope, free) + InStmt(loop, scope, free)
    case For(start, c, u, loop) =>
      var inside := scope + StmtLocals(start) + StmtLocals(loop);
      InStmt(start, inside, free) + InOptional(c, inside, free) + InOptional(u, inside, free)
        + InStmt(loop, inside, free)
    case ForEach(p, e, loop) =>
      var inside := scope + PatternNames(p) + StmtLocals(loop);
      InExpr(e, scope, free) + InPattern(p, inside, free) + InStmt(loop, inside, free)
    case FunctionDecl(_, code) => InCode(code, scope + CodeLocals(code), free)
    case Try(tried, handler, finalizer) =>
      InList(tried, scope + Locals(tried), free)
      + (if handler.Some? then InHandler(handler.value, scope, free) else {})
      + (if finalizer.Some? then InFinalizer(finalizer.value, scope, free) else {})
  }

  function InHandler(h: Handler, scope: set<Name>, free: bool): set<nat> {
    InList(h.handling, scope + HandlerLocals(h), free)
  }

  function InFinalizer(f: Finalizer, scope: set<Name>, free: bool): set<nat> {
    InList(f.finals, scope + FinalizerLocals(f), free)
  }

  function InList(ss: seq<Stmt>, scope: set<Name>, free: bool): set<nat> {
    if ss == [] then {} else InStmt(ss[0], scope, free) + InList(ss[1..], scope, free)
  }

  /** No offset belongs both to an identifier bound in an inner scope and to one that is not, as when every identifier
      starts at an offset of its own. */
  predicate OffsetsTell(program: seq<Stmt>) {
    InList(program, {}, true) !! InList(program, {}, false)
  }

  // ---- The resolver as it runs ----

  /** Records where names are read that no scope around them declares. */
  class Resolver {
    var found: set<nat>
    var scopes: seq<set<Name>>

    constructor ()
      ensures found == {} && scopes == []
    {
      found, scopes := {}, [];
    }

    ghost function Known(): set<Name>
      reads this`scopes
    {
      AllOf(scopes)
    }

    method RecordRead(x: Name, at: nat)
      modifies this`found
      ensures found == old(found) + One(x, at, Known(), true)
    {
      for i := 0 to |scopes|
        invariant x !in AllOf(scopes[..i])
      {
        assert scopes[..i + 1][..i] == scopes[..i];
        if x in scopes[i] {
          InSome(scopes, i, x);
          return;
        }
      }
      assert scopes[..|scopes|] == scopes;
      found := found + {at};
    }

    method WalkExpr(e: Expr)
      modifies this
      ensures found == old(found) + InExpr(e, Known(), true) && scopes == old(scopes)
      decreases e
    {
      match e {
        case Ident(x, at) => RecordRead(x, at);
        case Prim(es) => WalkExprs(es);
        case Choice(c, a, b) =>
          WalkExpr(c);
          WalkExpr(a);
          WalkExpr(b);
        case Assign(x, at, v) =>
          RecordRead(x, at);
          WalkExpr(v);
        case Function(own, code) => WalkFunction(own, code);
        case Call(f, args) =>
          WalkExpr(f);
          WalkExprs(args);
      }
    }

    method WalkExprs(es: seq<Expr>)
      modifies this
      ensures found == old(found) + InExprs(es, Known(), true) && scopes == old(scopes)
      decreases es
    {
      if es != [] {
        WalkExpr(es[0]);
        WalkExprs(es[1..]);
      }
    }

    method WalkFunction(own: Maybe<Name>, code: Code)
      modifies this
      ensures scopes == old(scopes) && found == old(found) + InCode(code, Known() + Named(own) + CodeLocals(code), true)
      decreases code
    {
      var locals := Named(own) + CodeLocals(code);
      Pushed(scopes, locals);
      assert Known() + Named(own) + CodeLocals(code) == Known() + locals;
      scopes := scopes + [locals];
      WalkParams(code.params);
      WalkList(code.body);
      scopes := scopes[..|scopes| - 1];
    }

    method WalkParams(ps: seq<Param>)
      modifies this
      ensures found == old(found) + InParams(ps, Known(), true) && scopes == old(scopes)
      decreases ps
    {
      if ps != [] {
        WalkParam(ps[0]);
        WalkParams(ps[1..]);
      }
    }

    method WalkParam(p: Param)
      modifies this
      ensures found == old(found) + InParam(p, Known(), true) && scopes == old(scopes)
      decreases p
    {
      WalkPatternDefaults(p.pattern);
      WalkOptional(p.default);
    }

    method WalkOptional(e: Maybe<Expr>)
      modifies this
      ensures found == old(found) + InOptional(e, Known(), true) && scopes == old(scopes)
      decreases e
    {
      if e.Some? {
        WalkExpr(e.value);
      }
    }

    method WalkPatternDefaults(p: Pattern)
      modifies this
      ensures found == old(found) + InPattern(p, Known(), true) && scopes == old(scopes)
      decreases p
    {
      match p {
        case Bind(_) =>
        case Default(inner, e) =>
          WalkPatternDefaults(inner);
          WalkExpr(e);
        case Parts(ps) => WalkParts(ps);
      }
    }

    method WalkParts(ps: seq<Pattern>)
      modifies this
      ensures found == old(found) + InParts(ps, Known(), true) && scopes == old(scopes)
      decreases ps
    {
      if ps != [] {
        WalkPatternDefaults(ps[0]);
        WalkParts(ps[1..]);
      }
    }

    method WalkBlock(body: seq<Stmt>, locals: set<Name>)
      modifies this
      ensures found == old(found) + InList(body, Known() + locals, true) && scopes == old(scopes)
      decreases body, 1
    {
      Pushed(scopes, locals);
      scopes := scopes + [locals];
      WalkList(body);
      scopes := scopes[..|scopes| - 1];
    }

    method WalkStmt(s: Stmt)
      modifies this
      ensures found == old(found) + InStmt(s, Known(), true) && scopes == old(scopes)
      decreases s
    {
      match s {
        case Empty | Break | Continue =>
        case VarDecl(p, e) =>
          WalkPatternDefaults(p);
          WalkExpr(e);
        case Eval(e) => WalkExpr(e);
        case Return(e) => WalkExpr(e);
        case Throw(e) => WalkExpr(e);
        case Block(body) => WalkBlock(body, Locals(body));
        case If(c, a, b) =>
          WalkExpr(c);
          WalkStmt(a);
          WalkStmt(b);
        case While(c, loop) =>
          WalkExpr(c);
          WalkStmt(loop);
        case For(_, _, _, _) => WalkFor(s);
        case ForEach(_, _, _) => WalkForEach(s);
        case FunctionDecl(_, code) =>
          assert Known() + Named(S.None) == Known();
          WalkFunction(S.None, code);
        case Try(tried, handler, finalizer) =>
          WalkBlock(tried, Locals(tried));
          if handler.Some? {
            WalkHandler(handler.value);
          }
          if finalizer.Some? {
            WalkFinalizer(finalizer.value);
          }
      }
    }

    method WalkHandler(h: Handler)
      modifies this
      ensures found == old(found) + InHandler(h, Known(), true) && scopes == old(scopes)
      decreases h
    {
      WalkBlock(h.handling, HandlerLocals(h));
    }

    method WalkFinalizer(f: Finalizer)
      modifies this
      ensures found == old(found) + InFinalizer(f, Known(), true) && scopes == old(scopes)
      decreases f
    {
      WalkBlock(f.finals, Locals(f.finals));
    }

    method WalkFor(s: Stmt)
      requires s.For?
      modifies this
      ensures found == old(found) + InStmt(s, Known(), true) && scopes == old(scopes)
      decreases s, 0
    {
      var locals := StmtLocals(s.start) + StmtLocals(s.loop);
      Pushed(scopes, locals);
      assert Known() + StmtLocals(s.start) + StmtLocals(s.loop) == Known() + locals;
      scopes := scopes + [locals];
      WalkStmt(s.start);
      WalkOptional(s.test);
      WalkOptional(s.update);
      WalkStmt(s.loop);
      scopes := scopes[..|scopes| - 1];
    }

    method WalkForEach(s: Stmt)
      requires s.ForEach?
      modifies this
      ensures found == old(found) + InStmt(s, Known(), true) && scopes == old(scopes)
      decreases s, 0
    {
      WalkExpr(s.iterable);
      var locals := PatternNames(s.pattern) + StmtLocals(s.loop);
      Pushed(scopes, locals);
      assert Known() + PatternNames(s.pattern) + StmtLocals(s.loop) == Known() + locals;
      scopes := scopes + [locals];
      WalkPatternDefaults(s.pattern);
      WalkStmt(s.loop);
      scopes := scopes[..|scopes| - 1];
    }

    method WalkList(ss: seq<Stmt>)
      modifies this
      ensures found == old(found) + InList(ss, Known(), true) && scopes == old(scopes)
      decreases ss, 0
    {
      if ss != [] {
        WalkStmt(ss[0]);
        WalkList(ss[1..]);
      }
    }
  }

  /** The offsets whose reads may go to the root frame directly. */
  method Resolve(program: seq<Stmt>) returns (found: set<nat>)
    ensures found == InList(program, {}, true)
  {
    var resolver := new Resolver();
    resolver.WalkList(program);
    found := resolver.found;
  }

  function AllOf(scopes: seq<set<Name>>): set<Name> {
    if scopes == [] then {} else AllOf(scopes[..|scopes| - 1]) + scopes[|scopes| - 1]
  }

  lemma Pushed(scopes: seq<set<Name>>, locals: set<Name>)
    ensures AllOf(scopes + [locals]) == AllOf(scopes) + locals && (scopes + [locals])[..|scopes|] == scopes
  {
  }

  lemma {:induction false} InSome(scopes: seq<set<Name>>, i: nat, x: Name)
    requires i < |scopes| && x in scopes[i]
    ensures x in AllOf(scopes)
  {
    if i < |scopes| - 1 {
      InSome(scopes[..|scopes| - 1], i, x);
    }
  }
}
