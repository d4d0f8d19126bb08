/** Two properties of the text of a script that decide what an error can do to the current frame. */
module Guards {
  import opened Scripts

  /** Binding these parameters evaluates nothing, so it cannot fail. */
  predicate PlainParams(ps: seq<Param>) {
    ps == [] || (ps[0].pattern.Bind? && ps[0].default.None? && PlainParams(ps[1..]))
  }

  // ---- Code an error passes through without losing its frame ----

  /** Outside inner functions the code calls nothing, unless the script is `calm`: all its functions have plain
      parameters. */
  predicate ExprQuiet(calm: bool, e: Expr) {
    match e
    case Ident(_, _) => true
    case Prim(es) => ExprsQuiet(calm, es)
    case Choice(c, a, b) => ExprQuiet(calm, c) && ExprQuiet(calm, a) && ExprQuiet(calm, b)
    case Assign(_, _, v) => ExprQuiet(calm, v)
    case Function(_, _) => true
    case Call(f, args) => calm && ExprQuiet(calm, f) && ExprsQuiet(calm, args)
  }

  predicate ExprsQuiet(calm: bool, es: seq<Expr>) {
    es == [] || (ExprQuiet(calm, es[0]) && ExprsQuiet(calm, es[1..]))
  }

  predicate OptionalQuiet(calm: bool, e: Maybe<Expr>) {
    e.Some? ==> ExprQuiet(calm, e.value)
  }

  predicate PatternQuiet(calm: bool, p: Pattern) {
    match p
    case Bind(_) => true
    case Default(inner, e) => PatternQuiet(calm, inner) && ExprQuiet(calm, e)
    case Parts(ps) => PartsQuiet(calm, ps)
  }

  predicate PartsQuiet(calm: bool, ps: seq<Pattern>) {
    ps == [] || (PatternQuiet(calm, ps[0]) && PartsQuiet(calm, ps[1..]))
  }

  /** The same for statements. Without `loops` there is no `for` either, outside inner functions. */
  predicate StmtQuiet(calm: bool, loops: bool, s: Stmt) {
    match s
    case Empty | Break | Continue => true
    case VarDecl(p, e) => PatternQuiet(calm, p) && ExprQuiet(calm, e)
    case Eval(e) => ExprQuiet(calm, e)
    case Return(e) => ExprQuiet(calm, e)
    case Throw(e) => ExprQuiet(calm, e)
    case Block(body) => ListQuiet(calm, loops, body)
    case If(c, a, b) => ExprQuiet(calm, c) && StmtQuiet(calm, loops, a) && StmtQuiet(calm, loops, b)
    case While(c, loop) => ExprQuiet(calm, c) && StmtQuiet(calm, loops, loop)
    case For(start, c, u, loop) =>
      && loops && StmtQuiet(calm, loops, start) && OptionalQuiet(calm, c) && OptionalQuiet(calm, u)
      && StmtQuiet(calm, loops, loop)
    case ForEach(p, e, loop) => loops && PatternQuiet(calm, p) && ExprQuiet(calm, e) && StmtQuiet(calm, loops, loop)
    case FunctionDecl(_, _) => true
    case Try(tried, handler, finalizer) =>
      && ListQuiet(calm, loops, tried)
      && (handler.Some? ==> HandlerQuiet(calm, loops, handler.value))
      && (finalizer.Some? ==> FinalizerQuiet(calm, loops, finalizer.value))
  }

  predicate HandlerQuiet(calm: bool, loops: bool, h: Handler) {
    ListQuiet(calm, loops, h.handling)
  }

  predicate FinalizerQuiet(calm: bool, loops: bool, f: Finalizer) {
    ListQuiet(calm, loops, f.finals)
  }

  predicate ListQuiet(calm: bool, loops: bool, ss: seq<Stmt>) {
    ss == [] || (StmtQuiet(calm, loops, ss[0]) && ListQuiet(calm, loops, ss[1..]))
  }

  // ---- Scripts whose `try` statements are guarded ----

  /** Every `try` of the code, in inner functions too, tries only code without `for` and, unless the script is calm,
      without calls; and so is a handler that a finalizer follows. */
  predicate ExprGuarded(calm: bool, e: Expr) {
    match e
    case Ident(_, _) => true
    case Prim(es) => ExprsGuarded(calm, es)
    case Choice(c, a, b) => ExprGuarded(calm, c) && ExprGuarded(calm, a) && ExprGuarded(calm, b)
    case Assign(_, _, v) => ExprGuarded(calm, v)
    case Function(_, code) => CodeGuarded(calm, code)
    case Call(f, args) => ExprGuarded(calm, f) && ExprsGuarded(calm, args)
  }

  predicate ExprsGuarded(calm: bool, es: seq<Expr>) {
    es == [] || (ExprGuarded(calm, es[0]) && ExprsGuarded(calm, es[1..]))
  }

  predicate OptionalGuarded(calm: bool, e: Maybe<Expr>) {
    e.Some? ==> ExprGuarded(calm, e.value)
  }

  predicate CodeGuarded(calm: bool, code: Code) {
    (calm ==> PlainParams(code.params)) && ParamsGuarded(calm, code.params) && ListGuarded(calm, code.body)
  }

  predicate ParamsGuarded(calm: bool, ps: seq<Param>) {
    ps == [] || (ParamGuarded(calm, ps[0]) && ParamsGuarded(calm, ps[1..]))
  }

  predicate ParamGuarded(calm: bool, p: Param) {
    PatternGuarded(calm, p.pattern) && OptionalGuarded(calm, p.default)
  }

  predicate PatternGuarded(calm: bool, p: Pattern) {
    match p
    case Bind(_) => true
    case Default(inner, e) => PatternGuarded(calm, inner) && ExprGuarded(calm, e)
    case Parts(ps) => PartsGuarded(calm, ps)
  }

  predicate PartsGuarded(calm: bool, ps: seq<Pattern>) {
    ps == [] || (PatternGuarded(calm, ps[0]) && PartsGuarded(calm, ps[1..]))
  }

  predicate StmtGuarded(calm: bool, s: Stmt) {
    match s
    case Empty | Break | Continue => true
    case VarDecl(p, e) => PatternGuarded(calm, p) && ExprGuarded(calm, e)
    case Eval(e) => ExprGuarded(calm, e)
    case Return(e) => ExprGuarded(calm, e)
    case Throw(e) => ExprGuarded(calm, e)
    case Block(body) => ListGuarded(calm, body)
    case If(c, a, b) => ExprGuarded(calm, c) && StmtGuarded(calm, a) && StmtGuarded(calm, b)
    case While(c, loop) => ExprGuarded(calm, c) && StmtGuarded(calm, loop)
    case For(start, c, u, loop) =>
      && StmtGuarded(calm, start) && OptionalGuarded(calm, c) && OptionalGuarded(calm, u) && StmtGuarded(calm, loop)
    case ForEach(p, e, loop) => PatternGuarded(calm, p) && ExprGuarded(calm, e) && StmtGuarded(calm, loop)
    case FunctionDecl(_, code) => CodeGuarded(calm, code)
    case Try(tried, handler, finalizer) =>
      && ListGuarded(calm, tried) && (handler.Some? || finalizer.Some? ==> ListQuiet(calm, false, tried))
      && (handler.Some? ==>
            && HandlerGuarded(calm, handler.value)
            && (finalizer.Some? ==> HandlerQuiet(calm, false, handler.value)))
      && (finalizer.Some? ==> FinalizerGuarded(calm, finalizer.value))
  }

  predicate HandlerGuarded(calm: bool, h: Handler) {
    ListGuarded(calm, h.handling)
  }

  predicate FinalizerGuarded(calm: bool, f: Finalizer) {
    ListGuarded(calm, f.finals)
  }

  predicate ListGuarded(calm: bool, ss: seq<Stmt>) {
    ss == [] || (StmtGuarded(calm, ss[0]) && ListGuarded(calm, ss[1..]))
  }

  /** What a reader of the script can check before running it. */
  predicate Guarded(script: seq<Stmt>) {
    ListGuarded(true, script) || ListGuarded(false, script)
  }

  /** Code without `for` may be read as code that could have one. */
  lemma {:induction false} StillQuiet(calm: bool, s: Stmt)
    requires StmtQuiet(calm, false, s)
    ensures StmtQuiet(calm, true, s)
  {
    match s
    case Block(body) => ListStillQuiet(calm, body);
    case If(_, a, b) =>
      StillQuiet(calm, a);
      StillQuiet(calm, b);
    case While(_, loop) => StillQuiet(calm, loop);
    case Try(tried, handler, finalizer) =>
      ListStillQuiet(calm, tried);
      if handler.Some? {
        HandlerStillQuiet(calm, handler.value);
      }
      if finalizer.Some? {
        FinalizerStillQuiet(calm, finalizer.value);
      }
    case _ =>
  }

  lemma {:induction false} HandlerStillQuiet(calm: bool, h: Handler)
    requires HandlerQuiet(calm, false, h)
    ensures HandlerQuiet(calm, true, h)
  {
    ListStillQuiet(calm, h.handling);
  }

  lemma {:induction false} FinalizerStillQuiet(calm: bool, f: Finalizer)
    requires FinalizerQuiet(calm, false, f)
    ensures FinalizerQuiet(calm, true, f)
  {
    ListStillQuiet(calm, f.finals);
  }

  lemma {:induction false} ListStillQuiet(calm: bool, ss: seq<Stmt>)
    requires ListQuiet(calm, false, ss)
    ensures ListQuiet(calm, true, ss)
  {
    if ss != [] {
      StillQuiet(calm, ss[0]);
      ListStillQuiet(calm, ss[1..]);
    }
  }
}
