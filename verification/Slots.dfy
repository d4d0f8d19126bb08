/** How the compiler's slots mirror the scopes of a running program. */
module Slots {
  import opened Syntax
  import opened Values
  import opened Semantics
  import opened Codegen

  /** The last slot of scope `d` named `x`: a scope that declares a name twice uses only the last slot. */
  function LastAt(locals: seq<Local>, d: nat, x: Name): (r: Option<nat>)
    ensures r.Some? ==> r.value < |locals| && locals[r.value].depth == d && locals[r.value].name == Some(x)
    ensures forall j :: (if r.Some? then r.value + 1 else 0) <= j < |locals| ==>
                          !(locals[j].depth == d && locals[j].name == Some(x))
  {
    if locals == [] then None
    else
      var l := locals[|locals| - 1];
      if l.depth == d && l.name == Some(x) then Some(|locals| - 1) else LastAt(locals[..|locals| - 1], d, x)
  }

  lemma LastAtSame(a: seq<Local>, b: seq<Local>, d: nat, x: Name)
    requires |a| <= |b|
    requires forall i :: 0 <= i < |a| ==> a[i].depth == b[i].depth && a[i].name == b[i].name
    requires forall i :: |a| <= i < |b| ==> !(b[i].depth == d && b[i].name == Some(x))
    ensures LastAt(a, d, x) == LastAt(b, d, x)
  {
    var p, q := LastAt(a, d, x), LastAt(b, d, x);
    assert p.Some? ==> b[p.value].name == Some(x) && b[p.value].depth == d;
    assert q.Some? ==> q.value < |a| && a[q.value].name == Some(x) && a[q.value].depth == d;
  }

  /** The slots grow with the scopes; only the first, nameless one belongs to no scope. */
  ghost predicate Shaped(locals: seq<Local>, depth: nat) {
    && |locals| > 0 && locals[0].name.None? && locals[0].depth == 0
    && (forall i :: 1 <= i < |locals| ==> 1 <= locals[i].depth <= depth)
    && (forall i, j :: 0 <= i < j < |locals| ==> locals[i].depth <= locals[j].depth)
  }

  /** Scope `k` holds `x` exactly when some slot of that scope does, with the same value; a slot is taken for
      initialized exactly when its cell is ready to be read. */
  ghost predicate CellMatches(locals: seq<Local>, stack: seq<Value>, frames: seq<Frame>, k: nat, x: Name)
    requires |stack| == |locals| && k < |frames|
  {
    match LastAt(locals, k + 1, x)
    case None => x !in frames[k]
    case Some(i) =>
      && x in frames[k]
      && frames[k][x].value == stack[i]
      && (locals[i].initialized <==> frames[k][x].ready)
  }

  ghost predicate Mirrors(locals: seq<Local>, depth: nat, stack: seq<Value>, frames: seq<Frame>) {
    && Shaped(locals, depth)
    && |stack| == |locals| && |frames| == depth
    && forall k: nat, x: Name | k < depth :: CellMatches(locals, stack, frames, k, x)
  }

  /** The slot the compiler picks is the cell the program sees. */
  lemma ResolveIsHolder(locals: seq<Local>, depth: nat, stack: seq<Value>, frames: seq<Frame>, x: Name)
    requires Mirrors(locals, depth, stack, frames)
    ensures match ResolveLocal(locals, x)
            case None => Holder(frames, x) == 0
            case Some(i) =>
              && 0 < locals[i].depth <= depth
              && Holder(frames, x) == locals[i].depth
              && LastAt(locals, locals[i].depth, x) == Some(i)
  {
    var k := Holder(frames, x);
    if k > 0 {
      assert CellMatches(locals, stack, frames, k - 1, x);
    }
    match ResolveLocal(locals, x)
    case None =>
    case Some(i) =>
      var d := locals[i].depth;
      assert LastAt(locals, d, x) == Some(i);
      assert CellMatches(locals, stack, frames, d - 1, x);
  }

  lemma MirrorsRead(locals: seq<Local>, depth: nat, stack: seq<Value>, env: Env, x: Name)
    requires Mirrors(locals, depth, stack, env.frames)
    requires GetCode(locals, x).Ok?
    ensures match ResolveLocal(locals, x)
            case None =>
              ReadVar(env, x) == if x in env.globals then Val(env.globals[x].0, env)
                                 else Fail(NotDefined(x), env.globals)
            case Some(i) => ReadVar(env, x) == Val(stack[i], env)
  {
    ResolveIsHolder(locals, depth, stack, env.frames, x);
    if ResolveLocal(locals, x).Some? {
      assert CellMatches(locals, stack, env.frames, locals[ResolveLocal(locals, x).value].depth - 1, x);
    }
  }

  /** Storing through the slot is assigning to the variable. */
  lemma MirrorsWrite(locals: seq<Local>, depth: nat, stack: seq<Value>, env: Env, x: Name, v: Value)
    requires Mirrors(locals, depth, stack, env.frames)
    requires ResolveLocal(locals, x).Some?
    ensures var i := ResolveLocal(locals, x).value;
            var r := AssignVar(Compiled, env, x, v);
            && r.Val? && r.value == v && r.env.globals == env.globals
            && Mirrors(locals, depth, stack[i := v], r.env.frames)
  {
    ResolveIsHolder(locals, depth, stack, env.frames, x);
    var i := ResolveLocal(locals, x).value;
    var frames' := AssignVar(Compiled, env, x, v).env.frames;
    var stack' := stack[i := v];
    forall k: nat, y: Name | k < depth
      ensures CellMatches(locals, stack', frames', k, y)
    {
      assert CellMatches(locals, stack, env.frames, k, y);
    }
  }

  /** A declaration fills the slot reserved for it. */
  lemma MirrorsDeclare(locals: seq<Local>, depth: nat, stack: seq<Value>, env: Env, x: Name, v: Value, isConst: bool)
    requires Mirrors(locals, depth, stack, env.frames)
    requires ResolveLocal(locals, x).Some? && locals[ResolveLocal(locals, x).value].depth == depth
    ensures var i := ResolveLocal(locals, x).value;
            var env' := DeclareVar(Compiled, env, x, v, isConst);
            && env'.globals == env.globals
            && Mirrors(MarkInitialized(locals, x), depth, stack[i := v], env'.frames)
  {
    ResolveIsHolder(locals, depth, stack, env.frames, x);
    var i := ResolveLocal(locals, x).value;
    var locals' := MarkInitialized(locals, x);
    var frames' := DeclareVar(Compiled, env, x, v, isConst).frames;
    var stack' := stack[i := v];
    forall k: nat, y: Name | k < depth
      ensures CellMatches(locals', stack', frames', k, y)
    {
      assert CellMatches(locals, stack, env.frames, k, y);
      LastAtSame(locals, locals', k + 1, y);
    }
  }

  /** A declaration with no reserved slot takes the next one. */
  lemma MirrorsPush(locals: seq<Local>, depth: nat, stack: seq<Value>, env: Env, x: Name, v: Value, isConst: bool)
    requires Mirrors(locals, depth, stack, env.frames)
    requires depth > 0
    ensures var env' := DeclareVar(Compiled, env, x, v, isConst);
            && env'.globals == env.globals
            && Mirrors(locals + [Local(Some(x), depth, isConst, true)], depth, stack + [v], env'.frames)
  {
    var locals' := locals + [Local(Some(x), depth, isConst, true)];
    var frames' := DeclareVar(Compiled, env, x, v, isConst).frames;
    forall k: nat, y: Name | k < depth
      ensures CellMatches(locals', stack + [v], frames', k, y)
    {
      assert CellMatches(locals, stack, env.frames, k, y);
      assert locals'[..|locals'| - 1] == locals;
    }
  }

  /** New slots for a deeper scope leave the cells of the enclosing scopes alone. */
  lemma MirrorsDeeper(locals: seq<Local>, depth: nat, stack: seq<Value>, frames: seq<Frame>,
                      more: seq<Local>, vals: seq<Value>, top: Frame)
    requires Mirrors(locals, depth, stack, frames)
    requires |more| == |vals| && forall i :: 0 <= i < |more| ==> more[i].depth == depth + 1
    ensures Shaped(locals + more, depth + 1)
    ensures forall k: nat, y: Name | k < depth :: CellMatches(locals + more, stack + vals, frames + [top], k, y)
  {
    forall k: nat, y: Name | k < depth
      ensures CellMatches(locals + more, stack + vals, frames + [top], k, y)
    {
      assert CellMatches(locals, stack, frames, k, y);
      LastAtSame(locals, locals + more, k + 1, y);
    }
  }

  /** The compiler's temporaries: slots no program can name. */
  function Nameless(n: nat, d: nat): (r: seq<Local>)
    ensures |r| == n && forall k :: 0 <= k < n ==> r[k] == Local(None, d, false, true)
  {
    seq(n, _ => Local(None, d, false, true))
  }

  /** Entering a scope that holds a nameless temporary, or nothing. */
  lemma MirrorsEnter(locals: seq<Local>, depth: nat, stack: seq<Value>, env: Env, temps: seq<Value>)
    requires Mirrors(locals, depth, stack, env.frames)
    ensures Mirrors(locals + Nameless(|temps|, depth + 1), depth + 1, stack + temps, EnterScope(env).frames)
  {
    var ts := Nameless(|temps|, depth + 1);
    MirrorsDeeper(locals, depth, stack, env.frames, ts, temps, map[]);
    forall y: Name
      ensures CellMatches(locals + ts, stack + temps, env.frames + [map[]], depth, y)
    {
      LastAtSame(locals, locals + ts, depth + 1, y);
    }
  }

  function Blanks(n: nat): (r: seq<Value>)
    ensures |r| == n && forall k :: 0 <= k < n ==> r[k] == Undefined
  {
    seq(n, _ => Undefined)
  }

  lemma {:induction false} ReservedNames(stmts: seq<Stmt>, d: nat, x: Name)
    ensures x in DeclaredNames(stmts) <==>
              exists k :: 0 <= k < |Reserved(stmts, d)| && Reserved(stmts, d)[k].name == Some(x)
  {
    if stmts != [] {
      var rest := Reserved(stmts[1..], d);
      var all := Reserved(stmts, d);
      ReservedNames(stmts[1..], d, x);
      assert stmts == [stmts[0]] + stmts[1..];
      assert forall s :: s in stmts <==> s == stmts[0] || s in stmts[1..];
      if stmts[0].VarDecl? {
        assert all[0].name == Some(stmts[0].name);
        assert forall k :: 0 <= k < |rest| ==> all[k + 1] == rest[k];
        assert forall k :: 1 <= k < |all| ==> all[k] == rest[k - 1];
      } else {
        assert all == rest;
      }
    }
  }

  lemma MirrorsBlockTop(locals: seq<Local>, depth: nat, stack: seq<Value>, frames: seq<Frame>, stmts: seq<Stmt>,
                        y: Name)
    requires Shaped(locals, depth) && |stack| == |locals| && |frames| == depth
    ensures var rs := Reserved(stmts, depth + 1);
            CellMatches(locals + rs, stack + Blanks(|rs|), frames + [UnreadyCells(DeclaredNames(stmts))], depth, y)
  {
    var rs := Reserved(stmts, depth + 1);
    var all := locals + rs;
    ReservedNames(stmts, depth + 1, y);
    match LastAt(all, depth + 1, y)
    case None =>
      assert forall j :: 0 <= j < |rs| ==> all[|locals| + j] == rs[j];
    case Some(i) =>
      assert i >= |locals| && rs[i - |locals|].name == Some(y);
  }

  /** Entering a block: one undefined slot for every declaration, one cell for every declared name. */
  lemma MirrorsBlock(locals: seq<Local>, depth: nat, stack: seq<Value>, env: Env, stmts: seq<Stmt>)
    requires Mirrors(locals, depth, stack, env.frames)
    ensures var rs := Reserved(stmts, depth + 1);
            Mirrors(locals + rs, depth + 1, stack + Blanks(|rs|), EnterBlock(env, stmts).frames)
  {
    var rs := Reserved(stmts, depth + 1);
    var top := UnreadyCells(DeclaredNames(stmts));
    var us := Blanks(|rs|);
    MirrorsDeeper(locals, depth, stack, env.frames, rs, us, top);
    forall y: Name
      ensures CellMatches(locals + rs, stack + us, env.frames + [top], depth, y)
    {
      MirrorsBlockTop(locals, depth, stack, env.frames, stmts, y);
    }
  }

  /** Cutting back to the slots of the outermost `d` scopes. */
  lemma MirrorsCut(locals: seq<Local>, depth: nat, stack: seq<Value>, frames: seq<Frame>, n: nat, d: nat)
    requires Mirrors(locals, depth, stack, frames)
    requires 0 < n <= |locals| && d <= depth
    requires forall i :: 0 <= i < n ==> locals[i].depth <= d
    requires forall i :: n <= i < |locals| ==> locals[i].depth > d
    ensures Mirrors(locals[..n], d, stack[..n], frames[..d])
  {
    forall k: nat, y: Name | k < d
      ensures CellMatches(locals[..n], stack[..n], frames[..d], k, y)
    {
      assert CellMatches(locals, stack, frames, k, y);
      LastAtSame(locals[..n], locals, k + 1, y);
    }
  }
}
