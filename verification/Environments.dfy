/** The interpreter's environment: frames that point at the frame around them. */
module Environments {
  import opened Scripts
  import S = Syntax

  datatype Value = Undefined | Plain(n: int) | Closure(code: Code, env: nat)

  /** `scope` holds the names the resolver knows of around the code that runs in the frame. Nothing reads it when a
      program runs; the proofs do. */
  datatype Frame = Frame(bindings: map<Name, Value>, tdz: set<Name>, parent: Maybe<nat>, scope: set<Name>)

  datatype Lookup = Found(value: Value) | Tdz | Missing

  /** Every frame but the root points at an earlier one. */
  predicate Linked(frames: seq<Frame>) {
    forall f :: 0 <= f < |frames| ==> frames[f].parent.Some? ==> frames[f].parent.value < f
  }

  datatype Env = Env(frames: seq<Frame>, current: nat) {
    predicate Valid() {
      current < |frames| && Linked(frames)
    }
  }

  // ---- Operations ----

  function PushScope(e: Env, names: set<Name>): (r: Env)
    requires e.Valid()
    ensures r.Valid()
  {
    Env(e.frames + [Frame(map[], {}, S.Some(e.current), e.frames[e.current].scope + names)], |e.frames|)
  }

  function PopScope(e: Env): (r: Env)
    requires e.Valid()
    ensures r.Valid()
  {
    var p := e.frames[e.current].parent;
    if p.Some? then e.(current := p.value) else e
  }

  function ForkCurrent(e: Env): (r: Env)
    requires e.Valid()
    ensures r.Valid()
  {
    Env(e.frames + [e.frames[e.current]], |e.frames|)
  }

  function Define(e: Env, x: Name, v: Value): (r: Env)
    requires e.Valid()
    ensures r.Valid()
  {
    var f := e.frames[e.current];
    e.(frames := e.frames[e.current := f.(bindings := f.bindings[x := v], tdz := f.tdz - {x})])
  }

  function MarkTdz(e: Env, names: set<Name>): (r: Env)
    requires e.Valid()
    ensures r.Valid()
  {
    var f := e.frames[e.current];
    e.(frames := e.frames[e.current := f.(tdz := f.tdz + (names - f.bindings.Keys))])
  }

  function FrameLookup(f: Frame, x: Name): Lookup {
    if x in f.bindings then Found(f.bindings[x]) else if x in f.tdz then Tdz else Missing
  }

  /** The slow lookup, along the whole chain. */
  function LookupFrom(frames: seq<Frame>, f: nat, x: Name): Lookup
    requires Linked(frames) && f < |frames|
    decreases f
  {
    var here := FrameLookup(frames[f], x);
    if here != Missing || frames[f].parent.None? then here else LookupFrom(frames, frames[f].parent.value, x)
  }

  function LookupRead(e: Env, x: Name): Lookup
    requires e.Valid()
  {
    LookupFrom(e.frames, e.current, x)
  }

  /** The fast lookup: the current frame, then, at offsets the resolver recorded, the root. */
  function FastRead(e: Env, x: Name, at: nat, recorded: set<nat>): Lookup
    requires e.Valid()
  {
    var here := e.frames[e.current].bindings;
    if x in here then Found(here[x])
    else if at in recorded && x in e.frames[0].bindings then Found(e.frames[0].bindings[x])
    else LookupRead(e, x)
  }

  /** The frame whose binding an assignment changes; an unreadable variable is passed over. */
  function Holder(frames: seq<Frame>, f: nat, x: Name): (r: Maybe<nat>)
    requires Linked(frames) && f < |frames|
    ensures r.Some? ==> r.value <= f && x in frames[r.value].bindings
    decreases f
  {
    if x in frames[f].bindings then S.Some(f)
    else if frames[f].parent.None? then S.None
    else Holder(frames, frames[f].parent.value, x)
  }

  function Set(e: Env, x: Name, v: Value): (r: Maybe<Env>)
    requires e.Valid()
    ensures r.Some? ==> r.value.Valid() && r.value.current == e.current && |r.value.frames| == |e.frames|
  {
    var h := Holder(e.frames, e.current, x);
    if h.None? then S.None
    else
      var f := e.frames[h.value];
      S.Some(e.(frames := e.frames[h.value := f.(bindings := f.bindings[x := v])]))
  }

  // ---- The environment as it runs ----

  class Environment {
    var frames: seq<Frame>
    var current: nat

    constructor ()
      ensures frames == [Frame(map[], {}, S.None, {})] && current == 0
    {
      frames, current := [Frame(map[], {}, S.None, {})], 0;
    }

    ghost function Now(): Env
      reads this
    {
      Env(frames, current)
    }

    method Push(names: set<Name>)
      requires Now().Valid()
      modifies this
      ensures Now() == PushScope(old(Now()), names)
    {
      var frame := Frame(map[], {}, S.Some(current), frames[current].scope + names);
      frames, current := frames + [frame], |frames|;
    }

    method Pop()
      requires Now().Valid()
      modifies this`current
      ensures Now() == PopScope(old(Now()))
    {
      if frames[current].parent.Some? {
        current := frames[current].parent.value;
      }
    }

    method Fork()
      requires Now().Valid()
      modifies this
      ensures Now() == ForkCurrent(old(Now()))
    {
      frames, current := frames + [frames[current]], |frames|;
    }

    method DefineHere(x: Name, v: Value)
      requires Now().Valid()
      modifies this`frames
      ensures Now() == Define(old(Now()), x, v)
    {
      var f := frames[current];
      frames := frames[current := f.(bindings := f.bindings[x := v], tdz := f.tdz - {x})];
    }

    method ReadVariable(x: Name) returns (r: Lookup)
      requires Now().Valid()
      ensures r == LookupRead(Now(), x)
    {
      var f: nat := current;
      while true
        invariant f < |frames| && LookupRead(Now(), x) == LookupFrom(frames, f, x)
        decreases f
      {
        if x in frames[f].bindings {
          return Found(frames[f].bindings[x]);
        }
        if x in frames[f].tdz {
          return Tdz;
        }
        if frames[f].parent.None? {
          return Missing;
        }
        f := frames[f].parent.value;
      }
    }

    method SetVariable(x: Name, v: Value) returns (ok: bool)
      requires Now().Valid()
      modifies this`frames
      ensures ok == Set(old(Now()), x, v).Some?
      ensures Now() == if ok then Set(old(Now()), x, v).value else old(Now())
    {
      var f: nat := current;
      while true
        invariant f < |frames| && frames == old(frames)
        invariant Holder(frames, current, x) == Holder(frames, f, x)
        decreases f
      {
        if x in frames[f].bindings {
          frames := frames[f := frames[f].(bindings := frames[f].bindings[x := v])];
          return true;
        }
        if frames[f].parent.None? {
          return false;
        }
        f := frames[f].parent.value;
      }
    }
  }
}
