/** What the environment's operations do to what is read afterwards, from the current frame and from every other one. */
module EnvironmentLaws {
  import opened Scripts
  import opened Environments
  import S = Syntax

  /** `g` is frame `f` or one of the frames around it. Frames around others have smaller numbers. */
  predicate Around(frames: seq<Frame>, f: nat, g: nat)
    requires Linked(frames) && f < |frames|
    decreases f
  {
    g == f || (frames[f].parent.Some? && Around(frames, frames[f].parent.value, g))
  }

  lemma {:induction false} AroundIsEarlier(frames: seq<Frame>, f: nat, g: nat)
    requires Linked(frames) && f < |frames| && Around(frames, f, g)
    ensures g <= f
    decreases f
  {
    if g != f {
      AroundIsEarlier(frames, frames[f].parent.value, g);
    }
  }

  /** `h` is the innermost frame around `f` that binds `x`. */
  ghost predicate Nearest(frames: seq<Frame>, f: nat, x: Name, h: nat)
    requires Linked(frames) && f < |frames|
  {
    && h < |frames| && Around(frames, f, h) && x in frames[h].bindings
    && forall g :: h < g < |frames| && Around(frames, f, g) ==> x !in frames[g].bindings
  }

  /** Between frame `f` and frame `h` around it, `x` is marked as not readable yet. */
  ghost predicate MarkedBefore(frames: seq<Frame>, f: nat, x: Name, h: nat)
    requires Linked(frames) && f < |frames|
  {
    exists g :: h < g < |frames| && Around(frames, f, g) && x in frames[g].tdz
  }

  // ---- Stores ----

  lemma {:induction false} HolderIsNearest(frames: seq<Frame>, f: nat, x: Name, h: nat)
    requires Linked(frames) && f < |frames| && Nearest(frames, f, x, h)
    ensures Holder(frames, f, x) == S.Some(h)
    decreases f
  {
    AroundIsEarlier(frames, f, h);
    if x !in frames[f].bindings {
      HolderIsNearest(frames, frames[f].parent.value, x, h);
    } else if h != f {
      assert Around(frames, f, f);
    }
  }

  lemma {:induction false} NobodyHolds(frames: seq<Frame>, f: nat, x: Name)
    requires Linked(frames) && f < |frames|
    ensures Holder(frames, f, x).None?
       <==> forall g :: 0 <= g < |frames| && Around(frames, f, g) ==> x !in frames[g].bindings
    decreases f
  {
    assert Around(frames, f, f);
    if x !in frames[f].bindings && frames[f].parent.Some? {
      NobodyHolds(frames, frames[f].parent.value, x);
    }
  }

  /** An assignment fails exactly when no frame around binds the name. */
  lemma StoreFails(e: Env, x: Name, v: Value)
    requires e.Valid()
    ensures Set(e, x, v).None?
       <==> forall g :: 0 <= g < |e.frames| && Around(e.frames, e.current, g) ==> x !in e.frames[g].bindings
  {
    NobodyHolds(e.frames, e.current, x);
  }

  lemma {:induction false} SameAround(a: seq<Frame>, b: seq<Frame>, f: nat, g: nat)
    requires Linked(a) && Linked(b) && |a| <= |b| && f < |a|
    requires (forall k :: 0 <= k < |a| ==> a[k].parent == b[k].parent)
    ensures Around(a, f, g) <==> Around(b, f, g)
    decreases f
  {
    if g != f && a[f].parent.Some? {
      SameAround(a, b, a[f].parent.value, g);
    }
  }

  /** A read sees only the frames around, and of them only the name. */
  lemma {:induction false} ReadDependsOn(a: seq<Frame>, b: seq<Frame>, f: nat, x: Name)
    requires Linked(a) && Linked(b) && |a| <= |b| && f < |a|
    requires (forall k :: 0 <= k < |a| ==> a[k].parent == b[k].parent)
    requires forall g :: 0 <= g < |a| && Around(a, f, g) ==> FrameLookup(a[g], x) == FrameLookup(b[g], x)
    ensures LookupFrom(a, f, x) == LookupFrom(b, f, x)
    decreases f
  {
    assert Around(a, f, f);
    if FrameLookup(a[f], x) == Missing && a[f].parent.Some? {
      ReadDependsOn(a, b, a[f].parent.value, x);
    }
  }

  lemma {:induction false} ReadsThrough(frames: seq<Frame>, f: nat, x: Name, h: nat)
    requires Linked(frames) && f < |frames| && h < |frames| && Around(frames, f, h) && x in frames[h].bindings
    requires forall g :: h < g < |frames| && Around(frames, f, g) ==> x !in frames[g].bindings
    ensures LookupFrom(frames, f, x) == if MarkedBefore(frames, f, x, h) then Tdz else Found(frames[h].bindings[x])
    decreases f
  {
    AroundIsEarlier(frames, f, h);
    assert Around(frames, f, f);
    if f != h {
      var p := frames[f].parent.value;
      AroundIsEarlier(frames, p, h);
      ReadsThrough(frames, p, x, h);
      forall g | h < g < |frames|
        ensures Around(frames, f, g) <==> g == f || Around(frames, p, g)
      {
      }
    } else {
      forall g | h < g < |frames|
        ensures !Around(frames, f, g)
      {
        if Around(frames, f, g) {
          AroundIsEarlier(frames, f, g);
        }
      }
    }
  }

  /** An assignment changes the innermost variable of the name and nothing else: from then on the name reads as the
      value, unless a nearer frame holds it back, and everything else reads as before, from everywhere. */
  lemma StoreIsRead(e: Env, x: Name, v: Value, h: nat)
    requires e.Valid() && Nearest(e.frames, e.current, x, h)
    ensures Set(e, x, v).Some?
    ensures var e' := Set(e, x, v).value;
            && e'.current == e.current && |e'.frames| == |e.frames|
            && FrameLookup(e'.frames[h], x) == Found(v)
            && LookupRead(e', x) == (if MarkedBefore(e.frames, e.current, x, h) then Tdz else Found(v))
            && (forall f, y :: 0 <= f < |e.frames| && (y != x || !Around(e.frames, f, h)) ==>
                  LookupFrom(e'.frames, f, y) == LookupFrom(e.frames, f, y))
            && (forall g :: 0 <= g < |e.frames| && g != h ==> e'.frames[g] == e.frames[g])
  {
    HolderIsNearest(e.frames, e.current, x, h);
    var e' := Set(e, x, v).value;
    forall g | 0 <= g < |e.frames|
      ensures Around(e'.frames, e.current, g) <==> Around(e.frames, e.current, g)
    {
      SameAround(e.frames, e'.frames, e.current, g);
    }
    ReadsThrough(e'.frames, e.current, x, h);
    forall f: nat, y | f < |e.frames| && (y != x || !Around(e.frames, f, h))
      ensures LookupFrom(e'.frames, f, y) == LookupFrom(e.frames, f, y)
    {
      ReadDependsOn(e.frames, e'.frames, f, y);
    }
  }

  // ---- Declarations ----

  /** A declaration makes the name readable in the current frame, whatever it was; everything else reads as before. */
  lemma DeclarationIsRead(e: Env, x: Name, v: Value)
    requires e.Valid()
    ensures var e' := Define(e, x, v);
            && LookupRead(e', x) == Found(v)
            && e'.current == e.current && |e'.frames| == |e.frames|
            && (forall f, y :: 0 <= f < |e.frames| && (y != x || !Around(e.frames, f, e.current)) ==>
                  LookupFrom(e'.frames, f, y) == LookupFrom(e.frames, f, y))
  {
    var e' := Define(e, x, v);
    forall f: nat, y | f < |e.frames| && (y != x || !Around(e.frames, f, e.current))
      ensures LookupFrom(e'.frames, f, y) == LookupFrom(e.frames, f, y)
    {
      ReadDependsOn(e.frames, e'.frames, f, y);
    }
  }

  /** Marked names that the frame does not bind cannot be read; everything else reads as before. */
  lemma MarkIsRead(e: Env, names: set<Name>, y: Name)
    requires e.Valid()
    ensures LookupRead(MarkTdz(e, names), y)
         == if y in names && y !in e.frames[e.current].bindings then Tdz else LookupRead(e, y)
  {
    var e' := MarkTdz(e, names);
    if !(y in names && y !in e.frames[e.current].bindings) {
      ReadDependsOn(e.frames, e'.frames, e.current, y);
    }
  }

  // ---- Scopes ----

  /** Entering a scope changes no read, and what is declared inside is gone behind it. */
  lemma ScopeIsRead(e: Env, names: set<Name>, x: Name, v: Value, y: Name)
    requires e.Valid()
    ensures LookupRead(PushScope(e, names), y) == LookupRead(e, y)
    ensures var inner := Define(PushScope(e, names), x, v);
            && LookupRead(inner, y) == (if y == x then Found(v) else LookupRead(e, y))
            && PopScope(inner).current == e.current && LookupRead(PopScope(inner), y) == LookupRead(e, y)
  {
    var pushed := PushScope(e, names);
    var inner := Define(pushed, x, v);
    Unchanged(e.frames, pushed.frames, e.current, y);
    DeclarationIsRead(pushed, x, v);
    Unchanged(e.frames, inner.frames, e.current, y);
    assert LookupRead(pushed, y) == LookupFrom(pushed.frames, e.current, y);
  }

  lemma Unchanged(a: seq<Frame>, b: seq<Frame>, f: nat, y: Name)
    requires Linked(a) && Linked(b) && |a| <= |b| && f < |a| && (forall k :: 0 <= k < |a| ==> a[k] == b[k])
    ensures LookupFrom(a, f, y) == LookupFrom(b, f, y)
  {
    ReadDependsOn(a, b, f, y);
  }

  /** A copied frame shows what the original shows; a declaration in the copy, or an assignment to one of its own
      variables, does not show in the original. */
  lemma CopyIsRead(e: Env, x: Name, v: Value, y: Name)
    requires e.Valid()
    ensures var copy := ForkCurrent(e);
            && LookupRead(copy, y) == LookupRead(e, y) && LookupFrom(copy.frames, e.current, y) == LookupRead(e, y)
            && LookupRead(Define(copy, x, v), x) == Found(v)
            && LookupFrom(Define(copy, x, v).frames, e.current, y) == LookupRead(e, y)
            && (x in e.frames[e.current].bindings ==>
                  && Set(copy, x, v).Some? && LookupRead(Set(copy, x, v).value, x) == Found(v)
                  && LookupFrom(Set(copy, x, v).value.frames, e.current, y) == LookupRead(e, y))
  {
    var copy := ForkCurrent(e);
    Unchanged(e.frames, copy.frames, e.current, y);
    Unchanged(e.frames, Define(copy, x, v).frames, e.current, y);
    var f := e.frames[e.current];
    if FrameLookup(f, y) == Missing && f.parent.Some? {
      Unchanged(e.frames, copy.frames, f.parent.value, y);
    }
    if x in f.bindings {
      Unchanged(e.frames, Set(copy, x, v).value.frames, e.current, y);
    }
  }
}
