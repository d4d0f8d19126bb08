/** How names inside nested functions are resolved to locals, upvalues and globals while the functions are compiled. */
module Captures {
  import opened Syntax
  import opened Codegen

  /** Where a closure takes a captured variable from: a slot of the function around it, or an upvalue of that
      function. */
  datatype UpvalueDesc = UpvalueDesc(fromParentLocal: bool, index: nat)

  /** A function being compiled: its slots, which of them are captured, and its upvalues. */
  datatype Fn = Fn(locals: seq<Local>, captured: set<nat>, upvalues: seq<UpvalueDesc>)

  datatype VarLoc = LocalVar(slot: nat, isConst: bool) | UpvalueVar(slot: nat) | GlobalVar

  /** A slot of one of the open functions, counted from the outermost. */
  datatype Binding = Binding(fn: nat, slot: nat)

  // ---- Lexical binding, without upvalues ----

  /** The innermost function around `f` that has a local of that name. */
  function Owner(fs: seq<Fn>, f: nat, x: Name): (g: Option<nat>)
    requires f <= |fs|
    ensures g.Some? ==> g.value < f && ResolveLocal(fs[g.value].locals, x).Some?
    ensures forall k :: (if g.Some? then g.value + 1 else 0) <= k < f ==> ResolveLocal(fs[k].locals, x).None?
  {
    if f == 0 then None
    else if ResolveLocal(fs[f - 1].locals, x).Some? then Some(f - 1)
    else Owner(fs, f - 1, x)
  }

  // ---- Upvalues ----

  predicate DescOk(fs: seq<Fn>, f: nat, d: UpvalueDesc)
    requires f < |fs|
  {
    && f > 0
    && (d.fromParentLocal ==> d.index < |fs[f - 1].locals| && d.index in fs[f - 1].captured)
    && (!d.fromParentLocal ==> d.index < |fs[f - 1].upvalues|)
  }

  predicate Distinct(ds: seq<UpvalueDesc>) {
    forall i, j :: 0 <= i < j < |ds| ==> ds[i] != ds[j]
  }

  predicate Valid(fs: seq<Fn>) {
    && (forall f, k :: 0 <= f < |fs| && 0 <= k < |fs[f].upvalues| ==> DescOk(fs, f, fs[f].upvalues[k]))
    && (forall f :: 0 <= f < |fs| ==> Distinct(fs[f].upvalues))
    && (forall f, i :: 0 <= f < |fs| && i in fs[f].captured ==> i < |fs[f].locals|)
  }

  /** The local an upvalue stands for, found by following the descriptors outwards. */
  function Chase(fs: seq<Fn>, f: nat, slot: nat): (b: Binding)
    requires Valid(fs) && f < |fs| && slot < |fs[f].upvalues|
    ensures b.fn < f && b.slot < |fs[b.fn].locals| && b.slot in fs[b.fn].captured
    decreases f
  {
    var d := fs[f].upvalues[slot];
    assert DescOk(fs, f, d);
    if d.fromParentLocal then Binding(f - 1, d.index) else Chase(fs, f - 1, d.index)
  }

  /** The position of `d`, or where it will be once appended. */
  function SlotOf(ds: seq<UpvalueDesc>, d: UpvalueDesc): (r: nat)
    ensures r <= |ds| && (r < |ds| ==> ds[r] == d) && d !in ds[..r]
  {
    if ds == [] || ds[0] == d then 0 else 1 + SlotOf(ds[1..], d)
  }

  function WithUpvalue(fs: seq<Fn>, f: nat, d: UpvalueDesc): seq<Fn>
    requires f < |fs|
  {
    if SlotOf(fs[f].upvalues, d) < |fs[f].upvalues| then fs else fs[f := fs[f].(upvalues := fs[f].upvalues + [d])]
  }

  function WithCaptured(fs: seq<Fn>, f: nat, slot: nat): seq<Fn>
    requires f < |fs|
  {
    fs[f := fs[f].(captured := fs[f].captured + {slot})]
  }

  datatype Resolution = Resolution(fs: seq<Fn>, slot: Option<nat>)

  function Resolve(fs: seq<Fn>, f: nat, x: Name): (r: Resolution)
    requires f < |fs|
    ensures |r.fs| == |fs|
    decreases f
  {
    if f == 0 then Resolution(fs, None)
    else
      var local := ResolveLocal(fs[f - 1].locals, x);
      if local.Some? then
        var d := UpvalueDesc(true, local.value);
        Resolution(WithUpvalue(WithCaptured(fs, f - 1, local.value), f, d), Some(SlotOf(fs[f].upvalues, d)))
      else
        var up := Resolve(fs, f - 1, x);
        if up.slot.None? then up
        else
          var d := UpvalueDesc(false, up.slot.value);
          Resolution(WithUpvalue(up.fs, f, d), Some(SlotOf(up.fs[f].upvalues, d)))
  }

  /** Locals are as before, captured marks and upvalues have only been added, and none beyond function `f`. */
  predicate Grows(a: seq<Fn>, b: seq<Fn>, f: nat) {
    && |a| == |b|
    && forall k :: 0 <= k < |a| ==>
         && b[k].locals == a[k].locals && a[k].captured <= b[k].captured && a[k].upvalues <= b[k].upvalues
         && (k > f ==> b[k] == a[k]) && (k == f ==> b[k].captured == a[k].captured)
  }

  /** Adding captured marks and upvalues leaves every upvalue standing for the local it stood for. */
  lemma {:induction false} ChaseKept(a: seq<Fn>, b: seq<Fn>, f: nat, slot: nat)
    requires Valid(a) && Valid(b) && f < |a| && f < |b| && slot < |a[f].upvalues|
    requires forall k :: 0 <= k <= f ==> a[k].upvalues <= b[k].upvalues
    ensures Chase(b, f, slot) == Chase(a, f, slot)
    decreases f
  {
    var d := a[f].upvalues[slot];
    assert b[f].upvalues[slot] == d && DescOk(a, f, d);
    if !d.fromParentLocal {
      ChaseKept(a, b, f - 1, d.index);
    }
  }

  lemma CapturedKeepsValid(fs: seq<Fn>, f: nat, slot: nat)
    requires Valid(fs) && f < |fs| && slot < |fs[f].locals|
    ensures Valid(WithCaptured(fs, f, slot))
  {
    var gs := WithCaptured(fs, f, slot);
    forall g, k | 0 <= g < |gs| && 0 <= k < |gs[g].upvalues|
      ensures DescOk(gs, g, gs[g].upvalues[k])
    {
      assert DescOk(fs, g, fs[g].upvalues[k]);
    }
  }

  lemma UpvalueKeepsValid(fs: seq<Fn>, f: nat, d: UpvalueDesc)
    requires Valid(fs) && f < |fs| && DescOk(fs, f, d)
    ensures Valid(WithUpvalue(fs, f, d))
    ensures var gs, slot := WithUpvalue(fs, f, d), SlotOf(fs[f].upvalues, d);
            slot < |gs[f].upvalues| && gs[f].upvalues[slot] == d
  {
    var gs := WithUpvalue(fs, f, d);
    forall g, k | 0 <= g < |gs| && 0 <= k < |gs[g].upvalues|
      ensures DescOk(gs, g, gs[g].upvalues[k])
    {
      if k < |fs[g].upvalues| {
        assert DescOk(fs, g, fs[g].upvalues[k]);
      }
    }
  }

  /** A descriptor added to function `f` is an upvalue that stands for what the descriptor names. */
  lemma NewUpvalueDenotes(a: seq<Fn>, fs: seq<Fn>, f: nat, d: UpvalueDesc)
    requires Valid(fs) && 0 < f < |fs| && DescOk(fs, f, d) && Grows(a, fs, f)
    ensures var gs, slot := WithUpvalue(fs, f, d), SlotOf(fs[f].upvalues, d);
            && Valid(gs) && Grows(a, gs, f) && slot < |gs[f].upvalues|
            && Chase(gs, f, slot) == if d.fromParentLocal then Binding(f - 1, d.index) else Chase(fs, f - 1, d.index)
  {
    UpvalueKeepsValid(fs, f, d);
    if !d.fromParentLocal {
      ChaseKept(fs, WithUpvalue(fs, f, d), f - 1, d.index);
    }
  }

  lemma MarkedLocalIsDesc(fs: seq<Fn>, f: nat, slot: nat)
    requires Valid(fs) && 0 < f < |fs| && slot < |fs[f - 1].locals|
    ensures var gs := WithCaptured(fs, f - 1, slot);
            Valid(gs) && Grows(fs, gs, f) && DescOk(gs, f, UpvalueDesc(true, slot)) && gs[f] == fs[f]
  {
    CapturedKeepsValid(fs, f - 1, slot);
  }

  /** An upvalue that is found stands for the lexical binding of the name, which is marked captured; none is found
      exactly when no enclosing function has the name, and then nothing changes. */
  lemma {:induction false} UpvalueDenotesBinding(fs: seq<Fn>, f: nat, x: Name)
    requires Valid(fs) && f < |fs|
    ensures var r := Resolve(fs, f, x);
            && Valid(r.fs) && Grows(fs, r.fs, f)
            && (r.slot.None? <==> Owner(fs, f, x).None?) && (r.slot.None? ==> r.fs == fs)
            && (r.slot.Some? ==>
                  && r.slot.value < |r.fs[f].upvalues|
                  && var g := Owner(fs, f, x).value;
                     Chase(r.fs, f, r.slot.value) == Binding(g, ResolveLocal(fs[g].locals, x).value))
    decreases f
  {
    if f > 0 {
      var local := ResolveLocal(fs[f - 1].locals, x);
      if local.Some? {
        hide Valid, DescOk, Chase, WithUpvalue, WithCaptured, SlotOf;
        MarkedLocalIsDesc(fs, f, local.value);
        NewUpvalueDenotes(fs, WithCaptured(fs, f - 1, local.value), f, UpvalueDesc(true, local.value));
      } else {
        hide Valid, Chase, WithUpvalue, WithCaptured, SlotOf, ResolveLocal;
        UpvalueDenotesBinding(fs, f - 1, x);
        var up := Resolve(fs, f - 1, x);
        if up.slot.Some? {
          NewUpvalueDenotes(fs, up.fs, f, UpvalueDesc(false, up.slot.value));
        }
      }
    }
  }

  /** The only slot newly marked captured is the binding's. */
  lemma {:induction false} CapturesOnlyTheBinding(fs: seq<Fn>, f: nat, x: Name)
    requires Valid(fs) && f < |fs|
    ensures var r, g := Resolve(fs, f, x), Owner(fs, f, x);
            forall k :: 0 <= k < |fs| ==>
              r.fs[k].captured ==
                if g == Some(k) then fs[k].captured + {ResolveLocal(fs[k].locals, x).value} else fs[k].captured
    decreases f
  {
    hide Valid, SlotOf, Distinct, DescOk;
    if f > 0 && ResolveLocal(fs[f - 1].locals, x).None? {
      CapturesOnlyTheBinding(fs, f - 1, x);
    }
  }

  /** Resolution from function `f` neither reads nor writes the functions inside `f`. */
  lemma {:induction false} InnerUntouched(fs: seq<Fn>, f: nat, x: Name, k: nat, v: Fn)
    requires f < k < |fs|
    ensures var r := Resolve(fs, f, x);
            Resolve(fs[k := v], f, x) == Resolution(r.fs[k := v], r.slot)
    decreases f
  {
    if f > 0 {
      var local := ResolveLocal(fs[f - 1].locals, x);
      if local.Some? {
        var marked := WithCaptured(fs, f - 1, local.value);
        assert WithCaptured(fs[k := v], f - 1, local.value) == marked[k := v];
        UpvalueElsewhere(marked, f, UpvalueDesc(true, local.value), k, v);
      } else {
        InnerUntouched(fs, f - 1, x, k, v);
        var up := Resolve(fs, f - 1, x);
        if up.slot.Some? {
          UpvalueElsewhere(up.fs, f, UpvalueDesc(false, up.slot.value), k, v);
        }
      }
    }
  }

  lemma UpvalueElsewhere(fs: seq<Fn>, f: nat, d: UpvalueDesc, k: nat, v: Fn)
    requires f < k < |fs|
    ensures WithUpvalue(fs[k := v], f, d) == WithUpvalue(fs, f, d)[k := v]
  {
  }

  /** Resolving the same name again finds the same upvalue and changes nothing. */
  lemma {:induction false} ResolveTwice(fs: seq<Fn>, f: nat, x: Name)
    requires Valid(fs) && f < |fs|
    ensures var r := Resolve(fs, f, x);
            Resolve(r.fs, f, x) == r
    decreases f
  {
    hide Valid, Chase, DescOk, WithUpvalue, WithCaptured, SlotOf, Owner;
    UpvalueDenotesBinding(fs, f, x);
    var r := Resolve(fs, f, x);
    if f > 0 {
      var local := ResolveLocal(fs[f - 1].locals, x);
      assert r.fs[f - 1].locals == fs[f - 1].locals;
      if local.Some? {
        var d := UpvalueDesc(true, local.value);
        MarkedTwice(fs, f, local.value, d);
      } else {
        var up := Resolve(fs, f - 1, x);
        if up.slot.Some? {
          var d := UpvalueDesc(false, up.slot.value);
          ResolveTwice(fs, f - 1, x);
          InnerUntouched(up.fs, f - 1, x, f, r.fs[f]);
          UpvalueTwice(up.fs, f, d);
        }
      }
    }
  }

  lemma MarkedTwice(fs: seq<Fn>, f: nat, slot: nat, d: UpvalueDesc)
    requires 0 < f < |fs|
    ensures var gs := WithUpvalue(WithCaptured(fs, f - 1, slot), f, d);
            && WithUpvalue(WithCaptured(gs, f - 1, slot), f, d) == gs
            && SlotOf(gs[f].upvalues, d) == SlotOf(fs[f].upvalues, d)
  {
    var gs := WithUpvalue(WithCaptured(fs, f - 1, slot), f, d);
    assert gs[f - 1].captured + {slot} == gs[f - 1].captured;
    assert WithCaptured(gs, f - 1, slot) == gs;
    UpvalueTwice(WithCaptured(fs, f - 1, slot), f, d);
  }

  lemma UpvalueTwice(fs: seq<Fn>, f: nat, d: UpvalueDesc)
    requires f < |fs|
    ensures var gs := WithUpvalue(fs, f, d);
            WithUpvalue(gs, f, d) == gs && gs == fs[f := gs[f]]
            && SlotOf(gs[f].upvalues, d) == SlotOf(fs[f].upvalues, d)
  {
    SlotFound(fs[f].upvalues, d);
  }

  lemma {:induction false} SlotFound(ds: seq<UpvalueDesc>, d: UpvalueDesc)
    ensures var slot := SlotOf(ds, d);
            SlotOf(if slot < |ds| then ds else ds + [d], d) == slot
  {
    if ds != [] && ds[0] != d {
      SlotFound(ds[1..], d);
      assert (ds + [d])[1..] == ds[1..] + [d];
    }
  }

  // ---- A variable reference ----

  function ResolveVar(fs: seq<Fn>, x: Name): (seq<Fn>, VarLoc)
    requires fs != []
  {
    var top := |fs| - 1;
    var local := ResolveLocal(fs[top].locals, x);
    if local.Some? then (fs, LocalVar(local.value, fs[top].locals[local.value].isConst))
    else
      var r := Resolve(fs, top, x);
      (r.fs, if r.slot.Some? then UpvalueVar(r.slot.value) else GlobalVar)
  }

  /** A reference in the innermost function goes to the innermost function that has the name, and to its innermost local
      of that name; it is global exactly if no function has it. */
  lemma ReferencesAreLexical(fs: seq<Fn>, x: Name)
    requires Valid(fs) && fs != []
    ensures var top, g := |fs| - 1, Owner(fs, |fs|, x);
            var (fs', loc) := ResolveVar(fs, x);
            && Valid(fs') && Grows(fs, fs', top)
            && (loc.GlobalVar? <==> g.None?)
            && (loc.LocalVar? <==> g == Some(top))
            && (loc.LocalVar? ==>
                  && ResolveLocal(fs[top].locals, x) == Some(loc.slot)
                  && (loc.isConst <==> fs[top].locals[loc.slot].isConst))
            && (loc.UpvalueVar? ==>
                  && loc.slot < |fs'[top].upvalues|
                  && Chase(fs', top, loc.slot) == Binding(g.value, ResolveLocal(fs[g.value].locals, x).value))
  {
    hide Valid, Chase, DescOk, Resolve, Grows;
    GrowsRefl(fs, |fs| - 1);
    UpvalueDenotesBinding(fs, |fs| - 1, x);
  }

  lemma GrowsRefl(fs: seq<Fn>, f: nat)
    ensures Grows(fs, fs, f)
  {
  }

  // ---- Whole compilations ----

  /** What the compiler does to its open functions. Only the innermost one gains, loses or initializes locals. */
  datatype Action =
    | Enter(receiver: Option<Name>)
    | Leave
    | Declare(local: Local)
    | Drop
    | Initialize(name: Name)
    | Refer(name: Name)

  predicate Enabled(fs: seq<Fn>, a: Action) {
    fs != [] && (a.Leave? ==> |fs| > 1) && (a.Drop? ==> |fs[|fs| - 1].locals| > 1)
  }

  function Apply(fs: seq<Fn>, a: Action): seq<Fn>
    requires Enabled(fs, a)
  {
    var top := |fs| - 1;
    var t := fs[top];
    match a
    case Enter(receiver) => fs + [Fn([Local(receiver, 0, false, true)], {}, [])]
    case Leave => fs[..top]
    case Declare(l) => fs[top := t.(locals := t.locals + [l])]
    case Drop => fs[top := t.(locals := t.locals[..|t.locals| - 1], captured := t.captured - {|t.locals| - 1})]
    case Initialize(x) => fs[top := t.(locals := MarkInitialized(t.locals, x))]
    case Refer(x) => ResolveVar(fs, x).0
  }

  lemma ApplyKeepsValid(fs: seq<Fn>, a: Action)
    requires Valid(fs) && Enabled(fs, a)
    ensures Valid(Apply(fs, a)) && Apply(fs, a) != []
  {
    var top, gs := |fs| - 1, Apply(fs, a);
    if a.Refer? {
      ReferencesAreLexical(fs, a.name);
    } else {
      forall g, k | 0 <= g < |gs| && 0 <= k < |gs[g].upvalues|
        ensures DescOk(gs, g, gs[g].upvalues[k])
      {
        assert DescOk(fs, g, fs[g].upvalues[k]);
      }
    }
  }

  /** The actions can be taken one after the other, and function `f` is never left. */
  predicate Runs(fs: seq<Fn>, actions: seq<Action>, f: nat)
    decreases |actions|
  {
    actions == [] ||
    (Enabled(fs, actions[0]) && (actions[0].Leave? ==> |fs| > f + 1) && Runs(Apply(fs, actions[0]), actions[1..], f))
  }

  function After(fs: seq<Fn>, actions: seq<Action>, f: nat): seq<Fn>
    requires Runs(fs, actions, f)
    decreases |actions|
  {
    if actions == [] then fs else After(Apply(fs, actions[0]), actions[1..], f)
  }

  lemma StepKeepsEnclosing(fs: seq<Fn>, a: Action, f: nat)
    requires Valid(fs) && Enabled(fs, a) && f < |fs| && (a.Leave? ==> |fs| > f + 1)
    ensures var gs := Apply(fs, a);
            f < |gs| && forall k :: 0 <= k <= f ==>
              && fs[k].upvalues <= gs[k].upvalues
              && (k < f ==> gs[k].locals == fs[k].locals && fs[k].captured <= gs[k].captured)
  {
    if a.Refer? {
      ReferencesAreLexical(fs, a.name);
    }
  }

  /** As long as a function is being compiled, whatever else happens, its upvalues stand for the same locals of the
      functions around it, and those locals are the same and stay marked captured. */
  lemma {:induction false} SlotsKeepTheirMeaning(fs: seq<Fn>, actions: seq<Action>, f: nat, slot: nat)
    requires Valid(fs) && f < |fs| && slot < |fs[f].upvalues| && Runs(fs, actions, f)
    ensures var gs := After(fs, actions, f);
            && Valid(gs) && f < |gs| && slot < |gs[f].upvalues|
            && Chase(gs, f, slot) == Chase(fs, f, slot)
            && forall k :: 0 <= k < f ==> gs[k].locals == fs[k].locals && fs[k].captured <= gs[k].captured
    decreases |actions|
  {
    if actions != [] {
      var gs := Apply(fs, actions[0]);
      ApplyKeepsValid(fs, actions[0]);
      StepKeepsEnclosing(fs, actions[0], f);
      ChaseKept(fs, gs, f, slot);
      SlotsKeepTheirMeaning(gs, actions[1..], f, slot);
    }
  }

  // ---- What closures hold when the program runs ----

  /** The variables a running function sees: the cells of its slots and of its upvalues. */
  datatype Frame = Frame(slots: seq<nat>, upvalues: seq<nat>)

  /** The upvalues of a closure made in `parent`. */
  function Closed(ds: seq<UpvalueDesc>, parent: Frame): seq<nat>
    requires forall d :: d in ds ==> d.index < if d.fromParentLocal then |parent.slots| else |parent.upvalues|
  {
    seq(|ds|, i requires 0 <= i < |ds| =>
      assert ds[i] in ds; if ds[i].fromParentLocal then parent.slots[ds[i].index] else parent.upvalues[ds[i].index])
  }

  /** Each frame runs a closure that was made in the frame before it. */
  ghost predicate Nested(fs: seq<Fn>, frames: seq<Frame>) {
    && |frames| == |fs|
    && (forall f :: 0 <= f < |fs| ==> |frames[f].slots| >= |fs[f].locals|)
    && (forall f :: 0 <= f < |fs| ==> |frames[f].upvalues| == |fs[f].upvalues|)
    && (forall f, k :: 0 < f < |fs| && 0 <= k < |fs[f].upvalues| ==>
          DescOk(fs, f, fs[f].upvalues[k]) && frames[f].upvalues[k] == Closed([fs[f].upvalues[k]], frames[f - 1])[0])
  }

  /** At run time an upvalue is the cell of the very local it stands for. */
  lemma {:induction false} UpvalueIsTheBindingsCell(fs: seq<Fn>, frames: seq<Frame>, f: nat, slot: nat)
    requires Valid(fs) && Nested(fs, frames) && f < |fs| && slot < |fs[f].upvalues|
    ensures var b := Chase(fs, f, slot);
            frames[f].upvalues[slot] == frames[b.fn].slots[b.slot]
    decreases f
  {
    var d := fs[f].upvalues[slot];
    assert DescOk(fs, f, d);
    if !d.fromParentLocal {
      UpvalueIsTheBindingsCell(fs, frames, f - 1, d.index);
    }
  }

  // ---- The resolver as it runs ----

  class Resolver {
    var funcs: seq<Fn>

    constructor ()
      ensures funcs == [Fn([Local(None, 0, false, true)], {}, [])]
    {
      funcs := [Fn([Local(None, 0, false, true)], {}, [])];
    }

    method FindLocal(f: nat, x: Name) returns (slot: Option<nat>)
      requires f < |funcs|
      ensures slot == ResolveLocal(funcs[f].locals, x)
    {
      var locals := funcs[f].locals;
      var i := |locals|;
      assert locals[..i] == locals;
      while i > 0
        invariant i <= |locals| && ResolveLocal(locals, x) == ResolveLocal(locals[..i], x)
      {
        i := i - 1;
        assert locals[..i + 1][..i] == locals[..i];
        if locals[i].name == Some(x) {
          return Some(i);
        }
      }
      slot := None;
    }

    method AddUpvalue(f: nat, index: nat, fromParentLocal: bool) returns (slot: nat)
      requires f < |funcs|
      modifies this`funcs
      ensures funcs == WithUpvalue(old(funcs), f, UpvalueDesc(fromParentLocal, index))
      ensures slot == SlotOf(old(funcs)[f].upvalues, UpvalueDesc(fromParentLocal, index))
    {
      var d := UpvalueDesc(fromParentLocal, index);
      var ups := funcs[f].upvalues;
      slot := 0;
      while slot < |ups|
        invariant slot <= |ups| && SlotOf(ups, d) == slot + SlotOf(ups[slot..], d)
      {
        assert ups[slot..][1..] == ups[slot + 1..];
        if ups[slot] == d {
          return;
        }
        slot := slot + 1;
      }
      funcs := funcs[f := funcs[f].(upvalues := ups + [d])];
    }

    method ResolveUpvalue(f: nat, x: Name) returns (slot: Option<nat>)
      requires f < |funcs|
      modifies this`funcs
      ensures Resolution(funcs, slot) == Resolve(old(funcs), f, x)
      decreases f
    {
      if f == 0 {
        return None;
      }
      var enclosing := f - 1;
      var local := FindLocal(enclosing, x);
      if local.Some? {
        var e := funcs[enclosing];
        funcs := funcs[enclosing := e.(captured := e.captured + {local.value})];
        var up := AddUpvalue(f, local.value, true);
        return Some(up);
      }
      var outer := ResolveUpvalue(enclosing, x);
      if outer.Some? {
        var up := AddUpvalue(f, outer.value, false);
        return Some(up);
      }
      slot := None;
    }

    method ResolveName(x: Name) returns (loc: VarLoc)
      requires funcs != []
      modifies this`funcs
      ensures (funcs, loc) == ResolveVar(old(funcs), x)
    {
      var top := |funcs| - 1;
      var local := FindLocal(top, x);
      if local.Some? {
        return LocalVar(local.value, funcs[top].locals[local.value].isConst);
      }
      var up := ResolveUpvalue(top, x);
      loc := if up.Some? then UpvalueVar(up.value) else GlobalVar;
    }
  }
}
