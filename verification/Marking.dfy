/** The marker as a function on values: what one work item does, and what all of them together establish. */
module Marking {
  import opened Syntax
  import opened Heap

  datatype Work =
    | ValueWork(value: Value)
    | ClosureWork(id: Id)
    | ClassWork(id: Id)
    | GeneratorWork(id: Id)
    | IterWork(id: Id)
    | PromiseWork(id: Id)
    | AggregateWork(id: Id)
    | UpvalueWork(id: Id)

  /** Three sets of tracked cells and one of all the others. */
  datatype Marks = Marks(objects: set<Id>, arrays: set<Id>, upvalues: set<Id>, seen: set<Id>) {
    function All(): set<Id> {
      objects + arrays + upvalues + seen
    }
  }

  // ---- What a work item stands for ----

  function Targets(w: Work): set<Id> {
    if w.ValueWork? then Refs(w.value) else {w.id}
  }

  function AllTargets(ws: seq<Work>): set<Id> {
    if ws == [] then {} else AllTargets(ws[..|ws| - 1]) + Targets(ws[|ws| - 1])
  }

  /** Every reference points at a cell of its kind. */
  predicate ValueOk(h: Cells, v: Value) {
    match v
    case Plain => true
    case ArrayRef(id) => id in h && h[id].ArrayCell?
    case ObjectRef(id) => id in h && h[id].ObjectCell?
    case FunctionRef(id) => id in h && h[id].ClosureCell?
    case BoundMethod(receiver) => ValueOk(h, receiver)
    case ClassRef(id) => id in h && h[id].ClassCell?
    case GeneratorRef(id) => id in h && h[id].GeneratorCell?
    case IterRef(id) => id in h && h[id].IterCell?
    case PromiseRef(id) => id in h && h[id].PromiseCell?
    case AsyncResume(coroutine, outer) => coroutine in h && h[coroutine].GeneratorCell? && outer in h
      && h[outer].PromiseCell?
    case ThenHandler(handler, resolve, reject) => ValueOk(h, handler) && ValueOk(h, resolve) && ValueOk(h, reject)
    case FinallyHandler(callback, capability) => ValueOk(h, callback) && ValueOk(h, capability)
    case AggregateHandler(id) => id in h && h[id].AggregateCell?
  }

  predicate WorkOk(h: Cells, w: Work) {
    match w
    case ValueWork(value) => ValueOk(h, value)
    case ClosureWork(id) => id in h && h[id].ClosureCell?
    case ClassWork(id) => id in h && h[id].ClassCell?
    case GeneratorWork(id) => id in h && h[id].GeneratorCell?
    case IterWork(id) => id in h && h[id].IterCell?
    case PromiseWork(id) => id in h && h[id].PromiseCell?
    case AggregateWork(id) => id in h && h[id].AggregateCell?
    case UpvalueWork(id) => id in h && h[id].UpvalueCell?
  }

  ghost predicate AllOk(h: Cells, ws: seq<Work>) {
    forall i :: 0 <= i < |ws| ==> WorkOk(h, ws[i])
  }

  // ---- What marking a cell pushes ----

  function Values(vs: seq<Value>): (r: seq<Work>)
    ensures |r| == |vs| && forall i :: 0 <= i < |r| ==> r[i] == ValueWork(vs[i])
  {
    seq(|vs|, i requires 0 <= i < |vs| => ValueWork(vs[i]))
  }

  function Closures(ids: seq<Id>): (r: seq<Work>)
    ensures |r| == |ids| && forall i :: 0 <= i < |r| ==> r[i] == ClosureWork(ids[i])
  {
    seq(|ids|, i requires 0 <= i < |ids| => ClosureWork(ids[i]))
  }

  function Upvalues(ids: seq<Id>): (r: seq<Work>)
    ensures |r| == |ids| && forall i :: 0 <= i < |r| ==> r[i] == UpvalueWork(ids[i])
  {
    seq(|ids|, i requires 0 <= i < |ids| => UpvalueWork(ids[i]))
  }

  function OptionalClass(id: Option<Id>): seq<Work> {
    if id.Some? then [ClassWork(id.value)] else []
  }

  function FieldWork(f: FieldInit): seq<Work> {
    (if f.init.Some? then [ClosureWork(f.init.value)] else [])
    + (if f.default.Some? then [ValueWork(f.default.value)] else [])
  }

  function Fields(fs: seq<FieldInit>): seq<Work> {
    if fs == [] then [] else Fields(fs[..|fs| - 1]) + FieldWork(fs[|fs| - 1])
  }

  function Frames(fs: seq<CallFrame>): seq<Work> {
    if fs == [] then []
    else Frames(fs[..|fs| - 1]) + [ClosureWork(fs[|fs| - 1].closure)] + OptionalClass(fs[|fs| - 1].owner)
  }

  function DelegateWork(d: Delegate): seq<Work> {
    match d
    case ToGenerator(id) => [GeneratorWork(id)]
    case ToValues(values) => Values(values)
  }

  function OptionalDelegate(d: Option<Delegate>): seq<Work> {
    if d.Some? then DelegateWork(d.value) else []
  }

  function Pushes(c: Cell): seq<Work> {
    match c
    case ArrayCell(elements) => Values(elements)
    case ObjectCell(entries) => Values(entries)
    case ClosureCell(upvalues) => Upvalues(upvalues)
    case ClassCell(methods, fieldInits, staticFields, parent) =>
      Closures(methods) + Fields(fieldInits) + Values(staticFields) + OptionalClass(parent)
    case GeneratorCell(closure, owner, stack, frames, openUpvalues, receiver, args, delegate) =>
      [ClosureWork(closure)] + OptionalClass(owner) + Values(stack) + Frames(frames) + Upvalues(openUpvalues)
      + [ValueWork(receiver)] + Values(args) + OptionalDelegate(delegate)
    case IterCell(source) => DelegateWork(source)
    case PromiseCell(Pending(onResolve, onReject)) => Values(onResolve) + Values(onReject)
    case PromiseCell(Settled(value)) => [ValueWork(value)]
    case AggregateCell(results, resolve, reject) => Values(results) + [ValueWork(resolve)] + [ValueWork(reject)]
    case UpvalueCell(Open(_)) => []
    case UpvalueCell(Closed(value)) => [ValueWork(value)]
  }

  /** Every cell refers to existing cells of the right kinds. */
  ghost predicate HeapOk(h: Cells) {
    forall id :: id in h ==> AllOk(h, Pushes(h[id]))
  }

  // ---- One step ----

  datatype Outcome = Outcome(marks: Marks, pushed: seq<Work>)

  function VisitStep(h: Cells, m: Marks, id: Id): Outcome
    requires id in h
  {
    if id in m.seen then Outcome(m, []) else Outcome(m.(seen := m.seen + {id}), Pushes(h[id]))
  }

  function ValueStep(h: Cells, m: Marks, v: Value): Outcome
    requires ValueOk(h, v)
  {
    match v
    case Plain => Outcome(m, [])
    case ArrayRef(id) =>
      if id in m.arrays then Outcome(m, []) else Outcome(m.(arrays := m.arrays + {id}), Pushes(h[id]))
    case ObjectRef(id) =>
      if id in m.objects then Outcome(m, []) else Outcome(m.(objects := m.objects + {id}), Pushes(h[id]))
    case FunctionRef(id) => Outcome(m, [ClosureWork(id)])
    case BoundMethod(receiver) => Outcome(m, [ValueWork(receiver)])
    case ClassRef(id) => Outcome(m, [ClassWork(id)])
    case GeneratorRef(id) => Outcome(m, [GeneratorWork(id)])
    case IterRef(id) => Outcome(m, [IterWork(id)])
    case PromiseRef(id) => Outcome(m, [PromiseWork(id)])
    case AsyncResume(coroutine, outer) => Outcome(m, [GeneratorWork(coroutine)] + [PromiseWork(outer)])
    case ThenHandler(handler, resolve, reject) =>
      Outcome(m, [ValueWork(handler)] + [ValueWork(resolve)] + [ValueWork(reject)])
    case FinallyHandler(callback, capability) => Outcome(m, [ValueWork(callback)] + [ValueWork(capability)])
    case AggregateHandler(id) => Outcome(m, [AggregateWork(id)])
  }

  function Process(h: Cells, m: Marks, w: Work): Outcome
    requires WorkOk(h, w)
  {
    match w
    case ValueWork(value) => ValueStep(h, m, value)
    case UpvalueWork(id) =>
      if id in m.upvalues then Outcome(m, []) else Outcome(m.(upvalues := m.upvalues + {id}), Pushes(h[id]))
    case _ => VisitStep(h, m, w.id)
  }

  // ---- Targets of what is pushed ----

  lemma {:induction false} TargetsJoin(a: seq<Work>, b: seq<Work>)
    ensures AllTargets(a + b) == AllTargets(a) + AllTargets(b)
    decreases |b|
  {
    if b == [] {
      assert a + b == a;
    } else {
      TargetsJoin(a, b[..|b| - 1]);
      assert (a + b)[..|a + b| - 1] == a + b[..|b| - 1];
    }
  }

  lemma TargetsOne(w: Work)
    ensures AllTargets([w]) == Targets(w)
  {
    assert [w][..0] == [];
  }

  lemma TargetsNone()
    ensures AllTargets([]) == {}
  {
  }

  lemma {:induction false} AllRefsMore(vs: seq<Value>, v: Value)
    ensures AllRefs(vs + [v]) == AllRefs(vs) + Refs(v)
    decreases |vs|
  {
    if vs == [] {
      assert [v][1..] == [];
    } else {
      AllRefsMore(vs[1..], v);
      assert (vs + [v])[1..] == vs[1..] + [v];
    }
  }

  lemma {:induction false} ValuesTargets(vs: seq<Value>)
    ensures AllTargets(Values(vs)) == AllRefs(vs)
    decreases |vs|
  {
    if vs != [] {
      var n := |vs| - 1;
      ValuesTargets(vs[..n]);
      AllRefsMore(vs[..n], vs[n]);
      assert vs == vs[..n] + [vs[n]];
      assert Values(vs)[..n] == Values(vs[..n]);
    }
  }

  lemma {:induction false} ClosuresTargets(ids: seq<Id>)
    ensures AllTargets(Closures(ids)) == IdSet(ids)
    decreases |ids|
  {
    if ids != [] {
      var n := |ids| - 1;
      ClosuresTargets(ids[..n]);
      assert ids == ids[..n] + [ids[n]];
      assert Closures(ids)[..n] == Closures(ids[..n]);
    }
  }

  lemma {:induction false} UpvaluesTargets(ids: seq<Id>)
    ensures AllTargets(Upvalues(ids)) == IdSet(ids)
    decreases |ids|
  {
    if ids != [] {
      var n := |ids| - 1;
      UpvaluesTargets(ids[..n]);
      assert ids == ids[..n] + [ids[n]];
      assert Upvalues(ids)[..n] == Upvalues(ids[..n]);
    }
  }

  lemma OptionalTargets(id: Option<Id>)
    ensures AllTargets(OptionalClass(id)) == OptionalId(id)
  {
    if id.Some? {
      TargetsOne(ClassWork(id.value));
    }
  }

  lemma {:induction false} FieldRefsMore(fs: seq<FieldInit>, f: FieldInit)
    ensures FieldRefs(fs + [f]) == FieldRefs(fs) + FieldRefs([f])
    decreases |fs|
  {
    if fs == [] {
      assert fs + [f] == [f];
    } else {
      FieldRefsMore(fs[1..], f);
      assert (fs + [f])[1..] == fs[1..] + [f];
    }
  }

  lemma {:induction false} FieldsTargets(fs: seq<FieldInit>)
    ensures AllTargets(Fields(fs)) == FieldRefs(fs)
    decreases |fs|
  {
    if fs != [] {
      var n := |fs| - 1;
      var f := fs[n];
      FieldsTargets(fs[..n]);
      FieldRefsMore(fs[..n], f);
      assert fs == fs[..n] + [f];
      TargetsJoin(Fields(fs[..n]), FieldWork(f));
      FieldTargets(f);
    }
  }

  lemma FieldTargets(f: FieldInit)
    ensures AllTargets(FieldWork(f)) == FieldRefs([f])
  {
    var a := if f.init.Some? then [ClosureWork(f.init.value)] else [];
    var b := if f.default.Some? then [ValueWork(f.default.value)] else [];
    TargetsJoin(a, b);
    if f.init.Some? {
      TargetsOne(a[0]);
    }
    if f.default.Some? {
      TargetsOne(b[0]);
    }
    assert FieldRefs([f][1..]) == {};
  }

  lemma {:induction false} FrameRefsMore(fs: seq<CallFrame>, f: CallFrame)
    ensures FrameRefs(fs + [f]) == FrameRefs(fs) + {f.closure} + OptionalId(f.owner)
    decreases |fs|
  {
    if fs == [] {
      assert [f][1..] == [];
      assert fs + [f] == [f];
    } else {
      FrameRefsMore(fs[1..], f);
      assert (fs + [f])[1..] == fs[1..] + [f];
    }
  }

  lemma {:induction false} FramesTargets(fs: seq<CallFrame>)
    ensures AllTargets(Frames(fs)) == FrameRefs(fs)
    decreases |fs|
  {
    if fs != [] {
      var n := |fs| - 1;
      var f := fs[n];
      FramesTargets(fs[..n]);
      FrameRefsMore(fs[..n], f);
      assert fs == fs[..n] + [f];
      TargetsJoin(Frames(fs[..n]) + [ClosureWork(f.closure)], OptionalClass(f.owner));
      TargetsJoin(Frames(fs[..n]), [ClosureWork(f.closure)]);
      TargetsOne(ClosureWork(f.closure));
      OptionalTargets(f.owner);
    }
  }

  lemma DelegateTargets(d: Delegate)
    ensures AllTargets(DelegateWork(d)) == DelegateRefs(d)
  {
    match d
    case ToGenerator(id) => TargetsOne(GeneratorWork(id));
    case ToValues(values) => ValuesTargets(values);
  }

  lemma GeneratorTargets(c: Cell)
    requires c.GeneratorCell?
    ensures AllTargets(Pushes(c)) == CellRefs(c)
  {
    var a := [ClosureWork(c.closure)] + OptionalClass(c.owner);
    var b := a + Values(c.stack) + Frames(c.frames);
    var d := b + Upvalues(c.openUpvalues) + [ValueWork(c.receiver)];
    TargetsJoin([ClosureWork(c.closure)], OptionalClass(c.owner));
    TargetsJoin(a, Values(c.stack));
    TargetsJoin(a + Values(c.stack), Frames(c.frames));
    TargetsJoin(b, Upvalues(c.openUpvalues));
    TargetsJoin(b + Upvalues(c.openUpvalues), [ValueWork(c.receiver)]);
    TargetsJoin(d, Values(c.args));
    TargetsJoin(d + Values(c.args), OptionalDelegate(c.delegate));
    TargetsOne(ClosureWork(c.closure));
    TargetsOne(ValueWork(c.receiver));
    OptionalTargets(c.owner);
    ValuesTargets(c.stack);
    FramesTargets(c.frames);
    UpvaluesTargets(c.openUpvalues);
    ValuesTargets(c.args);
    if c.delegate.Some? {
      DelegateTargets(c.delegate.value);
    }
  }

  lemma ClassTargets(c: Cell)
    requires c.ClassCell?
    ensures AllTargets(Pushes(c)) == CellRefs(c)
  {
    TargetsJoin(Closures(c.methods) + Fields(c.fieldInits) + Values(c.staticFields), OptionalClass(c.parent));
    TargetsJoin(Closures(c.methods) + Fields(c.fieldInits), Values(c.staticFields));
    TargetsJoin(Closures(c.methods), Fields(c.fieldInits));
    ClosuresTargets(c.methods);
    FieldsTargets(c.fieldInits);
    ValuesTargets(c.staticFields);
    OptionalTargets(c.parent);
  }

  /** Marking a cell pushes exactly the cells it refers to. */
  lemma PushesTargets(c: Cell)
    ensures AllTargets(Pushes(c)) == CellRefs(c)
  {
    match c
    case ArrayCell(elements) => ValuesTargets(elements);
    case ObjectCell(entries) => ValuesTargets(entries);
    case ClosureCell(upvalues) => UpvaluesTargets(upvalues);
    case ClassCell(_, _, _, _) => ClassTargets(c);
    case GeneratorCell(_, _, _, _, _, _, _, _) => GeneratorTargets(c);
    case IterCell(source) => DelegateTargets(source);
    case PromiseCell(Pending(onResolve, onReject)) =>
      TargetsJoin(Values(onResolve), Values(onReject));
      ValuesTargets(onResolve);
      ValuesTargets(onReject);
    case PromiseCell(Settled(value)) => TargetsOne(ValueWork(value));
    case AggregateCell(results, resolve, reject) =>
      TargetsJoin(Values(results) + [ValueWork(resolve)], [ValueWork(reject)]);
      TargetsJoin(Values(results), [ValueWork(resolve)]);
      ValuesTargets(results);
      TargetsOne(ValueWork(resolve));
      TargetsOne(ValueWork(reject));
    case UpvalueCell(Open(_)) =>
    case UpvalueCell(Closed(value)) => TargetsOne(ValueWork(value));
  }

  // ---- The marking invariant ----

  /** Marked cells exist and are in the set of their kind. */
  ghost predicate KindsOk(h: Cells, m: Marks) {
    && (forall id :: id in m.objects ==> id in h && h[id].ObjectCell?)
    && (forall id :: id in m.arrays ==> id in h && h[id].ArrayCell?)
    && (forall id :: id in m.upvalues ==> id in h && h[id].UpvalueCell?)
    && (forall id :: id in m.seen ==> id in h && !h[id].ObjectCell? && !h[id].ArrayCell? && !h[id].UpvalueCell?)
  }

  /** No cell is `black` (marked) or `grey` (pending) that is not reachable; what a black cell refers to is black or
      grey, and so are the roots. */
  ghost predicate Tricolor(h: Cells, roots: set<Id>, black: set<Id>, grey: set<Id>) {
    && (forall id :: id in black || id in grey ==> Reachable(h, roots, id))
    && (forall id, t :: id in black && id in h && t in CellRefs(h[id]) ==> t in black || t in grey)
    && (forall id :: id in roots ==> id in black || id in grey)
  }

  ghost predicate InProgress(h: Cells, roots: set<Id>, m: Marks, work: seq<Work>) {
    HeapOk(h) && AllOk(h, work) && KindsOk(h, m) && Tricolor(h, roots, m.All(), AllTargets(work))
  }

  lemma Blacken(h: Cells, roots: set<Id>, black: set<Id>, grey: set<Id>, id: Id)
    requires Tricolor(h, roots, black, grey + {id}) && id in h
    ensures Tricolor(h, roots, black + {id}, grey + CellRefs(h[id]))
  {
    hide Reachable, CellRefs;
    forall t | t in CellRefs(h[id])
      ensures Reachable(h, roots, t)
    {
      ReachFurther(h, roots, id, t);
    }
  }

  lemma PassOn(h: Cells, roots: set<Id>, black: set<Id>, grey: set<Id>, t: set<Id>, t': set<Id>)
    requires Tricolor(h, roots, black, grey + t) && (t' == t || (t' == {} && t <= black))
    ensures Tricolor(h, roots, black, grey + t')
  {
    hide Reachable, CellRefs;
  }

  /** A work item either passes its targets on, or marks the one cell it aims at and pushes what that cell refers to. */
  ghost predicate Steps(h: Cells, m: Marks, w: Work, o: Outcome) {
    || (o.marks == m && AllTargets(o.pushed) == Targets(w))
    || (o.marks == m && o.pushed == [] && Targets(w) <= m.All())
    || (exists id :: id in h && Targets(w) == {id} && id !in m.All() && o.marks.All() == m.All() + {id}
                     && o.pushed == Pushes(h[id]))
  }

  lemma TargetsFew(ws: seq<Work>)
    requires |ws| <= 1
    ensures AllTargets(ws) == if ws == [] then {} else Targets(ws[0])
  {
    if ws != [] {
      assert ws[..|ws| - 1] == [];
    }
  }

  lemma WeightFew(ws: seq<Work>)
    requires |ws| <= 1
    ensures AllWeight(ws) == if ws == [] then 0 else Weight(ws[0])
  {
    if ws != [] {
      assert ws[..|ws| - 1] == [];
    }
  }

  /** Values that hold several others pass all of them on. */
  lemma CompoundSteps(h: Cells, m: Marks, v: Value)
    requires ValueOk(h, v) && (v.AsyncResume? || v.ThenHandler? || v.FinallyHandler?)
    ensures ValueStep(h, m, v).marks == m && AllOk(h, ValueStep(h, m, v).pushed)
    ensures AllTargets(ValueStep(h, m, v).pushed) == Refs(v)
  {
    match v
    case AsyncResume(c, p) =>
      TargetsJoin([GeneratorWork(c)], [PromiseWork(p)]);
      TargetsOne(GeneratorWork(c));
      TargetsOne(PromiseWork(p));
    case ThenHandler(a, b, c) =>
      TargetsJoin([ValueWork(a)] + [ValueWork(b)], [ValueWork(c)]);
      TargetsJoin([ValueWork(a)], [ValueWork(b)]);
      TargetsOne(ValueWork(a));
      TargetsOne(ValueWork(b));
      TargetsOne(ValueWork(c));
    case FinallyHandler(a, b) =>
      TargetsJoin([ValueWork(a)], [ValueWork(b)]);
      TargetsOne(ValueWork(a));
      TargetsOne(ValueWork(b));
  }

  lemma ValueSteps(h: Cells, m: Marks, v: Value)
    requires ValueOk(h, v) && KindsOk(h, m) && HeapOk(h)
    ensures var o := ValueStep(h, m, v);
            Steps(h, m, ValueWork(v), o) && AllOk(h, o.pushed) && KindsOk(h, o.marks)
  {
    var o := ValueStep(h, m, v);
    if v.AsyncResume? || v.ThenHandler? || v.FinallyHandler? {
      CompoundSteps(h, m, v);
    } else if v.ArrayRef? || v.ObjectRef? {
      if o.marks != m {
        assert v.id !in m.All() && o.marks.All() == m.All() + {v.id};
      }
    } else {
      TargetsFew(o.pushed);
    }
  }

  lemma ProcessSteps(h: Cells, m: Marks, w: Work)
    requires WorkOk(h, w) && KindsOk(h, m) && HeapOk(h)
    ensures var o := Process(h, m, w);
            Steps(h, m, w, o) && AllOk(h, o.pushed) && KindsOk(h, o.marks)
  {
    if w.ValueWork? {
      ValueSteps(h, m, w.value);
    } else {
      var o := Process(h, m, w);
      if w.id !in m.All() {
        assert o.marks.All() == m.All() + {w.id};
      }
    }
  }

  lemma ProcessKeeps(h: Cells, roots: set<Id>, m: Marks, rest: seq<Work>, w: Work)
    requires InProgress(h, roots, m, rest + [w]) && WorkOk(h, w)
    ensures var o := Process(h, m, w);
            InProgress(h, roots, o.marks, rest + o.pushed)
  {
    hide Process, Targets, AllTargets, CellRefs, Pushes, Reachable, WorkOk, HeapOk, KindsOk, Tricolor, Refs;
    ProcessSteps(h, m, w);
    var o := Process(h, m, w);
    RestOk(h, rest, w);
    TargetsJoin(rest, [w]);
    TargetsOne(w);
    TargetsJoin(rest, o.pushed);
    TargetsNone();
    if o.marks == m {
      PassOn(h, roots, m.All(), AllTargets(rest), Targets(w), AllTargets(o.pushed));
    } else {
      var id :| id in h && Targets(w) == {id} && id !in m.All() && o.marks.All() == m.All() + {id}
        && o.pushed == Pushes(h[id]);
      PushesTargets(h[id]);
      Blacken(h, roots, m.All(), AllTargets(rest), id);
    }
  }

  lemma RestOk(h: Cells, rest: seq<Work>, w: Work)
    requires AllOk(h, rest + [w])
    ensures AllOk(h, rest)
  {
    assert forall i :: 0 <= i < |rest| ==> (rest + [w])[i] == rest[i];
  }

  // ---- Termination ----

  function Size(v: Value): nat {
    match v
    case BoundMethod(receiver) => 1 + Size(receiver)
    case AsyncResume(_, _) => 3
    case ThenHandler(handler, resolve, reject) => 1 + Size(handler) + Size(resolve) + Size(reject)
    case FinallyHandler(callback, capability) => 1 + Size(callback) + Size(capability)
    case _ => 2
  }

  function Weight(w: Work): nat {
    if w.ValueWork? then Size(w.value) else 1
  }

  function AllWeight(ws: seq<Work>): nat {
    if ws == [] then 0 else AllWeight(ws[..|ws| - 1]) + Weight(ws[|ws| - 1])
  }

  lemma {:induction false} WeightJoin(a: seq<Work>, b: seq<Work>)
    ensures AllWeight(a + b) == AllWeight(a) + AllWeight(b)
    decreases |b|
  {
    if b == [] {
      assert a + b == a;
    } else {
      WeightJoin(a, b[..|b| - 1]);
      assert (a + b)[..|a + b| - 1] == a + b[..|b| - 1];
    }
  }

  lemma WeightOne(w: Work)
    ensures AllWeight([w]) == Weight(w) >= 1
  {
    assert [w][..0] == [];
  }

  /** What is still unmarked shrinks, or it stays and the pending work weighs less. */
  lemma ProcessShrinks(h: Cells, m: Marks, rest: seq<Work>, w: Work)
    requires WorkOk(h, w) && KindsOk(h, m) && HeapOk(h)
    ensures var o := Process(h, m, w);
            || h.Keys - o.marks.All() < h.Keys - m.All()
            || (h.Keys - o.marks.All() == h.Keys - m.All() && AllWeight(rest + o.pushed) < AllWeight(rest + [w]))
  {
    ProcessSteps(h, m, w);
    var o := Process(h, m, w);
    WeightJoin(rest, [w]);
    WeightOne(w);
    WeightJoin(rest, o.pushed);
    if o.marks == m {
      if w.ValueWork? {
        PushedWeight(h, m, w.value);
      }
    } else {
      var id :| id in h && id !in m.All() && o.marks.All() == m.All() + {id};
      assert id in h.Keys - m.All() && id !in h.Keys - o.marks.All();
    }
  }

  lemma PushedWeight(h: Cells, m: Marks, v: Value)
    requires ValueOk(h, v) && ValueStep(h, m, v).marks == m
    ensures AllWeight(ValueStep(h, m, v).pushed) < Size(v)
  {
    var pushed := ValueStep(h, m, v).pushed;
    match v
    case AsyncResume(c, p) =>
      WeightJoin([GeneratorWork(c)], [PromiseWork(p)]);
      WeightOne(GeneratorWork(c));
      WeightOne(PromiseWork(p));
    case ThenHandler(a, b, c) =>
      WeightJoin([ValueWork(a)] + [ValueWork(b)], [ValueWork(c)]);
      WeightJoin([ValueWork(a)], [ValueWork(b)]);
      WeightOne(ValueWork(a));
      WeightOne(ValueWork(b));
      WeightOne(ValueWork(c));
    case FinallyHandler(a, b) =>
      WeightJoin([ValueWork(a)], [ValueWork(b)]);
      WeightOne(ValueWork(a));
      WeightOne(ValueWork(b));
    case _ => WeightFew(pushed);
  }

  // ---- What marking establishes ----

  /** The marked cells are the reachable ones, kind by kind. */
  ghost predicate MarksReachable(h: Cells, roots: set<Id>, m: Marks) {
    && (forall id :: id in m.objects <==> Reachable(h, roots, id) && id in h && h[id].ObjectCell?)
    && (forall id :: id in m.arrays <==> Reachable(h, roots, id) && id in h && h[id].ArrayCell?)
    && (forall id :: id in m.upvalues <==> Reachable(h, roots, id) && id in h && h[id].UpvalueCell?)
  }

  lemma MarkingDone(h: Cells, roots: set<Id>, m: Marks)
    requires InProgress(h, roots, m, [])
    ensures MarksReachable(h, roots, m)
  {
    forall id | Reachable(h, roots, id)
      ensures id in m.All()
    {
      var p :| Path(h, p) && p[0] in roots && p[|p| - 1] == id;
      ClosedHolds(h, roots, m.All(), p);
    }
  }

  /** Before anything is marked, the pending work is the roots. */
  lemma MarkingStarts(h: Cells, work: seq<Work>)
    requires HeapOk(h) && AllOk(h, work)
    ensures InProgress(h, AllTargets(work), Marks({}, {}, {}, {}), work)
  {
    forall id | id in AllTargets(work)
      ensures Reachable(h, AllTargets(work), id)
    {
      RootReachable(h, AllTargets(work), id);
    }
  }

  // ---- A well-formed heap has no dangling references ----

  lemma {:induction false} RefsExist(h: Cells, v: Value)
    requires ValueOk(h, v)
    ensures Refs(v) <= h.Keys
  {
    match v
    case BoundMethod(receiver) => RefsExist(h, receiver);
    case ThenHandler(handler, resolve, reject) =>
      RefsExist(h, handler);
      RefsExist(h, resolve);
      RefsExist(h, reject);
    case FinallyHandler(callback, capability) =>
      RefsExist(h, callback);
      RefsExist(h, capability);
    case _ =>
  }

  lemma {:induction false} TargetsExist(h: Cells, ws: seq<Work>)
    requires AllOk(h, ws)
    ensures AllTargets(ws) <= h.Keys
    decreases |ws|
  {
    if ws != [] {
      var last := ws[|ws| - 1];
      TargetsExist(h, ws[..|ws| - 1]);
      assert WorkOk(h, last);
      if last.ValueWork? {
        RefsExist(h, last.value);
      }
    }
  }

  lemma NothingDangles(h: Cells, id: Id)
    requires HeapOk(h) && id in h
    ensures CellRefs(h[id]) <= h.Keys
  {
    TargetsExist(h, Pushes(h[id]));
    PushesTargets(h[id]);
  }

  // ---- Helpers for the marker's loops ----

  lemma ItemOk(h: Cells, roots: set<Id>, m: Marks, work: seq<Work>)
    requires InProgress(h, roots, m, work) && work != []
    ensures WorkOk(h, work[|work| - 1]) && work == work[..|work| - 1] + [work[|work| - 1]] && KindsOk(h, m) && HeapOk(h)
  {
  }

  lemma Chained4(w: seq<Work>, a: seq<Work>, b: seq<Work>, c: seq<Work>, d: seq<Work>)
    ensures w + a + b + c + d == w + (a + b + c + d)
  {
  }

  lemma Chained5(w: seq<Work>, a: seq<Work>, b: seq<Work>, c: seq<Work>, d: seq<Work>, e: seq<Work>)
    ensures w + a + b + c + d + e == w + (a + b + c + d + e)
  {
    Chained4(w, a, b, c, d);
  }
}
