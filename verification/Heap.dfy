/** The virtual machine's heap as the cycle collector sees it: cells that refer to each other, some of them tracked. */
module Heap {
  import opened Syntax

  /** The address of a cell. */
  type Id = nat

  datatype Value =
    | Plain
    | ArrayRef(id: Id)
    | ObjectRef(id: Id)
    | FunctionRef(id: Id)
    | BoundMethod(receiver: Value)
    | ClassRef(id: Id)
    | GeneratorRef(id: Id)
    | IterRef(id: Id)
    | PromiseRef(id: Id)
    | AsyncResume(coroutine: Id, outer: Id)
    | ThenHandler(handler: Value, resolve: Value, reject: Value)
    | FinallyHandler(callback: Value, capability: Value)
    | AggregateHandler(id: Id)

  datatype Delegate = ToGenerator(id: Id) | ToValues(values: seq<Value>)

  datatype FieldInit = FieldInit(init: Option<Id>, default: Option<Value>)

  datatype CallFrame = CallFrame(closure: Id, owner: Option<Id>)

  datatype PromiseState = Pending(onResolve: seq<Value>, onReject: seq<Value>) | Settled(value: Value)

  datatype UpvalueState = Open(slot: nat) | Closed(value: Value)

  datatype Cell =
    | ArrayCell(elements: seq<Value>)
    | ObjectCell(entries: seq<Value>)
    | ClosureCell(upvalues: seq<Id>)
    | ClassCell(methods: seq<Id>, fieldInits: seq<FieldInit>, staticFields: seq<Value>, parent: Option<Id>)
    | GeneratorCell(closure: Id, owner: Option<Id>, stack: seq<Value>, frames: seq<CallFrame>, openUpvalues: seq<Id>,
                    receiver: Value, args: seq<Value>, delegate: Option<Delegate>)
    | IterCell(source: Delegate)
    | PromiseCell(state: PromiseState)
    | AggregateCell(results: seq<Value>, resolve: Value, reject: Value)
    | UpvalueCell(upvalue: UpvalueState)

  type Cells = map<Id, Cell>

  // ---- What a cell refers to ----

  function Refs(v: Value): set<Id> {
    match v
    case Plain => {}
    case BoundMethod(receiver) => Refs(receiver)
    case AsyncResume(coroutine, outer) => {coroutine, outer}
    case ThenHandler(handler, resolve, reject) => Refs(handler) + Refs(resolve) + Refs(reject)
    case FinallyHandler(callback, capability) => Refs(callback) + Refs(capability)
    case _ => {v.id}
  }

  function AllRefs(vs: seq<Value>): set<Id> {
    if vs == [] then {} else Refs(vs[0]) + AllRefs(vs[1..])
  }

  function IdSet(ids: seq<Id>): set<Id> {
    set id | id in ids
  }

  function OptionalId(id: Option<Id>): set<Id> {
    if id.Some? then {id.value} else {}
  }

  function FieldRefs(fs: seq<FieldInit>): set<Id> {
    if fs == [] then {}
    else
      OptionalId(fs[0].init) + (if fs[0].default.Some? then Refs(fs[0].default.value) else {}) + FieldRefs(fs[1..])
  }

  function FrameRefs(fs: seq<CallFrame>): set<Id> {
    if fs == [] then {} else {fs[0].closure} + OptionalId(fs[0].owner) + FrameRefs(fs[1..])
  }

  function DelegateRefs(d: Delegate): set<Id> {
    match d
    case ToGenerator(id) => {id}
    case ToValues(values) => AllRefs(values)
  }

  /** The cells a cell refers to. An open upvalue refers to a stack slot, and the stack is a root. */
  function CellRefs(c: Cell): set<Id> {
    match c
    case ArrayCell(elements) => AllRefs(elements)
    case ObjectCell(entries) => AllRefs(entries)
    case ClosureCell(upvalues) => IdSet(upvalues)
    case ClassCell(methods, fieldInits, staticFields, parent) =>
      IdSet(methods) + FieldRefs(fieldInits) + AllRefs(staticFields) + OptionalId(parent)
    case GeneratorCell(closure, owner, stack, frames, openUpvalues, receiver, args, delegate) =>
      {closure} + OptionalId(owner) + AllRefs(stack) + FrameRefs(frames) + IdSet(openUpvalues) + Refs(receiver)
      + AllRefs(args) + (if delegate.Some? then DelegateRefs(delegate.value) else {})
    case IterCell(source) => DelegateRefs(source)
    case PromiseCell(Pending(onResolve, onReject)) => AllRefs(onResolve) + AllRefs(onReject)
    case PromiseCell(Settled(value)) => Refs(value)
    case AggregateCell(results, resolve, reject) => AllRefs(results) + Refs(resolve) + Refs(reject)
    case UpvalueCell(Open(_)) => {}
    case UpvalueCell(Closed(value)) => Refs(value)
  }

  // ---- The same, place by place ----

  ghost predicate Among(vs: seq<Value>, id: Id) {
    exists i :: 0 <= i < |vs| && Holds(vs[i], id)
  }

  /** The address stands somewhere in the value. */
  predicate Holds(v: Value, id: Id) {
    match v
    case Plain => false
    case ArrayRef(i) => i == id
    case ObjectRef(i) => i == id
    case FunctionRef(i) => i == id
    case BoundMethod(receiver) => Holds(receiver, id)
    case ClassRef(i) => i == id
    case GeneratorRef(i) => i == id
    case IterRef(i) => i == id
    case PromiseRef(i) => i == id
    case AsyncResume(coroutine, outer) => coroutine == id || outer == id
    case ThenHandler(handler, resolve, reject) => Holds(handler, id) || Holds(resolve, id) || Holds(reject, id)
    case FinallyHandler(callback, capability) => Holds(callback, id) || Holds(capability, id)
    case AggregateHandler(i) => i == id
  }

  ghost predicate InDelegate(d: Delegate, id: Id) {
    if d.ToGenerator? then d.id == id else Among(d.values, id)
  }

  predicate InField(f: FieldInit, id: Id) {
    f.init == Some(id) || (f.default.Some? && Holds(f.default.value, id))
  }

  predicate InFrame(f: CallFrame, id: Id) {
    f.closure == id || f.owner == Some(id)
  }

  /** The address stands in one of the cell's places. */
  ghost predicate Mentions(c: Cell, id: Id) {
    || (c.ArrayCell? && Among(c.elements, id))
    || (c.ObjectCell? && Among(c.entries, id))
    || (c.ClosureCell? && id in c.upvalues)
    || (c.ClassCell? &&
          (id in c.methods || c.parent == Some(id) || Among(c.staticFields, id)
           || exists i :: 0 <= i < |c.fieldInits| && InField(c.fieldInits[i], id)))
    || (c.GeneratorCell? &&
          (c.closure == id || c.owner == Some(id) || id in c.openUpvalues || Holds(c.receiver, id)
           || Among(c.stack, id) || Among(c.args, id) || (c.delegate.Some? && InDelegate(c.delegate.value, id))
           || exists i :: 0 <= i < |c.frames| && InFrame(c.frames[i], id)))
    || (c.IterCell? && InDelegate(c.source, id))
    || (c.PromiseCell? && c.state.Pending? && (Among(c.state.onResolve, id) || Among(c.state.onReject, id)))
    || (c.PromiseCell? && c.state.Settled? && Holds(c.state.value, id))
    || (c.AggregateCell? && (Among(c.results, id) || Holds(c.resolve, id) || Holds(c.reject, id)))
    || (c.UpvalueCell? && c.upvalue.Closed? && Holds(c.upvalue.value, id))
  }

  lemma {:induction false} RefsAreHeld(v: Value, id: Id)
    ensures id in Refs(v) <==> Holds(v, id)
  {
    match v
    case BoundMethod(receiver) => RefsAreHeld(receiver, id);
    case ThenHandler(handler, resolve, reject) =>
      RefsAreHeld(handler, id);
      RefsAreHeld(resolve, id);
      RefsAreHeld(reject, id);
    case FinallyHandler(callback, capability) =>
      RefsAreHeld(callback, id);
      RefsAreHeld(capability, id);
    case _ =>
  }

  lemma {:induction false} AllRefsAreHeld(vs: seq<Value>, id: Id)
    ensures id in AllRefs(vs) <==> Among(vs, id)
  {
    if vs != [] {
      RefsAreHeld(vs[0], id);
      AllRefsAreHeld(vs[1..], id);
      if Among(vs[1..], id) {
        var i :| 0 <= i < |vs| - 1 && Holds(vs[1..][i], id);
        assert Holds(vs[i + 1], id);
      }
      if Among(vs, id) {
        var i :| 0 <= i < |vs| && Holds(vs[i], id);
        assert i > 0 ==> Holds(vs[1..][i - 1], id);
      }
    }
  }

  lemma {:induction false} FieldRefsAreHeld(fs: seq<FieldInit>, id: Id)
    ensures id in FieldRefs(fs) <==> exists i :: 0 <= i < |fs| && InField(fs[i], id)
  {
    if fs != [] {
      if fs[0].default.Some? {
        RefsAreHeld(fs[0].default.value, id);
      }
      FieldRefsAreHeld(fs[1..], id);
      assert forall i :: 0 < i < |fs| ==> fs[1..][i - 1] == fs[i];
    }
  }

  lemma {:induction false} FrameRefsAreHeld(fs: seq<CallFrame>, id: Id)
    ensures id in FrameRefs(fs) <==> exists i :: 0 <= i < |fs| && InFrame(fs[i], id)
  {
    if fs != [] {
      FrameRefsAreHeld(fs[1..], id);
      assert forall i :: 0 < i < |fs| ==> fs[1..][i - 1] == fs[i];
    }
  }

  lemma DelegateRefsAreHeld(d: Delegate, id: Id)
    ensures id in DelegateRefs(d) <==> InDelegate(d, id)
  {
    if d.ToValues? {
      AllRefsAreHeld(d.values, id);
    }
  }

  /** A cell refers to exactly the addresses that stand in it. */
  lemma RefersToWhatItMentions(c: Cell, id: Id)
    ensures id in CellRefs(c) <==> Mentions(c, id)
  {
    hide Refs, AllRefs, FieldRefs, FrameRefs, DelegateRefs, Among, Holds, InField, InFrame, InDelegate;
    match c
    case ArrayCell(elements) => AllRefsAreHeld(elements, id);
    case ObjectCell(entries) => AllRefsAreHeld(entries, id);
    case ClosureCell(_) =>
    case ClassCell(methods, fieldInits, staticFields, parent) =>
      FieldRefsAreHeld(fieldInits, id);
      AllRefsAreHeld(staticFields, id);
    case GeneratorCell(_, _, stack, frames, _, receiver, args, delegate) =>
      AllRefsAreHeld(stack, id);
      FrameRefsAreHeld(frames, id);
      RefsAreHeld(receiver, id);
      AllRefsAreHeld(args, id);
      if delegate.Some? {
        DelegateRefsAreHeld(delegate.value, id);
      }
    case IterCell(source) => DelegateRefsAreHeld(source, id);
    case PromiseCell(Pending(onResolve, onReject)) =>
      AllRefsAreHeld(onResolve, id);
      AllRefsAreHeld(onReject, id);
    case PromiseCell(Settled(value)) => RefsAreHeld(value, id);
    case AggregateCell(results, resolve, reject) =>
      AllRefsAreHeld(results, id);
      RefsAreHeld(resolve, id);
      RefsAreHeld(reject, id);
    case UpvalueCell(Open(_)) =>
    case UpvalueCell(Closed(value)) => RefsAreHeld(value, id);
  }

  // ---- Reachability ----

  /** Each cell on the path refers to the next. */
  ghost predicate Path(h: Cells, p: seq<Id>) {
    |p| > 0 && forall i :: 0 <= i < |p| - 1 ==> p[i] in h && p[i + 1] in CellRefs(h[p[i]])
  }

  ghost predicate Reachable(h: Cells, roots: set<Id>, id: Id) {
    exists p :: Path(h, p) && p[0] in roots && p[|p| - 1] == id
  }

  lemma RootReachable(h: Cells, roots: set<Id>, id: Id)
    requires id in roots
    ensures Reachable(h, roots, id)
  {
    assert Path(h, [id]) && [id][0] in roots;
  }

  lemma ReachFurther(h: Cells, roots: set<Id>, id: Id, next: Id)
    requires Reachable(h, roots, id) && id in h && next in CellRefs(h[id])
    ensures Reachable(h, roots, next)
  {
    var p :| Path(h, p) && p[0] in roots && p[|p| - 1] == id;
    var q := p + [next];
    forall i | 0 <= i < |q| - 1
      ensures q[i] in h && q[i + 1] in CellRefs(h[q[i]])
    {
      assert i < |p| - 1 ==> q[i + 1] == p[i + 1];
    }
    assert Path(h, q);
  }

  /** A set that holds the roots and is closed under references holds everything reachable. */
  lemma {:induction false} ClosedHolds(h: Cells, roots: set<Id>, s: set<Id>, p: seq<Id>)
    requires roots <= s && forall id :: id in s && id in h ==> CellRefs(h[id]) <= s
    requires Path(h, p) && p[0] in roots
    ensures p[|p| - 1] in s
    decreases |p|
  {
    if |p| > 1 {
      var q := p[..|p| - 1];
      assert Path(h, q);
      ClosedHolds(h, roots, s, q);
      assert p[|p| - 2] in h && p[|p| - 1] in CellRefs(h[p[|p| - 2]]);
    }
  }
}
