/** The mark/sweep collector for cycles that reference counting cannot free. */
module Collector {
  import opened Syntax
  import opened Heap
  import opened Marking
  import opened Sweeping

  /** The cells that are allocated, and those the machine itself holds. */
  class Store {
    var cells: Cells
    const roots: set<Id>

    constructor (cells: Cells, roots: set<Id>)
      ensures this.cells == cells && this.roots == roots
    {
      this.cells, this.roots := cells, roots;
    }

    /** Reference counting: a cell that nobody holds is freed, and so are those it alone held. */
    method Release()
      requires Grounded(cells, roots)
      modifies this`cells
      ensures Released(old(cells), cells, roots)
    {
      while exists id :: id in cells && !Held(cells, roots, id)
        invariant cells.Keys <= old(cells).Keys && forall id :: id in cells ==> cells[id] == old(cells)[id]
        invariant Grounded(cells, roots)
        invariant forall s :: Standing(old(cells), roots, s) ==> s <= cells.Keys
        decreases cells.Keys
      {
        var id :| id in cells && !Held(cells, roots, id);
        FreeKeepsGrounded(cells, roots, id);
        forall s | Standing(old(cells), roots, s)
          ensures s <= (cells - {id}).Keys
        {
          FreeKeepsStanding(old(cells), cells, roots, id, s);
        }
        cells := cells - {id};
      }
    }
  }

  /** Weak references to the tracked cells; they do not keep a cell alive. */
  class Registry {
    var objects: seq<Id>
    var arrays: seq<Id>
    var upvalues: seq<Id>

    constructor ()
      ensures objects == [] && arrays == [] && upvalues == []
    {
      objects, arrays, upvalues := [], [], [];
    }

    ghost function All(): set<Id>
      reads this
    {
      IdSet(objects) + IdSet(arrays) + IdSet(upvalues)
    }

    /** Every entry whose cell is still allocated points at a cell of its kind. */
    ghost predicate Matches(h: Cells)
      reads this
    {
      && (forall id :: id in objects && id in h ==> h[id].ObjectCell?)
      && (forall id :: id in arrays && id in h ==> h[id].ArrayCell?)
      && (forall id :: id in upvalues && id in h ==> h[id].UpvalueCell?)
    }

    /** Each list is decided by the marks of its kind. */
    lemma AllDecided(h: Cells, roots: set<Id>, m: Marks)
      requires Matches(h) && MarksReachable(h, roots, m)
      ensures Decides(h, roots, objects, m.objects) && Decides(h, roots, arrays, m.arrays)
      ensures Decides(h, roots, upvalues, m.upvalues)
      ensures All() == {} + IdSet(objects) + IdSet(arrays) + IdSet(upvalues)
    {
      hide Reachable;
    }

    method TrackObject(id: Id)
      modifies this`objects
      ensures objects == old(objects) + [id]
    {
      objects := objects + [id];
    }

    method TrackArray(id: Id)
      modifies this`arrays
      ensures arrays == old(arrays) + [id]
    {
      arrays := arrays + [id];
    }

    method TrackUpvalue(id: Id)
      modifies this`upvalues
      ensures upvalues == old(upvalues) + [id]
    {
      upvalues := upvalues + [id];
    }

    /** Forgets the entries whose cell is gone and counts the others. */
    method LiveCount(store: Store) returns (count: nat)
      modifies this
      ensures objects == Live(old(objects), store.cells.Keys)
      ensures arrays == Live(old(arrays), store.cells.Keys)
      ensures upvalues == Live(old(upvalues), store.cells.Keys)
      ensures count == |objects| + |arrays| + |upvalues|
    {
      objects := Prune(store, objects);
      arrays := Prune(store, arrays);
      upvalues := Prune(store, upvalues);
      count := |objects| + |arrays| + |upvalues|;
    }
  }

  method Prune(store: Store, entries: seq<Id>) returns (kept: seq<Id>)
    ensures kept == Live(entries, store.cells.Keys)
  {
    kept := [];
    for i := 0 to |entries|
      invariant kept == Live(entries[..i], store.cells.Keys)
    {
      assert entries[..i + 1] == entries[..i] + [entries[i]];
      LiveMore(entries[..i], entries[i], store.cells.Keys);
      if entries[i] in store.cells {
        kept := kept + [entries[i]];
      }
    }
    assert entries[..|entries|] == entries;
  }

  class Marker {
    var objects: set<Id>
    var arrays: set<Id>
    var upvalues: set<Id>
    var seen: set<Id>
    var work: seq<Work>

    constructor ()
      ensures Now() == Marks({}, {}, {}, {}) && work == []
    {
      objects, arrays, upvalues, seen, work := {}, {}, {}, {}, [];
    }

    ghost function Now(): Marks
      reads this
    {
      Marks(objects, arrays, upvalues, seen)
    }

    lemma NowIs()
      ensures Now() == Marks(objects, arrays, upvalues, seen)
    {
    }

    method PushValue(v: Value)
      modifies this`work
      ensures work == old(work) + [ValueWork(v)]
    {
      work := work + [ValueWork(v)];
    }

    method PushUpvalue(id: Id)
      modifies this`work
      ensures work == old(work) + [UpvalueWork(id)]
    {
      work := work + [UpvalueWork(id)];
    }

    method PushValues(vs: seq<Value>)
      modifies this`work
      ensures work == old(work) + Values(vs)
    {
      for i := 0 to |vs|
        invariant work == old(work) + Values(vs[..i])
      {
        assert Values(vs[..i + 1]) == Values(vs[..i]) + [ValueWork(vs[i])];
        PushValue(vs[i]);
      }
      assert vs[..|vs|] == vs;
    }

    method PushUpvalues(ids: seq<Id>)
      modifies this`work
      ensures work == old(work) + Upvalues(ids)
    {
      for i := 0 to |ids|
        invariant work == old(work) + Upvalues(ids[..i])
      {
        assert Upvalues(ids[..i + 1]) == Upvalues(ids[..i]) + [UpvalueWork(ids[i])];
        PushUpvalue(ids[i]);
      }
      assert ids[..|ids|] == ids;
    }

    method PushOwner(owner: Option<Id>)
      modifies this`work
      ensures work == old(work) + OptionalClass(owner)
    {
      if owner.Some? {
        work := work + [ClassWork(owner.value)];
      }
    }

    method MarkClass(c: Cell)
      requires c.ClassCell?
      modifies this`work
      ensures work == old(work) + Pushes(c)
    {
      hide Values, OptionalClass;
      ghost var w0 := work;
      PushMethods(c.methods);
      PushFields(c.fieldInits);
      PushValues(c.staticFields);
      PushOwner(c.parent);
      Chained4(w0, Closures(c.methods), Fields(c.fieldInits), Values(c.staticFields), OptionalClass(c.parent));
    }

    method PushMethods(ids: seq<Id>)
      modifies this`work
      ensures work == old(work) + Closures(ids)
    {
      for i := 0 to |ids|
        invariant work == old(work) + Closures(ids[..i])
      {
        assert Closures(ids[..i + 1]) == Closures(ids[..i]) + [ClosureWork(ids[i])];
        work := work + [ClosureWork(ids[i])];
      }
      assert ids[..|ids|] == ids;
    }

    method PushFields(fs: seq<FieldInit>)
      modifies this`work
      ensures work == old(work) + Fields(fs)
    {
      for i := 0 to |fs|
        invariant work == old(work) + Fields(fs[..i])
      {
        var f := fs[i];
        assert fs[..i + 1][..i] == fs[..i];
        ghost var before := work;
        if f.init.Some? {
          work := work + [ClosureWork(f.init.value)];
        }
        if f.default.Some? {
          PushValue(f.default.value);
        }
        assert work == before + FieldWork(f);
      }
      assert fs[..|fs|] == fs;
    }

    method MarkDelegate(d: Delegate)
      modifies this`work
      ensures work == old(work) + DelegateWork(d)
    {
      match d {
        case ToGenerator(id) => work := work + [GeneratorWork(id)];
        case ToValues(values) => PushValues(values);
      }
    }

    method MarkFrames(frames: seq<CallFrame>)
      modifies this`work
      ensures work == old(work) + Frames(frames)
    {
      for i := 0 to |frames|
        invariant work == old(work) + Frames(frames[..i])
      {
        assert frames[..i + 1][..i] == frames[..i];
        work := work + [ClosureWork(frames[i].closure)];
        PushOwner(frames[i].owner);
      }
      assert frames[..|frames|] == frames;
    }

    method MarkGenerator(c: Cell)
      requires c.GeneratorCell?
      modifies this`work
      ensures work == old(work) + Pushes(c)
    {
      hide Values, Frames, Upvalues, OptionalClass, DelegateWork;
      ghost var w0 := work;
      work := work + [ClosureWork(c.closure)];
      PushOwner(c.owner);
      PushValues(c.stack);
      MarkFrames(c.frames);
      Chained4(w0, [ClosureWork(c.closure)], OptionalClass(c.owner), Values(c.stack), Frames(c.frames));
      ghost var front := [ClosureWork(c.closure)] + OptionalClass(c.owner) + Values(c.stack) + Frames(c.frames);
      PushUpvalues(c.openUpvalues);
      PushValue(c.receiver);
      PushValues(c.args);
      if c.delegate.Some? {
        MarkDelegate(c.delegate.value);
      }
      assert work
        == w0 + front + Upvalues(c.openUpvalues) + [ValueWork(c.receiver)] + Values(c.args)
          + OptionalDelegate(c.delegate);
      Chained5(w0, front, Upvalues(c.openUpvalues), [ValueWork(c.receiver)], Values(c.args),
               OptionalDelegate(c.delegate));
    }

    /** Pushes what a newly marked cell refers to. */
    method PushCell(c: Cell)
      modifies this`work
      ensures work == old(work) + Pushes(c)
    {
      match c {
        case ArrayCell(elements) => PushValues(elements);
        case ObjectCell(entries) => PushValues(entries);
        case ClosureCell(upvalues) => PushUpvalues(upvalues);
        case ClassCell(_, _, _, _) => MarkClass(c);
        case GeneratorCell(_, _, _, _, _, _, _, _) => MarkGenerator(c);
        case IterCell(source) => MarkDelegate(source);
        case PromiseCell(Pending(onResolve, onReject)) =>
          PushValues(onResolve);
          PushValues(onReject);
        case PromiseCell(Settled(value)) => PushValue(value);
        case AggregateCell(results, resolve, reject) =>
          PushValues(results);
          PushValue(resolve);
          PushValue(reject);
        case UpvalueCell(Open(_)) =>
        case UpvalueCell(Closed(value)) => PushValue(value);
      }
    }

    /** The marker has taken the step `o`. */
    twostate predicate Took(new o: Outcome)
      reads this
    {
      Now() == o.marks && work == old(work) + o.pushed
    }

    method MarkValue(store: Store, v: Value)
      requires ValueOk(store.cells, v)
      modifies this
      ensures Took(ValueStep(store.cells, old(Now()), v))
    {
      match v {
        case Plain =>
        case ArrayRef(id) =>
          if id !in arrays {
            arrays := arrays + {id};
            PushCell(store.cells[id]);
          }
        case ObjectRef(id) =>
          if id !in objects {
            objects := objects + {id};
            PushCell(store.cells[id]);
          }
        case FunctionRef(id) => work := work + [ClosureWork(id)];
        case BoundMethod(receiver) => PushValue(receiver);
        case ClassRef(id) => work := work + [ClassWork(id)];
        case GeneratorRef(id) => work := work + [GeneratorWork(id)];
        case IterRef(id) => work := work + [IterWork(id)];
        case PromiseRef(id) => work := work + [PromiseWork(id)];
        case AsyncResume(coroutine, outer) =>
          work := work + [GeneratorWork(coroutine)];
          work := work + [PromiseWork(outer)];
        case ThenHandler(handler, resolve, reject) =>
          PushValue(handler);
          PushValue(resolve);
          PushValue(reject);
        case FinallyHandler(callback, capability) =>
          PushValue(callback);
          PushValue(capability);
        case AggregateHandler(id) => work := work + [AggregateWork(id)];
      }
    }

    /** `seen.insert` and, for a new cell, its `mark_*`. */
    method Visit(store: Store, id: Id)
      requires id in store.cells
      modifies this
      ensures Took(VisitStep(store.cells, old(Now()), id))
    {
      if id !in seen {
        seen := seen + {id};
        PushCell(store.cells[id]);
      }
    }

    method MarkUpvalue(store: Store, id: Id)
      requires id in store.cells
      modifies this
      ensures Took(if id in old(upvalues) then Outcome(old(Now()), [])
                   else Outcome(old(Now()).(upvalues := old(upvalues) + {id}), Pushes(store.cells[id])))
    {
      if id !in upvalues {
        upvalues := upvalues + {id};
        PushCell(store.cells[id]);
      }
    }

    method ProcessItem(store: Store, w: Work)
      requires WorkOk(store.cells, w)
      modifies this
      ensures Took(Process(store.cells, old(Now()), w))
    {
      match w {
        case ValueWork(value) => MarkValue(store, value);
        case UpvalueWork(id) => MarkUpvalue(store, id);
        case _ => Visit(store, w.id);
      }
    }

    /** Marking stops, and what it has marked is exactly what the roots pushed before reach. */
    method Run(store: Store)
      requires HeapOk(store.cells) && AllOk(store.cells, work) && Now() == Marks({}, {}, {}, {})
      modifies this
      ensures work == []
      ensures MarksReachable(store.cells, AllTargets(old(work)), Now())
    {
      ghost var roots := AllTargets(work);
      MarkingStarts(store.cells, work);
      while work != []
        invariant InProgress(store.cells, roots, Now(), work)
        decreases store.cells.Keys - Now().All(), AllWeight(work)
      {
        hide *;
        var item := work[|work| - 1];
        ghost var rest := work[..|work| - 1];
        ItemOk(store.cells, roots, Now(), work);
        ProcessKeeps(store.cells, roots, Now(), rest, item);
        ProcessShrinks(store.cells, Now(), rest, item);
        work := work[..|work| - 1];
        ProcessItem(store, item);
      }
      MarkingDone(store.cells, roots, Now());
    }

    method ClearCell(store: Store, id: Id, ghost h0: Cells, ghost swept: set<Id>)
      requires SweepState(h0, store.cells, store.roots, swept)
      requires id in store.cells && Tracked(store.cells[id]) && !Reachable(h0, store.roots, id)
      modifies store`cells
      ensures SweepState(h0, store.cells, store.roots, swept + {id})
      ensures store.cells.Keys <= old(store.cells).Keys
    {
      hide Reachable, Emptied, Standing, Held, Spared, Hollow;
      EmptyGrounded(store.cells, store.roots, id);
      store.cells := store.cells[id := Emptied(store.cells[id])];
      store.Release();
      ClearStep(h0, old(store.cells), store.cells, store.roots, swept, id);
    }

    /** Empties the entries that are still allocated and were not marked, and forgets those that are gone. */
    method SweepEntries(store: Store, entries: seq<Id>, marked: set<Id>, ghost h0: Cells, ghost swept: set<Id>)
      returns (kept: seq<Id>, cleared: nat)
      requires SweepState(h0, store.cells, store.roots, swept) && Decides(h0, store.roots, entries, marked)
      modifies store`cells
      ensures SweepState(h0, store.cells, store.roots, swept + IdSet(entries))
      ensures store.cells.Keys <= old(store.cells).Keys
      ensures Live(kept, store.cells.Keys) == Live(entries, store.cells.Keys)
      ensures cleared == 0 <==> AllReached(h0, old(store.cells).Keys, store.roots, IdSet(entries))
      ensures cleared == 0 ==> store.cells == old(store.cells)
      ensures Garbage(h0, store.roots, entries, store.cells.Keys) <= cleared
           <= Garbage(h0, store.roots, entries, old(store.cells).Keys)
      ensures AllLive(kept, old(store.cells).Keys)
    {
      kept, cleared := [], 0;
      NoneKept(store.cells.Keys);
      NothingCounted(h0, store.roots, entries, store.cells.Keys);
      assert swept + IdSet(entries[..0]) == swept;
      for i := 0 to |entries|
        invariant SweepState(h0, store.cells, store.roots, swept + IdSet(entries[..i]))
        invariant store.cells.Keys <= old(store.cells).Keys
        invariant Live(kept, store.cells.Keys) == Live(entries[..i], store.cells.Keys)
        invariant cleared == 0 <==> AllReached(h0, old(store.cells).Keys, store.roots, IdSet(entries[..i]))
        invariant cleared == 0 ==> store.cells == old(store.cells)
        invariant Garbage(h0, store.roots, entries[..i], store.cells.Keys) <= cleared
               <= Garbage(h0, store.roots, entries[..i], old(store.cells).Keys)
        invariant AllLive(kept, old(store.cells).Keys)
      {
        hide *;
        var id := entries[i];
        ghost var before, h, count := swept + IdSet(entries[..i]), store.cells, cleared;
        OneMore(entries, i);
        assert swept + IdSet(entries[..i + 1]) == before + {id};
        OneMoreReached(h0, old(store.cells).Keys, store.roots, IdSet(entries[..i]), id);
        if id in store.cells {
          EntryDecided(h0, store.cells, store.roots, before, entries, marked, i);
          if id !in marked {
            ClearCell(store, id, h0, before);
            cleared := cleared + 1;
          } else {
            SkipStep(h0, store.cells, store.roots, before, id);
          }
          OneMoreLive(kept, entries, i, h.Keys, store.cells.Keys);
          OneMoreKept(kept, id, old(store.cells).Keys);
          kept := kept + [id];
        } else {
          SkipStep(h0, store.cells, store.roots, before, id);
          OneMoreLive(kept, entries, i, h.Keys, store.cells.Keys);
        }
        CountOne(h0, store.roots, entries, i, old(store.cells).Keys, h.Keys, store.cells.Keys, count);
      }
      assert entries[..|entries|] == entries;
    }

    /** Empties every registered cell that is still allocated and was not marked. */
    method Sweep(store: Store, registry: Registry) returns (cleared: nat)
      requires Grounded(store.cells, store.roots) && Balanced(store.cells, store.roots)
      requires MarksReachable(store.cells, store.roots, Now()) && registry.Matches(store.cells)
      modifies store`cells, registry
      ensures SweepState(old(store.cells), store.cells, store.roots, old(registry.All()))
      ensures Live(registry.objects, store.cells.Keys) == Live(old(registry.objects), store.cells.Keys)
      ensures Live(registry.arrays, store.cells.Keys) == Live(old(registry.arrays), store.cells.Keys)
      ensures Live(registry.upvalues, store.cells.Keys) == Live(old(registry.upvalues), store.cells.Keys)
      ensures cleared == 0 <==>
              AllReached(old(store.cells), old(store.cells).Keys, store.roots, old(registry.All()))
      ensures AllLive(registry.objects, old(store.cells).Keys) && AllLive(registry.arrays, old(store.cells).Keys)
      ensures AllLive(registry.upvalues, old(store.cells).Keys)
      ensures Counted(old(store.cells), store.roots, old(registry.objects), old(registry.arrays),
                       old(registry.upvalues), store.cells.Keys, cleared)
    {
      hide *;
      ghost var h0, o, a, u := store.cells, registry.objects, registry.arrays, registry.upvalues;
      SweepStarts(h0, store.roots);
      NowIs();
      registry.AllDecided(h0, store.roots, Now());
      var c1, c2, c3;
      registry.objects, c1 := SweepEntries(store, registry.objects, objects, h0, {});
      ghost var k1 := store.cells.Keys;
      registry.arrays, c2 := SweepEntries(store, registry.arrays, arrays, h0, {} + IdSet(o));
      ghost var k2 := store.cells.Keys;
      SameLater(registry.objects, o, k1, k2);
      registry.upvalues, c3 := SweepEntries(store, registry.upvalues, upvalues, h0, {} + IdSet(o) + IdSet(a));
      SameLater(registry.objects, o, k2, store.cells.Keys);
      SameLater(registry.arrays, a, k2, store.cells.Keys);
      LiveBefore(registry.arrays, k1, h0.Keys);
      LiveBefore(registry.upvalues, k2, h0.Keys);
      Tally(h0, store.roots, h0.Keys, k1, k2, IdSet(o), IdSet(a), IdSet(u), c1, c2, c3);
      CountAll(h0, store.roots, o, a, u, h0.Keys, k1, k2, store.cells.Keys, c1, c2, c3);
      cleared := c1 + c2 + c3;
    }
  }

  /** One collection: mark from the machine's own values and open upvalues, then sweep. */
  method CollectCycles(store: Store, registry: Registry, values: seq<Value>, openUpvalues: seq<Id>)
      returns (cleared: nat)
    requires HeapOk(store.cells) && Balanced(store.cells, store.roots) && registry.Matches(store.cells)
    requires AllOk(store.cells, Values(values) + Upvalues(openUpvalues))
    requires store.roots == AllTargets(Values(values) + Upvalues(openUpvalues))
    modifies store`cells, registry
    ensures SweepState(old(store.cells), store.cells, store.roots, old(registry.All()))
    ensures Live(registry.objects, store.cells.Keys) == Live(old(registry.objects), store.cells.Keys)
    ensures Live(registry.arrays, store.cells.Keys) == Live(old(registry.arrays), store.cells.Keys)
    ensures Live(registry.upvalues, store.cells.Keys) == Live(old(registry.upvalues), store.cells.Keys)
    ensures cleared == 0 <==>
            AllReached(old(store.cells), old(store.cells).Keys, store.roots, old(registry.All()))
    ensures AllLive(registry.objects, old(store.cells).Keys) && AllLive(registry.arrays, old(store.cells).Keys)
    ensures AllLive(registry.upvalues, old(store.cells).Keys)
    ensures Counted(old(store.cells), store.roots, old(registry.objects), old(registry.arrays), old(registry.upvalues),
                     store.cells.Keys, cleared)
  {
    hide *;
    WellFormedIsGrounded(store.cells, Values(values) + Upvalues(openUpvalues));
    var marker := new Marker();
    marker.NowIs();
    marker.PushValues(values);
    marker.PushUpvalues(openUpvalues);
    marker.NowIs();
    NothingBefore(values, openUpvalues);
    marker.Run(store);
    cleared := marker.Sweep(store, registry);
  }

  lemma NothingBefore(values: seq<Value>, openUpvalues: seq<Id>)
    ensures [] + Values(values) + Upvalues(openUpvalues) == Values(values) + Upvalues(openUpvalues)
  {
  }

  lemma WellFormedIsGrounded(h: Cells, work: seq<Work>)
    requires HeapOk(h) && AllOk(h, work)
    ensures Grounded(h, AllTargets(work))
  {
    TargetsExist(h, work);
    forall id | id in h
      ensures CellRefs(h[id]) <= h.Keys
    {
      NothingDangles(h, id);
    }
  }
}
