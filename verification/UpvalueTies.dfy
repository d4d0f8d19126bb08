/** The machine's cells behave like variables: running with shared, open and closed cells is running a simple form in
    which every slot is a variable from the start and closures hold variables. */
module UpvalueTies {
  import opened Syntax
  import opened UpvalueCells
  import C = Captures

  // ---- The simple form: every slot is a variable ----

  datatype Boxes = Boxes(slots: seq<nat>, store: seq<Value>, frames: seq<Running>, kept: seq<Value>) {
    predicate Valid() {
      forall i :: 0 <= i < |slots| ==> slots[i] < |store|
    }
  }

  function Boxed(b: Boxes, v: Value): Boxes {
    b.(slots := b.slots + [|b.store|], store := b.store + [v])
  }

  function BoxedAll(b: Boxes, vs: seq<Value>): Boxes {
    b.(slots := b.slots + seq(|vs|, i => |b.store| + i), store := b.store + vs)
  }

  function CutBoxes(b: Boxes, height: nat): Boxes
    requires height <= |b.slots|
  {
    b.(slots := b.slots[..height])
  }

  /** From here on the slots are new variables with the values of the old ones. */
  function Renewed(b: Boxes, from: nat): Boxes
    requires b.Valid() && from <= |b.slots|
  {
    var vs := seq(|b.slots| - from, i requires 0 <= i < |b.slots| - from => b.store[b.slots[from + i]]);
    BoxedAll(CutBoxes(b, from), vs)
  }

  function Assigned(b: Boxes, x: nat, v: Value): Boxes
    requires x < |b.store|
  {
    b.(store := b.store[x := v])
  }

  /** What the running function sees. */
  function View(b: Boxes): C.Frame
    requires b.frames != [] && Top(b.frames).base <= |b.slots|
  {
    C.Frame(b.slots[Top(b.frames).base..], Top(b.frames).upvalues)
  }

  predicate CanBox(b: Boxes, op: Op) {
    && b.frames != [] && b.Valid()
    && var top := |b.slots| - 1;
    var frame := Top(b.frames);
    match op
    case Push(_) => true
    case Pop => top >= 0
    case GetLocal(s) => frame.base + s <= top
    case SetLocal(s) => frame.base + s <= top
    case GetUpvalue(k) => k < |frame.upvalues| && frame.upvalues[k] < |b.store|
    case SetUpvalue(k) => k < |frame.upvalues| && frame.upvalues[k] < |b.store| && top >= 0
    case CloseUpvalue => top >= 0
    case CloseUpvalueTo(s) => true
    case MakeClosure(ds) => frame.base <= top + 1 && DescsFit(ds, top + 1 - frame.base, |frame.upvalues|)
    case Call(argc, _) => argc <= top && b.store[b.slots[top - argc]].Fun?
    case Return => frame.base <= top && |b.frames| > 1
    case Unwind(height, depth, _) => height <= top + 1 && 0 < depth <= |b.frames|
    case Keep => top >= 0
    case Recall(i) => i < |b.kept|
  }

  function ExecBox(b: Boxes, op: Op): Boxes
    requires CanBox(b, op)
  {
    var top := |b.slots| - 1;
    var frame := Top(b.frames);
    match op
    case Push(n) => Boxed(b, Data(n))
    case Pop => CutBoxes(b, top)
    case GetLocal(s) => Boxed(b, b.store[b.slots[frame.base + s]])
    case SetLocal(s) => Assigned(b, b.slots[frame.base + s], b.store[b.slots[top]])
    case GetUpvalue(k) => Boxed(b, b.store[frame.upvalues[k]])
    case SetUpvalue(k) => Assigned(b, frame.upvalues[k], b.store[b.slots[top]])
    case CloseUpvalue => CutBoxes(b, top)
    case CloseUpvalueTo(s) => if frame.base + s <= top then Renewed(b, frame.base + s) else b
    case MakeClosure(ds) => Boxed(b, Fun(C.Closed(ds, View(b))))
    case Call(argc, arity) =>
      var args := seq(argc, i requires 0 <= i < argc => b.store[b.slots[top - argc + 1 + i]]);
      BoxedAll(CutBoxes(b, top - argc + 1), Fit(args, arity))
        .(frames := b.frames + [Running(top - argc, b.store[b.slots[top - argc]].upvalues)])
    case Return =>
      Boxed(CutBoxes(b, frame.base).(frames := b.frames[..|b.frames| - 1]), b.store[b.slots[top]])
    case Unwind(height, depth, n) => Boxed(CutBoxes(b, height).(frames := b.frames[..depth]), Data(n))
    case Keep => b.(kept := b.kept + [b.store[b.slots[top]]])
    case Recall(i) => Boxed(b, b.kept[i])
  }

  // ---- What ties the two ----

  /** The same value, when cell `c` stands for variable `h[c]`. */
  predicate Same(h: seq<nat>, v: Value, w: Value) {
    if v.Fun? then
      && w.Fun? && |w.upvalues| == |v.upvalues|
      && forall i :: 0 <= i < |v.upvalues| ==> v.upvalues[i] < |h| && w.upvalues[i] == h[v.upvalues[i]]
    else v == w
  }

  ghost predicate AllSame(h: seq<nat>, vs: seq<Value>, ws: seq<Value>) {
    |vs| == |ws| && forall i :: 0 <= i < |vs| ==> Same(h, vs[i], ws[i])
  }

  /** Slots are different variables and hold the values on the stack. */
  ghost predicate StackMatches(h: seq<nat>, stack: seq<Value>, b: Boxes) {
    && b.Valid() && |b.slots| == |stack|
    && (forall i, j :: 0 <= i < j < |b.slots| ==> b.slots[i] != b.slots[j])
    && (forall i :: 0 <= i < |stack| ==> Same(h, stack[i], b.store[b.slots[i]]))
  }

  /** An open cell points at the slot of its variable and is listed; a closed one has the variable to itself. */
  predicate CellMatches(h: seq<nat>, m: Machine, b: Boxes, c: nat)
    requires c < |m.cells| && c < |h|
  {
    h[c] < |b.store| &&
    match m.cells[c]
    case Open(i) => i < |b.slots| && b.slots[i] == h[c] && c in m.open
    case Closed(v) => Same(h, v, b.store[h[c]]) && h[c] !in b.slots
  }

  ghost predicate CellsMatch(h: seq<nat>, m: Machine, b: Boxes) {
    && |h| == |m.cells|
    && (forall c, d :: 0 <= c < d < |h| ==> h[c] != h[d])
    && (forall c :: 0 <= c < |h| ==> CellMatches(h, m, b, c))
  }

  ghost predicate FramesMatch(h: seq<nat>, fs: seq<Running>, gs: seq<Running>) {
    |fs| == |gs| && forall j :: 0 <= j < |fs| ==>
      fs[j].base == gs[j].base && Same(h, Fun(fs[j].upvalues), Fun(gs[j].upvalues))
  }

  ghost predicate Matches(h: seq<nat>, m: Machine, b: Boxes) {
    && Tracked(m) && StackMatches(h, m.stack, b) && CellsMatch(h, m, b) && FramesMatch(h, m.frames, b.frames)
    && AllSame(h, m.kept, b.kept)
  }

  // ---- The primitives keep the tie ----

  lemma PushMatches(h: seq<nat>, m: Machine, b: Boxes, v: Value, w: Value)
    requires Matches(h, m, b) && Same(h, v, w)
    ensures Matches(h, Pushed(m, v), Boxed(b, w))
  {
    var b' := Boxed(b, w);
    forall c | 0 <= c < |h|
      ensures CellMatches(h, Pushed(m, v), b', c)
    {
      assert CellMatches(h, m, b, c);
    }
  }

  lemma PushAllMatches(h: seq<nat>, m: Machine, b: Boxes, vs: seq<Value>, ws: seq<Value>)
    requires Matches(h, m, b) && AllSame(h, vs, ws)
    ensures Matches(h, m.(stack := m.stack + vs), BoxedAll(b, ws))
  {
    var m', b' := m.(stack := m.stack + vs), BoxedAll(b, ws);
    forall c | 0 <= c < |h|
      ensures CellMatches(h, m', b', c)
    {
      assert CellMatches(h, m, b, c);
    }
  }

  /** No open cell points at the slots from `height` up. */
  ghost predicate Free(m: Machine, height: nat) {
    forall c :: 0 <= c < |m.cells| ==> m.cells[c].Open? ==> m.cells[c].slot < height
  }

  lemma CutMatches(h: seq<nat>, m: Machine, b: Boxes, height: nat)
    requires Matches(h, m, b) && height <= |m.stack| && Free(m, height)
    ensures Matches(h, Cut(m, height), CutBoxes(b, height))
  {
    var m', b' := Cut(m, height), CutBoxes(b, height);
    forall c | 0 <= c < |h|
      ensures CellMatches(h, m', b', c)
    {
      assert CellMatches(h, m, b, c);
    }
  }

  /** Under the tie every open cell can be closed. */
  lemma MatchesClosable(h: seq<nat>, m: Machine, b: Boxes, from: nat)
    requires Matches(h, m, b)
    ensures Closable(m, from)
  {
    forall k | 0 <= k < |m.open| && m.open[k] < |m.cells|
      ensures m.cells[m.open[k]].Open? ==> m.cells[m.open[k]].slot < |m.stack|
    {
      assert CellMatches(h, m, b, m.open[k]);
    }
  }

  lemma CloseMatches(h: seq<nat>, m: Machine, b: Boxes, from: nat)
    requires Matches(h, m, b) && from <= |m.stack| && Closable(m, from)
    ensures Matches(h, CloseFrom(m, from), Renewed(b, from)) && Free(CloseFrom(m, from), from)
  {
    var m', b' := CloseFrom(m, from), Renewed(b, from);
    CloseTracked(m, from);
    RenewedMatches(h, m.stack, b, from);
    hide Tracked, StackMatches, FramesMatch, AllSame;
    forall c | 0 <= c < |h|
      ensures CellMatches(h, m', b', c) && (m'.cells[c].Open? ==> m'.cells[c].slot < from)
    {
      ClosedCellMatches(h, m, b, from, c);
    }
  }

  lemma RenewedMatches(h: seq<nat>, stack: seq<Value>, b: Boxes, from: nat)
    requires StackMatches(h, stack, b) && from <= |stack|
    ensures StackMatches(h, stack, Renewed(b, from))
  {
    var b' := Renewed(b, from);
    forall i | 0 <= i < |stack|
      ensures b'.slots[i] == (if i < from then b.slots[i] else |b.store| + i - from) < |b'.store|
      ensures b'.store[b'.slots[i]] == b.store[b.slots[i]]
    {
    }
    hide Renewed, Same;
  }

  lemma ClosedCellMatches(h: seq<nat>, m: Machine, b: Boxes, from: nat, c: nat)
    requires Tracked(m) && Closable(m, from) && StackMatches(h, m.stack, b) && CellsMatch(h, m, b) && c < |h|
    requires from <= |m.stack|
    ensures CellMatches(h, CloseFrom(m, from), Renewed(b, from), c)
    ensures var cell := CloseFrom(m, from).cells[c];
            cell.Open? ==> cell.slot < from
  {
    assert CellMatches(h, m, b, c);
    var b' := Renewed(b, from);
    forall i | 0 <= i < |b'.slots| && b'.slots[i] == h[c]
      ensures i < from && b.slots[i] == h[c]
    {
    }
  }

  /** Above the stack there is nothing to close. */
  lemma NothingToClose(h: seq<nat>, m: Machine, b: Boxes, from: nat)
    requires Matches(h, m, b) && |m.stack| <= from && Closable(m, from)
    ensures Matches(h, CloseFrom(m, from), b)
  {
    var m' := CloseFrom(m, from);
    CloseTracked(m, from);
    forall c | 0 <= c < |h|
      ensures CellMatches(h, m', b, c)
    {
      assert CellMatches(h, m, b, c);
    }
  }

  lemma WriteSlotMatches(h: seq<nat>, m: Machine, b: Boxes, i: nat, v: Value, w: Value)
    requires Matches(h, m, b) && i < |m.stack| && Same(h, v, w)
    ensures Matches(h, m.(stack := m.stack[i := v]), Assigned(b, b.slots[i], w))
  {
    var m', b' := m.(stack := m.stack[i := v]), Assigned(b, b.slots[i], w);
    forall c | 0 <= c < |h|
      ensures CellMatches(h, m', b', c)
    {
      assert CellMatches(h, m, b, c);
    }
  }

  lemma WriteCellMatches(h: seq<nat>, m: Machine, b: Boxes, c: nat, v: Value, w: Value)
    requires Matches(h, m, b) && c < |h| && Same(h, v, w)
    ensures h[c] < |b.store| && Matches(h, WriteCell(m, c, v), Assigned(b, h[c], w))
  {
    assert CellMatches(h, m, b, c);
    if m.cells[c].Open? {
      WriteSlotMatches(h, m, b, m.cells[c].slot, v, w);
    } else {
      var m', b' := WriteCell(m, c, v), Assigned(b, h[c], w);
      assert forall i :: 0 <= i < |b.slots| ==> b.slots[i] in b.slots;
      forall d | 0 <= d < |h|
        ensures CellMatches(h, m', b', d)
      {
        assert CellMatches(h, m, b, d);
      }
    }
  }

  lemma ReadCellSame(h: seq<nat>, m: Machine, b: Boxes, c: nat)
    requires Matches(h, m, b) && c < |h|
    ensures h[c] < |b.store| && Same(h, ReadCell(m, c), b.store[h[c]])
  {
    assert CellMatches(h, m, b, c);
  }

  lemma SameLater(h: seq<nat>, h': seq<nat>, vs: seq<Value>, ws: seq<Value>)
    requires h <= h' && AllSame(h, vs, ws)
    ensures AllSame(h', vs, ws)
  {
  }

  /** Capturing a slot gives a cell that stands for the slot's variable. */
  lemma CaptureMatches(h: seq<nat>, m: Machine, b: Boxes, idx: nat) returns (h': seq<nat>)
    requires Matches(h, m, b) && idx < |m.stack|
    ensures var (m', c) := Capture(m, idx);
            h <= h' && Matches(h', m', b) && c < |h'| && h'[c] == b.slots[idx]
  {
    var found := FindOpen(m.cells, m.open, idx);
    if found.Some? {
      assert CellMatches(h, m, b, found.value);
      h' := h;
    } else {
      h' := h + [b.slots[idx]];
      NewCellMatches(h, m, b, idx);
    }
  }

  lemma NewCellMatches(h: seq<nat>, m: Machine, b: Boxes, idx: nat)
    requires Matches(h, m, b) && idx < |m.stack| && FindOpen(m.cells, m.open, idx).None?
    ensures Matches(h + [b.slots[idx]], m.(cells := m.cells + [Open(idx)], open := m.open + [|m.cells|]), b)
  {
    var h', m' := h + [b.slots[idx]], m.(cells := m.cells + [Open(idx)], open := m.open + [|m.cells|]);
    SameLater(h, h', m.kept, b.kept);
    forall c | 0 <= c < |h|
      ensures CellMatches(h', m', b, c) && h[c] != b.slots[idx]
    {
      assert CellMatches(h, m, b, c);
      assert b.slots[idx] in b.slots;
    }
    CaptureTracked(m, idx);
  }

  lemma {:induction false} CaptureAllMatches(h: seq<nat>, m: Machine, b: Boxes, ds: seq<C.UpvalueDesc>)
    returns (h': seq<nat>)
    requires Matches(h, m, b) && m.frames != [] && Top(m.frames).base <= |m.stack|
    requires DescsFit(ds, |m.stack| - Top(m.frames).base, |Top(m.frames).upvalues|)
    ensures DescsFit(ds, |View(b).slots|, |View(b).upvalues|)
    ensures var frame := Top(m.frames);
            var (m', us) := CaptureAll(m, ds, frame.base, frame.upvalues);
            && h <= h' && Matches(h', m', b) && m'.stack == m.stack && m'.frames == m.frames
            && Same(h', Fun(us), Fun(C.Closed(ds, View(b))))
    decreases |ds|
  {
    hide Matches, Capture;
    ViewFits(h, m, b, ds);
    if ds == [] {
      h' := h;
    } else {
      var n, frame := |ds| - 1, Top(m.frames);
      var h1 := CaptureAllMatches(h, m, b, ds[..n]);
      var (m1, us) := CaptureAll(m, ds[..n], frame.base, frame.upvalues);
      h' := OneMoreCell(h1, m1, b, ds[n]);
      CaptureAllUnfold(m, ds, frame.base, frame.upvalues);
      OneMoreVariable(h1, h', b, ds, us, CaptureAll(m, ds, frame.base, frame.upvalues).1[n]);
    }
  }

  lemma ViewFits(h: seq<nat>, m: Machine, b: Boxes, ds: seq<C.UpvalueDesc>)
    requires Matches(h, m, b) && m.frames != [] && Top(m.frames).base <= |m.stack|
    requires DescsFit(ds, |m.stack| - Top(m.frames).base, |Top(m.frames).upvalues|)
    ensures b.frames != [] && Top(b.frames).base == Top(m.frames).base <= |b.slots|
    ensures Tracked(m) && Same(h, Fun(Top(m.frames).upvalues), Fun(Top(b.frames).upvalues))
    ensures DescsFit(ds, |View(b).slots|, |View(b).upvalues|)
  {
  }

  lemma OneMoreCell(h: seq<nat>, m: Machine, b: Boxes, d: C.UpvalueDesc) returns (h': seq<nat>)
    requires Matches(h, m, b) && m.frames != [] && Top(m.frames).base <= |m.stack| && Tracked(m)
    requires DescsFit([d], |m.stack| - Top(m.frames).base, |Top(m.frames).upvalues|)
    requires [d][0] == d
    ensures DescsFit([d], |View(b).slots|, |View(b).upvalues|)
    ensures var (m', c) := CaptureOne(m, d, Top(m.frames).base, Top(m.frames).upvalues);
            && h <= h' && Matches(h', m', b) && m'.stack == m.stack && m'.frames == m.frames && c < |h'|
            && h'[c] == if d.fromParentLocal then View(b).slots[d.index] else View(b).upvalues[d.index]
  {
    ViewFits(h, m, b, [d]);
    if d.fromParentLocal {
      CaptureTracked(m, Top(m.frames).base + d.index);
      hide Matches, Capture;
      h' := CaptureMatches(h, m, b, Top(m.frames).base + d.index);
    } else {
      h' := h;
    }
  }

  lemma OneMoreVariable(h: seq<nat>, h': seq<nat>, b: Boxes, ds: seq<C.UpvalueDesc>, us: seq<nat>, c: nat)
    requires b.frames != [] && Top(b.frames).base <= |b.slots| && ds != [] && h <= h' && c < |h'|
    requires DescsFit(ds, |View(b).slots|, |View(b).upvalues|)
    requires Same(h, Fun(us), Fun(C.Closed(ds[..|ds| - 1], View(b))))
    requires var d := ds[|ds| - 1];
             h'[c] == if d.fromParentLocal then View(b).slots[d.index] else View(b).upvalues[d.index]
    ensures Same(h', Fun(us + [c]), Fun(C.Closed(ds, View(b))))
  {
  }

  /** Ending slots, with their open cells closed first: the variables of the closed cells are no slots any more. */
  lemma EndMatches(h: seq<nat>, m: Machine, b: Boxes, from: nat)
    requires Matches(h, m, b) && from <= |m.stack| && Closable(m, from)
    ensures Matches(h, Cut(CloseFrom(m, from), from), CutBoxes(b, from))
  {
    var m', b' := Cut(CloseFrom(m, from), from), CutBoxes(b, from);
    CloseTracked(m, from);
    forall c | 0 <= c < |h|
      ensures CellMatches(h, m', b', c)
    {
      assert CellMatches(h, m, b, c);
    }
  }

  lemma FramesChange(h: seq<nat>, m: Machine, b: Boxes, fs: seq<Running>, gs: seq<Running>)
    requires Matches(h, m, b) && FramesMatch(h, fs, gs)
    ensures Matches(h, m.(frames := fs), b.(frames := gs))
  {
    var m', b' := m.(frames := fs), b.(frames := gs);
    forall c | 0 <= c < |h|
      ensures CellMatches(h, m', b', c)
    {
      assert CellMatches(h, m, b, c);
    }
  }

  // ---- One step ----

  /** How many slots the step removes without closing anything. */
  function Drops(op: Op): nat {
    match op
    case Pop => 1
    case Call(argc, _) => argc
    case Return => 1
    case _ => 0
  }

  /** What is removed without closing is not captured. */
  ghost predicate Clean(m: Machine, op: Op) {
    Drops(op) <= |m.stack| ==> Free(m, |m.stack| - Drops(op))
  }

  /** A clean step is possible on the machine exactly when it is possible in the simple form. */
  lemma CanAgree(h: seq<nat>, m: Machine, b: Boxes, op: Op)
    requires Matches(h, m, b) && Clean(m, op)
    ensures Can(m, op) <==> CanBox(b, op)
  {
    TopsMatch(h, m, b);
    ClosableHere(h, m, b);
    hide Closable, CellsMatch, AllSame;
    match op
    case Call(argc, _) =>
      assert argc < |m.stack| ==> Same(h, m.stack[|m.stack| - 1 - argc], b.store[b.slots[|m.stack| - 1 - argc]]);
    case Recall(_) => KeptMatch(h, m, b);
    case Return =>
      if m.stack != [] && m.frames != [] {
        CutClosable(m, Top(m.frames).base);
      }
    case _ =>
  }

  lemma TopsMatch(h: seq<nat>, m: Machine, b: Boxes)
    requires Matches(h, m, b)
    ensures |m.frames| == |b.frames| && |m.stack| == |b.slots|
    ensures m.frames != [] ==>
              && Top(m.frames).base == Top(b.frames).base
              && Same(h, Fun(Top(m.frames).upvalues), Fun(Top(b.frames).upvalues))
              && forall k :: 0 <= k < |Top(m.frames).upvalues| ==>
                   Top(m.frames).upvalues[k] < |m.cells| && Top(b.frames).upvalues[k] < |b.store|
  {
    if m.frames != [] {
      var us, vs := Top(m.frames).upvalues, Top(b.frames).upvalues;
      forall k | 0 <= k < |us|
        ensures us[k] < |m.cells| && vs[k] < |b.store|
      {
        assert us[k] < |h| && vs[k] == h[us[k]];
        assert CellMatches(h, m, b, us[k]);
      }
    }
  }

  lemma ClosableHere(h: seq<nat>, m: Machine, b: Boxes)
    requires Matches(h, m, b)
    ensures forall from :: Closable(m, from)
  {
    hide Closable;
    forall from: nat
      ensures Closable(m, from)
    {
      MatchesClosable(h, m, b, from);
    }
  }

  lemma KeptMatch(h: seq<nat>, m: Machine, b: Boxes)
    requires Matches(h, m, b)
    ensures |m.kept| == |b.kept|
  {
  }

  lemma CutClosable(m: Machine, from: nat)
    requires Tracked(m) && m.stack != [] && Free(m, |m.stack| - 1)
    ensures Closable(Cut(m, |m.stack| - 1), from)
  {
  }

  /** The machine does what the simple form does. */
  lemma StepMatches(h: seq<nat>, m: Machine, b: Boxes, op: Op) returns (h': seq<nat>)
    requires Matches(h, m, b) && Can(m, op) && Clean(m, op)
    ensures CanBox(b, op) && h <= h' && Matches(h', Exec(m, op), ExecBox(b, op))
  {
    CanAgree(h, m, b, op);
    h' := h;
    hide Matches, Can, CanBox, Exec, ExecBox, Clean;
    match op
    case MakeClosure(_) => h' := ClosureMatches(h, m, b, op);
    case Call(_, _) => CallMatches(h, m, b, op);
    case Return => ReturnMatches(h, m, b, op);
    case SetLocal(_) => SetLocalMatches(h, m, b, op);
    case SetUpvalue(_) => SetMatches(h, m, b, op);
    case CloseUpvalue => DropMatches(h, m, b, op);
    case CloseUpvalueTo(_) => CloseToMatches(h, m, b, op);
    case Unwind(_, _, _) => UnwindMatches(h, m, b, op);
    case Pop => DropMatches(h, m, b, op);
    case Keep => KeepMatches(h, m, b);
    case _ => PushedMatches(h, m, b, op);
  }

  lemma SetLocalMatches(h: seq<nat>, m: Machine, b: Boxes, op: Op)
    requires Matches(h, m, b) && Can(m, op) && CanBox(b, op) && op.SetLocal?
    ensures Matches(h, Exec(m, op), ExecBox(b, op))
  {
    TopsMatch(h, m, b);
    var top := |m.stack| - 1;
    SlotSame(h, m, b, top);
    hide Matches, Tracked, Closable, Same, Assigned;
    WriteSlotMatches(h, m, b, Top(m.frames).base + op.slot, m.stack[top], b.store[b.slots[top]]);
  }

  lemma DropMatches(h: seq<nat>, m: Machine, b: Boxes, op: Op)
    requires Matches(h, m, b) && Can(m, op) && Clean(m, op) && CanBox(b, op) && (op.Pop? || op.CloseUpvalue?)
    ensures Matches(h, Exec(m, op), ExecBox(b, op))
  {
    TopsMatch(h, m, b);
    if op.Pop? {
      CutMatches(h, m, b, |m.stack| - 1);
    } else {
      EndMatches(h, m, b, |m.stack| - 1);
    }
  }

  lemma SlotSame(h: seq<nat>, m: Machine, b: Boxes, i: nat)
    requires Matches(h, m, b) && i < |m.stack|
    ensures |b.slots| == |m.stack| && b.slots[i] < |b.store| && Same(h, m.stack[i], b.store[b.slots[i]])
  {
  }

  lemma PushedMatches(h: seq<nat>, m: Machine, b: Boxes, op: Op)
    requires Matches(h, m, b) && Can(m, op) && CanBox(b, op)
    requires op.Push? || op.GetLocal? || op.GetUpvalue? || op.Recall?
    ensures Matches(h, Exec(m, op), ExecBox(b, op))
  {
    TopsMatch(h, m, b);
    hide Closable, CellsMatch, Tracked, ReadCell, Boxed, Pushed;
    match op
    case Push(n) => PushMatches(h, m, b, Data(n), Data(n));
    case GetLocal(s) =>
      var i := Top(m.frames).base + s;
      SlotSame(h, m, b, i);
      PushMatches(h, m, b, m.stack[i], b.store[b.slots[i]]);
    case GetUpvalue(k) =>
      var c := Top(m.frames).upvalues[k];
      ReadCellSame(h, m, b, c);
      PushMatches(h, m, b, ReadCell(m, c), b.store[h[c]]);
    case Recall(i) => PushMatches(h, m, b, m.kept[i], b.kept[i]);
  }

  lemma SetMatches(h: seq<nat>, m: Machine, b: Boxes, op: Op)
    requires Matches(h, m, b) && Can(m, op) && CanBox(b, op) && op.SetUpvalue?
    ensures Matches(h, Exec(m, op), ExecBox(b, op))
  {
    TopsMatch(h, m, b);
    var top := |m.stack| - 1;
    SlotSame(h, m, b, top);
    hide Matches, Tracked, Closable, WriteCell;
    WriteCellMatches(h, m, b, Top(m.frames).upvalues[op.slot], m.stack[top], b.store[b.slots[top]]);
  }

  lemma CloseToMatches(h: seq<nat>, m: Machine, b: Boxes, op: Op)
    requires Matches(h, m, b) && Can(m, op) && CanBox(b, op) && op.CloseUpvalueTo?
    ensures Matches(h, Exec(m, op), ExecBox(b, op))
  {
    TopsMatch(h, m, b);
    hide Matches, Tracked, Closable, CloseFrom, Renewed, Same;
    var from := Top(m.frames).base + op.slot;
    if from < |m.stack| {
      CloseMatches(h, m, b, from);
    } else {
      NothingToClose(h, m, b, from);
    }
  }

  lemma UnwindMatches(h: seq<nat>, m: Machine, b: Boxes, op: Op)
    requires Matches(h, m, b) && Can(m, op) && CanBox(b, op) && op.Unwind?
    ensures Matches(h, Exec(m, op), ExecBox(b, op))
  {
    EndMatches(h, m, b, op.height);
    hide Closable, CellsMatch, Tracked, CloseFrom;
    var m1, b1 := Cut(CloseFrom(m, op.height), op.height), CutBoxes(b, op.height);
    FramesChange(h, m1, b1, m.frames[..op.depth], b.frames[..op.depth]);
    PushMatches(h, m1.(frames := m.frames[..op.depth]), b1.(frames := b.frames[..op.depth]), Data(op.n), Data(op.n));
  }

  lemma ReturnMatches(h: seq<nat>, m: Machine, b: Boxes, op: Op)
    requires Matches(h, m, b) && Can(m, op) && Clean(m, op) && CanBox(b, op) && op.Return?
    ensures Matches(h, Exec(m, op), ExecBox(b, op))
  {
    TopsMatch(h, m, b);
    var top, base := |m.stack| - 1, Top(m.frames).base;
    SlotSame(h, m, b, top);
    FrameEnds(h, m, b, top, base);
    FramesShrink(h, m, b);
    var m1 := Cut(CloseFrom(Cut(m, top), base), base);
    var fs, gs := m.frames[..|m.frames| - 1], b.frames[..|b.frames| - 1];
    hide Matches, CloseFrom, Tracked, Closable, FramesMatch, Same;
    FramesChange(h, m1, CutBoxes(b, base), fs, gs);
    PushMatches(h, m1.(frames := fs), CutBoxes(b, base).(frames := gs), m.stack[top], b.store[b.slots[top]]);
  }

  /** The result is taken off and then the frame's slots end. */
  lemma FrameEnds(h: seq<nat>, m: Machine, b: Boxes, top: nat, base: nat)
    requires Matches(h, m, b) && base <= top < |m.stack| && Free(m, top)
    ensures |b.slots| == |m.stack| && Tracked(m) && Closable(Cut(m, top), base)
    ensures Matches(h, Cut(CloseFrom(Cut(m, top), base), base), CutBoxes(b, base))
  {
    CutMatches(h, m, b, top);
    MatchesClosable(h, Cut(m, top), CutBoxes(b, top), base);
    assert CutBoxes(CutBoxes(b, top), base) == CutBoxes(b, base);
    EndMatches(h, Cut(m, top), CutBoxes(b, top), base);
  }

  lemma FramesShrink(h: seq<nat>, m: Machine, b: Boxes)
    requires Matches(h, m, b) && m.frames != []
    ensures |b.frames| == |m.frames| && FramesMatch(h, m.frames[..|m.frames| - 1], b.frames[..|b.frames| - 1])
  {
  }

  lemma KeepMatches(h: seq<nat>, m: Machine, b: Boxes)
    requires Matches(h, m, b) && Can(m, Keep) && CanBox(b, Keep)
    ensures Matches(h, Exec(m, Keep), ExecBox(b, Keep))
  {
    var m', b' := Exec(m, Keep), ExecBox(b, Keep);
    SlotSame(h, m, b, |m.stack| - 1);
    forall c | 0 <= c < |h|
      ensures CellMatches(h, m', b', c)
    {
      assert CellMatches(h, m, b, c);
    }
  }

  lemma ClosureMatches(h: seq<nat>, m: Machine, b: Boxes, op: Op) returns (h': seq<nat>)
    requires Matches(h, m, b) && Can(m, op) && CanBox(b, op) && op.MakeClosure?
    ensures h <= h' && Matches(h', Exec(m, op), ExecBox(b, op))
  {
    hide Matches, CaptureAll, Same, Tracked;
    var frame := Top(m.frames);
    h' := CaptureAllMatches(h, m, b, op.descs);
    var (m', us) := CaptureAll(m, op.descs, frame.base, frame.upvalues);
    PushMatches(h', m', b, Fun(us), Fun(C.Closed(op.descs, View(b))));
  }

  lemma FitSame(h: seq<nat>, vs: seq<Value>, ws: seq<Value>, arity: nat)
    requires AllSame(h, vs, ws)
    ensures AllSame(h, Fit(vs, arity), Fit(ws, arity))
  {
  }

  lemma CallMatches(h: seq<nat>, m: Machine, b: Boxes, op: Op)
    requires Matches(h, m, b) && Can(m, op) && Clean(m, op) && CanBox(b, op) && op.Call?
    ensures Matches(h, Exec(m, op), ExecBox(b, op))
  {
    var top, argc := |m.stack| - 1, op.argc;
    var at := top - argc + 1;
    var args := seq(argc, i requires 0 <= i < argc => b.store[b.slots[at + i]]);
    ArgsSame(h, m, b, at, args);
    SlotSame(h, m, b, at - 1);
    FitSame(h, m.stack[at..], args, op.arity);
    CutMatches(h, m, b, at);
    PushAllMatches(h, Cut(m, at), CutBoxes(b, at), Fit(m.stack[at..], op.arity), Fit(args, op.arity));
    var m1 := Cut(m, at).(stack := Cut(m, at).stack + Fit(m.stack[at..], op.arity));
    var b1 := BoxedAll(CutBoxes(b, at), Fit(args, op.arity));
    var f, g := Running(at - 1, m.stack[at - 1].upvalues), Running(at - 1, b.store[b.slots[at - 1]].upvalues);
    FramesChange(h, m1, b1, m.frames + [f], b.frames + [g]);
  }

  lemma ArgsSame(h: seq<nat>, m: Machine, b: Boxes, at: nat, args: seq<Value>)
    requires Matches(h, m, b) && at <= |m.stack| && |args| == |m.stack| - at
    requires forall i :: 0 <= i < |args| ==> b.slots[at + i] < |b.store| && args[i] == b.store[b.slots[at + i]]
    ensures AllSame(h, m.stack[at..], args)
  {
    forall i | 0 <= i < |args|
      ensures Same(h, m.stack[at..][i], args[i])
    {
      SlotSame(h, m, b, at + i);
    }
  }

  // ---- Whole runs ----

  const START := Machine([Fun([])], [], [], [Running(0, [])], [])
  const START_BOXES := Boxes([0], [Fun([])], [Running(0, [])], [])

  /** Every step is possible and clean. */
  ghost predicate Runs(m: Machine, ops: seq<Op>)
    decreases |ops|
  {
    ops == [] || (Can(m, ops[0]) && Clean(m, ops[0]) && Runs(Exec(m, ops[0]), ops[1..]))
  }

  ghost function After(m: Machine, ops: seq<Op>): Machine
    requires Runs(m, ops)
    decreases |ops|
  {
    if ops == [] then m else After(Exec(m, ops[0]), ops[1..])
  }

  function BoxesAfter(b: Boxes, ops: seq<Op>): Option<Boxes>
    decreases |ops|
  {
    if ops == [] then Some(b) else if CanBox(b, ops[0]) then BoxesAfter(ExecBox(b, ops[0]), ops[1..]) else None
  }

  lemma {:induction false} RunMatches(h: seq<nat>, m: Machine, b: Boxes, ops: seq<Op>) returns (h': seq<nat>)
    requires Matches(h, m, b) && Runs(m, ops)
    ensures BoxesAfter(b, ops).Some? && h <= h' && Matches(h', After(m, ops), BoxesAfter(b, ops).value)
    decreases |ops|
  {
    hide Matches, Exec, ExecBox, Can, CanBox, Clean;
    if ops == [] {
      h' := h;
    } else {
      var h1 := StepMatches(h, m, b, ops[0]);
      h' := RunMatches(h1, Exec(m, ops[0]), ExecBox(b, ops[0]), ops[1..]);
    }
  }

  /** However closures are made, kept, called and outlive their slots, the machine shows at every place of the stack
      what the simple form shows: sharing open cells, closing them when their slots end and using the slots again is
      never observed. */
  lemma CellsAreVariables(ops: seq<Op>)
    requires Runs(START, ops)
    ensures BoxesAfter(START_BOXES, ops).Some?
    ensures var m, b := After(START, ops), BoxesAfter(START_BOXES, ops).value;
            && |b.slots| == |m.stack| && b.Valid()
            && forall i :: 0 <= i < |m.stack| ==>
                 var v, w := m.stack[i], b.store[b.slots[i]];
                 if v.Fun? then w.Fun? && |w.upvalues| == |v.upvalues| else v == w
  {
    assert Matches([], START, START_BOXES);
    hide Matches, Runs, After, BoxesAfter;
    var h := RunMatches([], START, START_BOXES, ops);
    var m, b := After(START, ops), BoxesAfter(START_BOXES, ops).value;
    StackShows(h, m, b);
  }

  lemma StackShows(h: seq<nat>, m: Machine, b: Boxes)
    requires Matches(h, m, b)
    ensures |b.slots| == |m.stack| && b.Valid()
    ensures forall i :: 0 <= i < |m.stack| ==>
              var v, w := m.stack[i], b.store[b.slots[i]];
              if v.Fun? then w.Fun? && |w.upvalues| == |v.upvalues| else v == w
  {
  }

  /** The variables of a closure in the simple form are those its descriptors name in the function that makes it. So the
      frames a chain of closures was made in, with the frame of any later call, are nested. */
  lemma MadeNested(fs: seq<C.Fn>, frames: seq<C.Frame>, b: Boxes, slots: seq<nat>)
    requires C.Valid(fs) && |fs| == |frames| + 1 && |frames| > 0 && C.Nested(fs[..|frames|], frames)
    requires b.frames != [] && Top(b.frames).base <= |b.slots| && frames[|frames| - 1] == View(b)
    requires |fs[|frames|].locals| <= |slots|
    requires CanBox(b, MakeClosure(fs[|frames|].upvalues))
    ensures var made := ExecBox(b, MakeClosure(fs[|frames|].upvalues));
            var f := made.store[|made.store| - 1];
            f.Fun? && C.Nested(fs, frames + [C.Frame(slots, f.upvalues)])
  {
    var n := |frames|;
    var ds := fs[n].upvalues;
    var all := frames + [C.Frame(slots, C.Closed(ds, View(b)))];
    forall f, k | 0 < f < |fs| && 0 <= k < |fs[f].upvalues|
      ensures C.DescOk(fs, f, fs[f].upvalues[k]) && DescFits(fs[f].upvalues[k], all[f - 1])
      ensures all[f].upvalues[k] == C.Closed([fs[f].upvalues[k]], all[f - 1])[0]
    {
      if f < n {
        assert fs[..n][f] == fs[f] && fs[..n][f - 1] == fs[f - 1];
        assert C.DescOk(fs[..n], f, fs[..n][f].upvalues[k]);
      } else {
        assert ds[k] in ds;
      }
    }
  }

  predicate DescFits(d: C.UpvalueDesc, parent: C.Frame) {
    d.index < if d.fromParentLocal then |parent.slots| else |parent.upvalues|
  }
}
