/** How captured variables live on the machine's stack and move into cells of their own: cells that point into the stack
    are shared by closures and closed when their slots end. */
module UpvalueCells {
  import opened Syntax
  import C = Captures

  /** A closure holds cells on the machine and variables in the simple form. Every other value is data. */
  datatype Value = Undefined | Data(n: int) | Fun(upvalues: seq<nat>)

  datatype Cell = Open(slot: nat) | Closed(value: Value)

  datatype Running = Running(base: nat, upvalues: seq<nat>)

  /** `kept` is everything values are kept in besides the stack and the cells: globals, objects, arrays. */
  datatype Machine = Machine(
    stack: seq<Value>,
    cells: seq<Cell>,
    open: seq<nat>,
    frames: seq<Running>,
    kept: seq<Value>)

  datatype Op =
    | Push(n: int)
    | Pop
    | GetLocal(slot: nat)
    | SetLocal(slot: nat)
    | GetUpvalue(slot: nat)
    | SetUpvalue(slot: nat)
    | CloseUpvalue
    | CloseUpvalueTo(slot: nat)
    | MakeClosure(descs: seq<C.UpvalueDesc>)
    | Call(argc: nat, arity: nat)
    | Return
    | Unwind(height: nat, depth: nat, n: int)
    | Keep
    | Recall(i: nat)

  // ---- The machine's cells ----

  predicate Different(cs: seq<nat>) {
    forall k, l :: 0 <= k < l < |cs| ==> cs[k] != cs[l]
  }

  /** The list of open cells lists open cells, each once. */
  ghost predicate Tracked(m: Machine) {
    && (forall k :: 0 <= k < |m.open| ==> m.open[k] < |m.cells| && m.cells[m.open[k]].Open?)
    && Different(m.open)
  }

  /** Closing from a slot upwards finds every value it needs on the stack. */
  ghost predicate Closable(m: Machine, from: nat) {
    forall k :: 0 <= k < |m.open| && m.open[k] < |m.cells| ==>
      m.cells[m.open[k]].Open? ==> from <= m.cells[m.open[k]].slot ==> m.cells[m.open[k]].slot < |m.stack|
  }

  function FindOpen(cells: seq<Cell>, open: seq<nat>, idx: nat): (r: Option<nat>)
    requires forall k :: 0 <= k < |open| ==> open[k] < |cells|
    ensures r.Some? ==> r.value in open && cells[r.value] == Open(idx)
    ensures r.None? ==> forall k :: 0 <= k < |open| ==> cells[open[k]] != Open(idx)
  {
    if open == [] then None
    else if cells[open[0]] == Open(idx) then Some(open[0])
    else FindOpen(cells, open[1..], idx)
  }

  /** The open cell of a slot is shared; a new one is made if there is none. */
  ghost function Capture(m: Machine, idx: nat): (Machine, nat)
    requires Tracked(m)
  {
    var found := FindOpen(m.cells, m.open, idx);
    if found.Some? then (m, found.value)
    else (m.(cells := m.cells + [Open(idx)], open := m.open + [|m.cells|]), |m.cells|)
  }

  lemma CaptureTracked(m: Machine, idx: nat)
    requires Tracked(m)
    ensures var (m', c) := Capture(m, idx);
            && Tracked(m') && c < |m'.cells| && m'.cells[c] == Open(idx) && m.cells <= m'.cells
            && m' == m.(cells := m'.cells, open := m'.open)
  {
  }

  ghost function CaptureAll(m: Machine, ds: seq<C.UpvalueDesc>, base: nat, parent: seq<nat>): (r: (Machine, seq<nat>))
    requires Tracked(m)
    requires forall i :: 0 <= i < |ds| ==> !ds[i].fromParentLocal ==> ds[i].index < |parent|
    ensures |r.1| == |ds| && Tracked(r.0)
    decreases |ds|
  {
    if ds == [] then (m, [])
    else
      var n := |ds| - 1;
      var (m1, us) := CaptureAll(m, ds[..n], base, parent);
      if ds[n].fromParentLocal then
        var (m2, c) := Capture(m1, base + ds[n].index);
        CaptureTracked(m1, base + ds[n].index);
        (m2, us + [c])
      else (m1, us + [parent[ds[n].index]])
  }

  function StillOpen(cells: seq<Cell>, open: seq<nat>, from: nat): (r: seq<nat>)
    requires forall k :: 0 <= k < |open| ==> open[k] < |cells| && cells[open[k]].Open?
    ensures forall c :: c in r <==> c in open && cells[c].slot < from
    decreases |open|
  {
    if open == [] then []
    else
      var last := open[|open| - 1];
      StillOpen(cells, open[..|open| - 1], from) + if cells[last].slot < from then [last] else []
  }

  lemma {:induction false} StillDistinct(cells: seq<Cell>, open: seq<nat>, from: nat)
    requires forall k :: 0 <= k < |open| ==> open[k] < |cells| && cells[open[k]].Open?
    requires Different(open)
    ensures Different(StillOpen(cells, open, from))
    decreases |open|
  {
    if open != [] {
      var front := open[..|open| - 1];
      var rest, r := StillOpen(cells, front, from), StillOpen(cells, open, from);
      StillDistinct(cells, front, from);
      assert r == if cells[open[|open| - 1]].slot < from then rest + [open[|open| - 1]] else rest;
      forall k, l | 0 <= k < l < |r|
        ensures r[k] != r[l]
      {
        if l < |rest| {
          assert r[k] == rest[k] && r[l] == rest[l];
        } else {
          assert rest[k] in rest && r[k] == rest[k] && r[l] == open[|open| - 1];
          var j :| 0 <= j < |front| && front[j] == rest[k];
          assert open[j] == rest[k];
        }
      }
    }
  }

  /** Every open cell that points at `from` or above takes its value along. */
  ghost function CloseFrom(m: Machine, from: nat): Machine
    requires Tracked(m) && Closable(m, from)
  {
    m.(cells := seq(|m.cells|, c requires 0 <= c < |m.cells| =>
                      if c in m.open && from <= m.cells[c].slot then Closed(m.stack[m.cells[c].slot]) else m.cells[c]),
       open := StillOpen(m.cells, m.open, from))
  }

  lemma CloseTracked(m: Machine, from: nat)
    requires Tracked(m) && Closable(m, from)
    ensures Tracked(CloseFrom(m, from))
  {
    var m' := CloseFrom(m, from);
    StillDistinct(m.cells, m.open, from);
    assert m'.open == StillOpen(m.cells, m.open, from);
    forall k | 0 <= k < |m'.open|
      ensures m'.open[k] < |m'.cells| && m'.cells[m'.open[k]].Open?
    {
      assert m'.open[k] in m'.open;
    }
  }

  function ReadCell(m: Machine, c: nat): Value
    requires c < |m.cells|
  {
    match m.cells[c]
    case Open(i) => if i < |m.stack| then m.stack[i] else Undefined
    case Closed(v) => v
  }

  function WriteCell(m: Machine, c: nat, v: Value): Machine
    requires c < |m.cells|
  {
    match m.cells[c]
    case Open(i) => if i < |m.stack| then m.(stack := m.stack[i := v]) else m
    case Closed(_) => m.(cells := m.cells[c := Closed(v)])
  }

  /** One upvalue of a new closure. */
  ghost function CaptureOne(m: Machine, d: C.UpvalueDesc, base: nat, parent: seq<nat>): (Machine, nat)
    requires Tracked(m) && (!d.fromParentLocal ==> d.index < |parent|)
  {
    if d.fromParentLocal then Capture(m, base + d.index) else (m, parent[d.index])
  }

  lemma CaptureAllUnfold(m: Machine, ds: seq<C.UpvalueDesc>, base: nat, parent: seq<nat>)
    requires Tracked(m) && ds != []
    requires forall i :: 0 <= i < |ds| ==> !ds[i].fromParentLocal ==> ds[i].index < |parent|
    ensures var n := |ds| - 1;
            var (m1, us) := CaptureAll(m, ds[..n], base, parent);
            var (m2, c) := CaptureOne(m1, ds[n], base, parent);
            CaptureAll(m, ds, base, parent) == (m2, us + [c])
  {
    hide Capture;
  }

  // ---- The machine's steps ----

  function Pushed(m: Machine, v: Value): Machine {
    m.(stack := m.stack + [v])
  }

  function Cut(m: Machine, height: nat): Machine
    requires height <= |m.stack|
  {
    m.(stack := m.stack[..height])
  }

  /** Missing arguments are undefined and further ones are dropped. */
  function Fit(args: seq<Value>, arity: nat): seq<Value> {
    if arity <= |args| then args[..arity] else args + seq(arity - |args|, _ => Undefined)
  }

  function Top(frames: seq<Running>): Running
    requires frames != []
  {
    frames[|frames| - 1]
  }

  predicate DescsFit(ds: seq<C.UpvalueDesc>, slots: nat, upvalues: nat) {
    forall i :: 0 <= i < |ds| ==> ds[i].index < if ds[i].fromParentLocal then slots else upvalues
  }

  /** The step finds on the stack and in the frame what it needs. */
  ghost predicate Can(m: Machine, op: Op) {
    && m.frames != [] && Tracked(m)
    && var top := |m.stack| - 1;
    var frame := Top(m.frames);
    match op
    case Push(_) => true
    case Pop => top >= 0
    case GetLocal(s) => frame.base + s <= top
    case SetLocal(s) => frame.base + s <= top
    case GetUpvalue(k) => k < |frame.upvalues| && frame.upvalues[k] < |m.cells|
    case SetUpvalue(k) => k < |frame.upvalues| && frame.upvalues[k] < |m.cells| && top >= 0
    case CloseUpvalue => top >= 0 && Closable(m, top)
    case CloseUpvalueTo(s) => Closable(m, frame.base + s)
    case MakeClosure(ds) => frame.base <= top + 1 && DescsFit(ds, top + 1 - frame.base, |frame.upvalues|)
    case Call(argc, _) => argc <= top && m.stack[top - argc].Fun?
    case Return => frame.base <= top && |m.frames| > 1 && Closable(Cut(m, top), frame.base)
    case Unwind(height, depth, _) => height <= top + 1 && 0 < depth <= |m.frames| && Closable(m, height)
    case Keep => top >= 0
    case Recall(i) => i < |m.kept|
  }

  ghost function Exec(m: Machine, op: Op): Machine
    requires Can(m, op)
  {
    var top := |m.stack| - 1;
    var frame := Top(m.frames);
    match op
    case Push(n) => Pushed(m, Data(n))
    case Pop => Cut(m, top)
    case GetLocal(s) => Pushed(m, m.stack[frame.base + s])
    case SetLocal(s) => m.(stack := m.stack[frame.base + s := m.stack[top]])
    case GetUpvalue(k) => Pushed(m, ReadCell(m, frame.upvalues[k]))
    case SetUpvalue(k) => WriteCell(m, frame.upvalues[k], m.stack[top])
    case CloseUpvalue => Cut(CloseFrom(m, top), top)
    case CloseUpvalueTo(s) => CloseFrom(m, frame.base + s)
    case MakeClosure(ds) =>
      var (m', us) := CaptureAll(m, ds, frame.base, frame.upvalues);
      Pushed(m', Fun(us))
    case Call(argc, arity) =>
      var callee := m.stack[top - argc];
      var m' := Cut(m, top - argc + 1);
      m'.(stack := m'.stack + Fit(m.stack[top - argc + 1..], arity),
          frames := m.frames + [Running(top - argc, callee.upvalues)])
    case Return =>
      var m' := Cut(CloseFrom(Cut(m, top), frame.base), frame.base);
      Pushed(m'.(frames := m.frames[..|m.frames| - 1]), m.stack[top])
    case Unwind(height, depth, n) =>
      Pushed(Cut(CloseFrom(m, height), height).(frames := m.frames[..depth]), Data(n))
    case Keep => m.(kept := m.kept + [m.stack[top]])
    case Recall(i) => Pushed(m, m.kept[i])
  }

  // ---- The cells as the machine runs ----

  /** Of the first `done` listed cells, those that stay open. */
  ghost function Staying(m: Machine, from: nat, done: nat): seq<nat>
    requires Tracked(m) && done <= |m.open|
  {
    StillOpen(m.cells, m.open[..done], from)
  }

  ghost function ClosedUpTo(m: Machine, from: nat, done: nat, c: nat): Cell
    requires Tracked(m) && Closable(m, from) && done <= |m.open| && c < |m.cells|
  {
    if c in m.open[..done] && from <= m.cells[c].slot then Closed(m.stack[m.cells[c].slot]) else m.cells[c]
  }

  /** The machine when the first `done` listed cells have been looked at. */
  ghost function Closing(m: Machine, from: nat, done: nat): Machine
    requires Tracked(m) && Closable(m, from) && done <= |m.open|
  {
    m.(cells := seq(|m.cells|, c requires 0 <= c < |m.cells| => ClosedUpTo(m, from, done, c)),
       open := Staying(m, from, done) + m.open[done..])
  }

  lemma ClosingStarts(m: Machine, from: nat)
    requires Tracked(m) && Closable(m, from)
    ensures Staying(m, from, 0) == [] && Closing(m, from, 0) == m
  {
    assert m.open[..0] == [];
  }

  lemma ClosingEnds(m: Machine, from: nat)
    requires Tracked(m) && Closable(m, from)
    ensures Closing(m, from, |m.open|) == CloseFrom(m, from)
  {
    hide Tracked, Closable;
    assert m.open[..|m.open|] == m.open;
  }

  lemma StayingNext(m: Machine, from: nat, done: nat)
    requires Tracked(m) && done < |m.open|
    ensures var c := m.open[done];
            && c < |m.cells| && m.cells[c].Open? && c !in m.open[..done]
            && Staying(m, from, done + 1) == Staying(m, from, done) + if m.cells[c].slot < from then [c] else []
  {
    var next := m.open[..done + 1];
    assert next[..done] == m.open[..done] && next[done] == m.open[done];
  }

  lemma ClosedNext(m: Machine, from: nat, done: nat, d: nat)
    requires Tracked(m) && Closable(m, from) && done < |m.open| && d < |m.cells|
    ensures var c := m.open[done];
            && c < |m.cells| && m.cells[c].Open? && (from <= m.cells[c].slot ==> m.cells[c].slot < |m.stack|)
            && ClosedUpTo(m, from, done, c) == m.cells[c]
            && ClosedUpTo(m, from, done + 1, d)
               == if d == c && from <= m.cells[c].slot then Closed(m.stack[m.cells[c].slot])
                  else ClosedUpTo(m, from, done, d)
  {
    StayingNext(m, from, done);
    assert m.open[..done + 1] == m.open[..done] + [m.open[done]];
  }

  /** Looking at the next listed cell. */
  lemma ClosingStep(m: Machine, from: nat, done: nat)
    requires Tracked(m) && Closable(m, from) && done < |m.open|
    ensures var now, k, c := Closing(m, from, done), |Staying(m, from, done)|, m.open[done];
            && k < |now.open| && now.open[k] == c && c < |m.cells| && |now.cells| == |m.cells|
            && now.cells[c] == m.cells[c] && m.cells[c].Open?
            && (from <= m.cells[c].slot ==>
                  && m.cells[c].slot < |m.stack| && |Staying(m, from, done + 1)| == k
                  && Closing(m, from, done + 1)
                     == now.(cells := now.cells[c := Closed(m.stack[m.cells[c].slot])],
                             open := now.open[..k] + now.open[k + 1..]))
            && (m.cells[c].slot < from ==> |Staying(m, from, done + 1)| == k + 1 && Closing(m, from, done + 1) == now)
  {
    hide Tracked, Closable, ClosedUpTo, Staying;
    var c := m.open[done];
    StayingNext(m, from, done);
    ClosedNext(m, from, done, c);
    forall d | 0 <= d < |m.cells|
      ensures ClosedUpTo(m, from, done + 1, d)
           == if d == c && from <= m.cells[c].slot then Closed(m.stack[m.cells[c].slot])
              else ClosedUpTo(m, from, done, d)
    {
      ClosedNext(m, from, done, d);
    }
  }

  lemma NothingCaptured(m: Machine, ds: seq<C.UpvalueDesc>, base: nat, parent: seq<nat>)
    requires Tracked(m)
    ensures CaptureAll(m, ds[..0], base, parent) == (m, [])
  {
    assert ds[..0] == [];
  }

  lemma CaptureNext(m: Machine, ds: seq<C.UpvalueDesc>, i: nat, base: nat, parent: seq<nat>)
    requires Tracked(m) && i < |ds|
    requires forall k :: 0 <= k < |ds| ==> !ds[k].fromParentLocal ==> ds[k].index < |parent|
    ensures var (m1, us) := CaptureAll(m, ds[..i], base, parent);
            var (m2, c) := CaptureOne(m1, ds[i], base, parent);
            CaptureAll(m, ds[..i + 1], base, parent) == (m2, us + [c])
  {
    assert ds[..i + 1][..i] == ds[..i];
    CaptureAllUnfold(m, ds[..i + 1], base, parent);
  }

  class Cells {
    var stack: seq<Value>
    var cells: seq<Cell>
    var open: seq<nat>

    constructor ()
      ensures stack == [] && cells == [] && open == []
    {
      stack, cells, open := [], [], [];
    }

    ghost function Now(): Machine
      reads this
    {
      Machine(stack, cells, open, [], [])
    }

    method CaptureUpvalue(idx: nat) returns (c: nat)
      requires Tracked(Now())
      modifies this`cells, this`open
      ensures (Now(), c) == Capture(old(Now()), idx) && Tracked(Now())
    {
      CaptureTracked(Now(), idx);
      var i := 0;
      while i < |open|
        invariant i <= |open| && FindOpen(cells, open, idx) == FindOpen(cells, open[i..], idx)
      {
        assert open[i..][1..] == open[i + 1..];
        if cells[open[i]] == Open(idx) {
          return open[i];
        }
        i := i + 1;
      }
      c := |cells|;
      cells, open := cells + [Open(idx)], open + [c];
    }

    method CloseUpvalues(from: nat)
      requires Tracked(Now()) && Closable(Now(), from)
      modifies this`cells, this`open
      ensures Now() == CloseFrom(old(Now()), from)
    {
      hide Tracked, Closable, CloseFrom, Closing, Staying;
      ghost var was, done := Now(), 0;
      ClosingStarts(was, from);
      ClosingEnds(was, from);
      var i := 0;
      while i < |open|
        invariant done <= |was.open| && Now() == Closing(was, from, done)
        invariant i == |Staying(was, from, done)| && |open| == i + |was.open| - done
        decreases |was.open| - done
      {
        ClosingStep(was, from, done);
        var c := open[i];
        if cells[c].Open? && from <= cells[c].slot {
          cells := cells[c := Closed(stack[cells[c].slot])];
          open := open[..i] + open[i + 1..];
        } else {
          i := i + 1;
        }
        done := done + 1;
      }
    }

    method GetUpvalue(c: nat)
      requires c < |cells|
      modifies this`stack
      ensures Now() == Pushed(old(Now()), ReadCell(old(Now()), c))
    {
      var v := match cells[c]
               case Open(i) => if i < |stack| then stack[i] else Undefined
               case Closed(v) => v;
      stack := stack + [v];
    }

    method SetUpvalue(c: nat)
      requires c < |cells| && stack != []
      modifies this`stack, this`cells
      ensures Now() == WriteCell(old(Now()), c, old(stack)[|old(stack)| - 1])
    {
      var v := stack[|stack| - 1];
      match cells[c] {
        case Open(i) =>
          if i < |stack| {
            stack := stack[i := v];
          }
        case Closed(_) => cells := cells[c := Closed(v)];
      }
    }

    method DoClosure(ds: seq<C.UpvalueDesc>, base: nat, parent: seq<nat>)
      requires Tracked(Now())
      requires forall i :: 0 <= i < |ds| ==> !ds[i].fromParentLocal ==> ds[i].index < |parent|
      modifies this
      ensures var (m, us) := CaptureAll(old(Now()), ds, base, parent);
              Now() == Pushed(m, Fun(us))
    {
      hide CaptureAll, Capture, Tracked;
      ghost var was := Now();
      var us := [];
      var i := 0;
      NothingCaptured(was, ds, base, parent);
      while i < |ds|
        invariant i <= |ds| && Tracked(Now()) && (Now(), us) == CaptureAll(was, ds[..i], base, parent)
      {
        CaptureNext(was, ds, i, base, parent);
        if ds[i].fromParentLocal {
          var c := CaptureUpvalue(base + ds[i].index);
          us := us + [c];
        } else {
          us := us + [parent[ds[i].index]];
        }
        i := i + 1;
      }
      assert ds[..i] == ds;
      stack := stack + [Fun(us)];
    }
  }
}
