/** Slots that end without being closed: which exits keep the machine's cells variables, and a jump that does not. */
module UpvalueExits {
  import opened Syntax
  import opened UpvalueCells
  import opened UpvalueTies
  import C = Captures

  // ---- Slots that end unclosed ----

  ghost predicate Tied(m: Machine, b: Boxes) {
    exists h: seq<nat> :: Matches(h, m, b)
  }

  /** Removing the top slot without closing keeps the tie, in whatever way cells stand for variables, exactly when no
      open cell points at it. */
  lemma PopKeepsTie(h: seq<nat>, m: Machine, b: Boxes)
    requires Matches(h, m, b) && m.stack != []
    ensures |b.slots| == |m.stack|
    ensures Tied(Cut(m, |m.stack| - 1), CutBoxes(b, |m.stack| - 1)) <==> Free(m, |m.stack| - 1)
  {
    var top := |m.stack| - 1;
    if Free(m, top) {
      CutMatches(h, m, b, top);
    } else {
      forall h' | Matches(h', Cut(m, top), CutBoxes(b, top))
        ensures false
      {
        TiedIsFree(h', Cut(m, top), CutBoxes(b, top));
      }
    }
  }

  lemma TiedIsFree(h: seq<nat>, m: Machine, b: Boxes)
    requires Matches(h, m, b)
    ensures Free(m, |m.stack|)
  {
    forall c | 0 <= c < |m.cells|
      ensures m.cells[c].Open? ==> m.cells[c].slot < |m.stack|
    {
      assert CellMatches(h, m, b, c);
    }
  }

  /** How the compiler ends the slots of a frame from `count` down to `target`, going by the marks it has by then. */
  function Exits(count: nat, target: nat, captured: set<nat>): seq<Op>
    decreases count
  {
    if count <= target then []
    else [if count - 1 in captured then CloseUpvalue else Pop] + Exits(count - 1, target, captured)
  }

  /** Every open cell into these slots is one the marks know of. */
  ghost predicate Marked(m: Machine, base: nat, target: nat, captured: set<nat>) {
    forall c :: 0 <= c < |m.cells| ==>
      m.cells[c].Open? ==> m.cells[c].slot < base + target || m.cells[c].slot - base in captured
  }

  /** Ending the slots is clean exactly when every captured one among them has been marked before the code was
      emitted. */
  lemma {:induction false} ExitsAreClean(h: seq<nat>, m: Machine, b: Boxes, base: nat, count: nat, target: nat,
                                         captured: set<nat>)
    requires Matches(h, m, b) && m.frames != [] && base + count == |m.stack| && target <= count
    ensures Runs(m, Exits(count, target, captured)) <==> Marked(m, base, target, captured)
    decreases count
  {
    TopsMatch(h, m, b);
    hide Matches, CloseFrom, Marked, Runs;
    if count == target {
      TiedIsFree(h, m, b);
      NothingLeft(m, base, target, captured);
    } else if count - 1 in captured {
      var m1 := ExitCloses(h, m, b, base, count, target, captured);
      ExitsAreClean(h, m1, CutBoxes(b, |m.stack| - 1), base, count - 1, target, captured);
    } else {
      ExitPops(h, m, b, base, count, target, captured);
      if Free(m, |m.stack| - 1) {
        CutMatches(h, m, b, |m.stack| - 1);
        ExitsAreClean(h, Cut(m, |m.stack| - 1), CutBoxes(b, |m.stack| - 1), base, count - 1, target, captured);
      }
    }
  }

  lemma NothingLeft(m: Machine, base: nat, target: nat, captured: set<nat>)
    requires base + target == |m.stack| && Free(m, |m.stack|)
    ensures Runs(m, []) && Marked(m, base, target, captured)
  {
  }

  lemma ExitCloses(h: seq<nat>, m: Machine, b: Boxes, base: nat, count: nat, target: nat, captured: set<nat>)
    returns (m1: Machine)
    requires Matches(h, m, b) && m.frames != [] && base + count == |m.stack| && target < count
    requires count - 1 in captured
    ensures |b.slots| == |m.stack| && Matches(h, m1, CutBoxes(b, |m.stack| - 1))
    ensures m1.frames == m.frames && |m1.stack| == |m.stack| - 1
    ensures Runs(m, Exits(count, target, captured)) <==> Runs(m1, Exits(count - 1, target, captured))
    ensures Marked(m, base, target, captured) <==> Marked(m1, base, target, captured)
  {
    var top := |m.stack| - 1;
    TiedIsFree(h, m, b);
    TopsMatch(h, m, b);
    MatchesClosable(h, m, b, top);
    EndMatches(h, m, b, top);
    OpenListed(h, m, b);
    m1 := Cut(CloseFrom(m, top), top);
    ClosedMarked(m, base, count, target, captured);
    hide Matches, Tracked, Closable, Free, Marked, CloseFrom, Can, Exec, Clean;
    ClosingIsClean(m);
    assert Exits(count, target, captured) == [CloseUpvalue] + Exits(count - 1, target, captured);
    assert Exits(count, target, captured)[1..] == Exits(count - 1, target, captured);
  }

  lemma ClosingIsClean(m: Machine)
    requires m.frames != [] && m.stack != [] && Tracked(m) && Closable(m, |m.stack| - 1) && Free(m, |m.stack|)
    ensures Can(m, CloseUpvalue) && Clean(m, CloseUpvalue)
    ensures Exec(m, CloseUpvalue) == Cut(CloseFrom(m, |m.stack| - 1), |m.stack| - 1)
  {
  }

  lemma OpenListed(h: seq<nat>, m: Machine, b: Boxes)
    requires Matches(h, m, b)
    ensures Tracked(m) && forall c :: 0 <= c < |m.cells| && m.cells[c].Open? ==> c in m.open
  {
    forall c | 0 <= c < |m.cells| && m.cells[c].Open?
      ensures c in m.open
    {
      assert CellMatches(h, m, b, c);
    }
  }

  lemma ClosedMarked(m: Machine, base: nat, count: nat, target: nat, captured: set<nat>)
    requires base + count == |m.stack| && target < count && count - 1 in captured
    requires Tracked(m) && Closable(m, |m.stack| - 1) && Free(m, |m.stack|)
    requires forall c :: 0 <= c < |m.cells| && m.cells[c].Open? ==> c in m.open
    ensures var m1 := Cut(CloseFrom(m, |m.stack| - 1), |m.stack| - 1);
            Marked(m1, base, target, captured) <==> Marked(m, base, target, captured)
  {
    var top := |m.stack| - 1;
    var m1 := Cut(CloseFrom(m, top), top);
    OpenBelow(m, top);
    hide Tracked, Closable, CloseFrom;
    forall c | 0 <= c < |m.cells|
      ensures m.cells[c].Open? && m.cells[c].slot == top ==> m.cells[c].slot - base in captured
      ensures m.cells[c].Open? && m.cells[c].slot < top ==> m1.cells[c] == m.cells[c]
      ensures m1.cells[c].Open? ==> m1.cells[c] == m.cells[c]
    {
    }
  }

  lemma OpenBelow(m: Machine, top: nat)
    requires Tracked(m) && Closable(m, top)
    requires forall c :: 0 <= c < |m.cells| && m.cells[c].Open? ==> c in m.open
    ensures var m1 := CloseFrom(m, top);
            && |m1.cells| == |m.cells|
            && forall c :: 0 <= c < |m.cells| ==>
                 && (m1.cells[c].Open? <==> m.cells[c].Open? && m.cells[c].slot < top)
                 && (m1.cells[c].Open? ==> m1.cells[c] == m.cells[c])
  {
    forall c | 0 <= c < |m.cells|
      ensures var cell := CloseFrom(m, top).cells[c];
              if m.cells[c].Open? && top <= m.cells[c].slot then cell.Closed? else cell == m.cells[c]
    {
      CellAfterClose(m, top, c);
    }
  }

  lemma CellAfterClose(m: Machine, top: nat, c: nat)
    requires Tracked(m) && Closable(m, top) && c < |m.cells| && (m.cells[c].Open? ==> c in m.open)
    ensures var cell := CloseFrom(m, top).cells[c];
            if m.cells[c].Open? && top <= m.cells[c].slot then cell.Closed? else cell == m.cells[c]
  {
    if c in m.open {
      ListedIsOpen(m, c);
    }
  }

  lemma ListedIsOpen(m: Machine, c: nat)
    requires Tracked(m) && c in m.open
    ensures c < |m.cells| && m.cells[c].Open?
  {
    var k :| 0 <= k < |m.open| && m.open[k] == c;
  }

  lemma ExitPops(h: seq<nat>, m: Machine, b: Boxes, base: nat, count: nat, target: nat, captured: set<nat>)
    requires Matches(h, m, b) && m.frames != [] && base + count == |m.stack| && target < count
    requires count - 1 !in captured
    ensures var m1 := Cut(m, |m.stack| - 1);
            && (Runs(m, Exits(count, target, captured))
                <==> Free(m, |m.stack| - 1) && Runs(m1, Exits(count - 1, target, captured)))
            && (Marked(m, base, target, captured)
                <==> Free(m, |m.stack| - 1) && Marked(m1, base, target, captured))
  {
    var ops := Exits(count, target, captured);
    TiedIsFree(h, m, b);
    OpenListed(h, m, b);
    PopMarked(m, base, count, target, captured);
    hide Matches, CellsMatch, Tracked, Closable, Free, Marked;
    assert ops == [Pop] + Exits(count - 1, target, captured);
    assert ops[1..] == Exits(count - 1, target, captured);
    assert Clean(m, Pop) <==> Free(m, |m.stack| - 1);
  }

  lemma PopMarked(m: Machine, base: nat, count: nat, target: nat, captured: set<nat>)
    requires base + count == |m.stack| && target < count && count - 1 !in captured && Free(m, |m.stack|)
    ensures Marked(m, base, target, captured)
       <==> Free(m, |m.stack| - 1) && Marked(Cut(m, |m.stack| - 1), base, target, captured)
  {
  }

  // ---- A jump emitted before the mark ----

  const CAPTURE := C.UpvalueDesc(true, 1)

  /** A loop inside another captures `x` of the outer body, as `f = () => x`, in its first round and breaks out of both
      loops in its second. The jump stands before the closure, so it was emitted before `x` was marked and ends the slot
      with `Pop`. Then the next local takes the slot, and `f` is called and reads its upvalue. */
  const BROKEN_OUT: seq<Op> :=
    [Push(1), MakeClosure([CAPTURE]), Keep, Pop, Pop, Push(2), Recall(0), Call(0, 0), GetUpvalue(0)]

  ghost function Steps(m: Machine, ops: seq<Op>): Option<Machine>
    decreases |ops|
  {
    if ops == [] then Some(m) else if Can(m, ops[0]) then Steps(Exec(m, ops[0]), ops[1..]) else None
  }

  lemma StepFirst(m: Machine, op: Op, rest: seq<Op>, next: Machine)
    requires Can(m, op) && Exec(m, op) == next
    ensures Steps(m, [op] + rest) == Steps(next, rest)
  {
    assert ([op] + rest)[1..] == rest;
  }

  lemma BoxFirst(b: Boxes, op: Op, rest: seq<Op>, next: Boxes)
    requires CanBox(b, op) && ExecBox(b, op) == next
    ensures BoxesAfter(b, [op] + rest) == BoxesAfter(next, rest)
  {
    assert ([op] + rest)[1..] == rest;
  }

  /** The closure reads the other variable. */
  lemma BrokenOutReads()
    ensures Steps(START, BROKEN_OUT).Some? && BoxesAfter(START_BOXES, BROKEN_OUT).Some?
    ensures var m, b := Steps(START, BROKEN_OUT).value, BoxesAfter(START_BOXES, BROKEN_OUT).value;
            && |m.stack| == 4 && |b.slots| == 4 && b.Valid()
            && m.stack[3] == Data(2) && b.store[b.slots[3]] == Data(1)
  {
    hide Steps, BoxesAfter;
    BrokenOutMachine();
    BrokenOutBoxes();
  }

  const SCRIPT := Fun([])

  /** Once the slot is captured, cell 0 points at it whatever happens to the stack. */
  function Captured(stack: seq<Value>, frames: seq<Running>, kept: seq<Value>): Machine {
    Machine(stack, [Open(1)], [0], frames, kept)
  }

  lemma SlotCaptured()
    ensures var m := START.(stack := [SCRIPT, Data(1)]);
            && Can(m, MakeClosure([CAPTURE]))
            && Exec(m, MakeClosure([CAPTURE])) == Captured([SCRIPT, Data(1), Fun([0])], START.frames, [])
  {
    var m := START.(stack := [SCRIPT, Data(1)]);
    assert [CAPTURE][..0] == [];
    assert CaptureAll(m, [], 0, []) == (m, []);
    assert FindOpen(m.cells, m.open, 1).None?;
    assert m.cells + [Open(1)] == [Open(1)] && m.open + [0] == [0];
    assert CaptureAll(m, [CAPTURE], 0, []) == (m.(cells := [Open(1)], open := [0]), [0]);
    assert m.stack + [Fun([0])] == [SCRIPT, Data(1), Fun([0])];
  }

  lemma FirstPush()
    ensures Can(START, Push(1)) && Exec(START, Push(1)) == START.(stack := [SCRIPT, Data(1)])
  {
  }

  lemma Recalled()
    ensures var f, fs := Fun([0]), START.frames;
            var m := Captured([SCRIPT, Data(2)], fs, [f]);
            Can(m, Recall(0)) && Exec(m, Recall(0)) == Captured([SCRIPT, Data(2), f], fs, [f])
  {
  }

  /** The steps before the call. */
  lemma SlotReused(rest: seq<Op>)
    ensures var f := Fun([0]);
            Steps(START, [Push(1), MakeClosure([CAPTURE]), Keep, Pop, Pop, Push(2), Recall(0)] + rest)
            == Steps(Captured([SCRIPT, Data(2), f], START.frames, [f]), rest)
  {
    var f, fs := Fun([0]), START.frames;
    var r2 := [Recall(0)] + rest;
    var r1 := [Keep, Pop, Pop, Push(2)] + r2;
    FirstPush();
    SlotCaptured();
    SlotGivenUp(r2);
    Recalled();
    hide Steps, Exec, Can, Captured;
    StepFirst(START, Push(1), [MakeClosure([CAPTURE])] + r1, START.(stack := [SCRIPT, Data(1)]));
    StepFirst(START.(stack := [SCRIPT, Data(1)]), MakeClosure([CAPTURE]), r1, Captured([SCRIPT, Data(1), f], fs, []));
    StepFirst(Captured([SCRIPT, Data(2)], fs, [f]), Recall(0), rest, Captured([SCRIPT, Data(2), f], fs, [f]));
    assert [Push(1)] + ([MakeClosure([CAPTURE])] + r1)
        == [Push(1), MakeClosure([CAPTURE]), Keep, Pop, Pop, Push(2), Recall(0)] + rest;
  }

  lemma SlotsEnd()
    ensures var f, fs := Fun([0]), START.frames;
            var m := Captured([SCRIPT, Data(1), f], fs, [f]);
            && Can(m, Pop) && Exec(m, Pop) == Captured([SCRIPT, Data(1)], fs, [f])
            && Can(Captured([SCRIPT, Data(1)], fs, [f]), Pop)
            && Exec(Captured([SCRIPT, Data(1)], fs, [f]), Pop) == Captured([SCRIPT], fs, [f])
  {
  }

  lemma SlotGivenUp(rest: seq<Op>)
    ensures var f, fs := Fun([0]), START.frames;
            Steps(Captured([SCRIPT, Data(1), f], fs, []), [Keep, Pop, Pop, Push(2)] + rest)
            == Steps(Captured([SCRIPT, Data(2)], fs, [f]), rest)
  {
    var f, fs := Fun([0]), START.frames;
    hide Steps;
    SlotsEnd();
    StepFirst(Captured([SCRIPT, Data(1), f], fs, []), Keep, [Pop, Pop, Push(2)] + rest,
              Captured([SCRIPT, Data(1), f], fs, [f]));
    StepFirst(Captured([SCRIPT], fs, [f]), Push(2), rest, Captured([SCRIPT, Data(2)], fs, [f]));
    hide Can, Exec, Captured;
    StepFirst(Captured([SCRIPT, Data(1), f], fs, [f]), Pop, [Pop, Push(2)] + rest,
              Captured([SCRIPT, Data(1)], fs, [f]));
    StepFirst(Captured([SCRIPT, Data(1)], fs, [f]), Pop, [Push(2)] + rest, Captured([SCRIPT], fs, [f]));
    assert [Keep] + ([Pop, Pop, Push(2)] + rest) == [Keep, Pop, Pop, Push(2)] + rest;
    assert [Pop] + ([Pop, Push(2)] + rest) == [Pop, Pop, Push(2)] + rest;
    assert [Pop] + ([Push(2)] + rest) == [Pop, Push(2)] + rest;
  }

  lemma CalledAndRead()
    ensures var f, fs := Fun([0]), [Running(0, []), Running(2, [0])];
            var m := Captured([SCRIPT, Data(2), f], START.frames, [f]);
            && Can(m, Call(0, 0)) && Exec(m, Call(0, 0)) == m.(frames := fs)
            && Can(m.(frames := fs), GetUpvalue(0))
            && Exec(m.(frames := fs), GetUpvalue(0)) == Captured([SCRIPT, Data(2), f, Data(2)], fs, [f])
  {
    assert Fit([], 0) == [];
  }

  lemma BrokenOutMachine()
    ensures Steps(START, BROKEN_OUT).Some?
    ensures var m := Steps(START, BROKEN_OUT).value;
            |m.stack| == 4 && m.stack[3] == Data(2)
  {
    var f, fs := Fun([0]), [Running(0, []), Running(2, [0])];
    var m := Captured([SCRIPT, Data(2), f], START.frames, [f]);
    var last := Captured([SCRIPT, Data(2), f, Data(2)], fs, [f]);
    SlotReused([Call(0, 0), GetUpvalue(0)]);
    CalledAndRead();
    hide Exec, Can;
    assert BROKEN_OUT
        == [Push(1), MakeClosure([CAPTURE]), Keep, Pop, Pop, Push(2), Recall(0)] + [Call(0, 0), GetUpvalue(0)];
    StepFirst(m, Call(0, 0), [GetUpvalue(0)], m.(frames := fs));
    StepFirst(m.(frames := fs), GetUpvalue(0), [], last);
    assert [Call(0, 0)] + [GetUpvalue(0)] == [Call(0, 0), GetUpvalue(0)] && [GetUpvalue(0)] + [] == [GetUpvalue(0)];
  }

  lemma BrokenOutBoxes()
    ensures BoxesAfter(START_BOXES, BROKEN_OUT).Some?
    ensures var b := BoxesAfter(START_BOXES, BROKEN_OUT).value;
            |b.slots| == 4 && b.Valid() && b.store[b.slots[3]] == Data(1)
  {
    var f, rest := Fun([1]), [Push(2), Recall(0), Call(0, 0), GetUpvalue(0)];
    var b1 := Boxes([0, 3], [SCRIPT, Data(1), f, Data(2)], START_BOXES.frames, [f]);
    var b2 := Boxes([0, 3, 4], [SCRIPT, Data(1), f, Data(2), f], START_BOXES.frames, [f]);
    hide BoxesAfter;
    VariableKept(rest);
    assert BROKEN_OUT == [Push(1), MakeClosure([CAPTURE]), Keep, Pop, Pop] + rest;
    BoxFirst(Boxes([0], [SCRIPT, Data(1), f], START_BOXES.frames, [f]), Push(2), rest[1..], b1);
    BoxFirst(b1, Recall(0), rest[2..], b2);
    VariableRead(b2);
    assert [Push(2)] + rest[1..] == rest && [Recall(0)] + rest[2..] == rest[1..];
    assert rest[2..] == [Call(0, 0), GetUpvalue(0)];
  }

  lemma VariableRead(b: Boxes)
    requires b == Boxes([0, 3, 4], [SCRIPT, Data(1), Fun([1]), Data(2), Fun([1])], START_BOXES.frames, [Fun([1])])
    ensures var store := [SCRIPT, Data(1), Fun([1]), Data(2), Fun([1]), Data(1)];
            BoxesAfter(b, [Call(0, 0), GetUpvalue(0)])
            == Some(Boxes([0, 3, 4, 5], store, [Running(0, []), Running(2, [1])], [Fun([1])]))
  {
    var fs := [Running(0, []), Running(2, [1])];
    var last := Boxes([0, 3, 4, 5], [SCRIPT, Data(1), Fun([1]), Data(2), Fun([1]), Data(1)], fs, [Fun([1])]);
    hide BoxesAfter;
    assert Fit([], 0) == [];
    assert ExecBox(b, Call(0, 0)) == b.(frames := fs);
    BoxFirst(b, Call(0, 0), [GetUpvalue(0)], b.(frames := fs));
    BoxFirst(b.(frames := fs), GetUpvalue(0), [], last);
    NoMoreOps(last);
    assert [Call(0, 0)] + [GetUpvalue(0)] == [Call(0, 0), GetUpvalue(0)] && [GetUpvalue(0)] + [] == [GetUpvalue(0)];
  }

  lemma NoMoreOps(b: Boxes)
    ensures BoxesAfter(b, []) == Some(b)
  {
  }

  lemma VariableCaptured()
    ensures var b1 := Boxes([0, 1], [SCRIPT, Data(1)], START_BOXES.frames, []);
            && CanBox(START_BOXES, Push(1)) && ExecBox(START_BOXES, Push(1)) == b1
            && CanBox(b1, MakeClosure([CAPTURE]))
            && ExecBox(b1, MakeClosure([CAPTURE]))
               == Boxes([0, 1, 2], [SCRIPT, Data(1), Fun([1])], START_BOXES.frames, [])
  {
    var b1 := Boxes([0, 1], [SCRIPT, Data(1)], START_BOXES.frames, []);
    assert C.Closed([CAPTURE], View(b1)) == [1];
    assert b1.slots + [|b1.store|] == [0, 1, 2] && b1.store + [Fun([1])] == [SCRIPT, Data(1), Fun([1])];
  }

  lemma VariableKept(rest: seq<Op>)
    ensures BoxesAfter(START_BOXES, [Push(1), MakeClosure([CAPTURE]), Keep, Pop, Pop] + rest)
         == BoxesAfter(Boxes([0], [SCRIPT, Data(1), Fun([1])], START_BOXES.frames, [Fun([1])]), rest)
  {
    var b1 := Boxes([0, 1], [SCRIPT, Data(1)], START_BOXES.frames, []);
    var b2 := Boxes([0, 1, 2], [SCRIPT, Data(1), Fun([1])], START_BOXES.frames, []);
    var next := [Keep, Pop, Pop] + rest;
    VariableSlotsEnd(rest);
    VariableCaptured();
    hide BoxesAfter, CanBox, ExecBox;
    BoxFirst(START_BOXES, Push(1), [MakeClosure([CAPTURE])] + next, b1);
    BoxFirst(b1, MakeClosure([CAPTURE]), next, b2);
    assert [Push(1), MakeClosure([CAPTURE]), Keep, Pop, Pop] + rest == [Push(1)] + ([MakeClosure([CAPTURE])] + next);
  }

  lemma VariableSlotsEnd(rest: seq<Op>)
    ensures var store := [SCRIPT, Data(1), Fun([1])];
            BoxesAfter(Boxes([0, 1, 2], store, START_BOXES.frames, []), [Keep, Pop, Pop] + rest)
            == BoxesAfter(Boxes([0], store, START_BOXES.frames, [Fun([1])]), rest)
  {
    var b := Boxes([0, 1, 2], [SCRIPT, Data(1), Fun([1])], START_BOXES.frames, []);
    var kept := b.(kept := [Fun([1])]);
    hide BoxesAfter;
    BoxFirst(b, Keep, [Pop, Pop] + rest, kept);
    BoxFirst(kept, Pop, [Pop] + rest, kept.(slots := [0, 1]));
    BoxFirst(kept.(slots := [0, 1]), Pop, rest, kept.(slots := [0]));
    assert [Keep] + ([Pop, Pop] + rest) == [Keep, Pop, Pop] + rest;
    assert [Pop] + ([Pop] + rest) == [Pop, Pop] + rest;
  }
}
