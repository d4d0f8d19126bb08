/** What a program sees of the form in which every slot is a variable: a store is seen wherever the variable is, a call
    starts on its arguments, and a return goes back to the caller's variables. */
module UpvalueLaws {
  import opened UpvalueCells
  import opened UpvalueTies
  import C = Captures
  import X = UpvalueExits

  /** A place of the running function through which it reads and writes a variable. */
  datatype Place = Slot(slot: nat) | Upvalue(index: nat)

  function Getting(p: Place): Op {
    match p
    case Slot(s) => GetLocal(s)
    case Upvalue(k) => GetUpvalue(k)
  }

  function Setting(p: Place): Op {
    match p
    case Slot(s) => SetLocal(s)
    case Upvalue(k) => SetUpvalue(k)
  }

  /** The variable at a place. */
  function Variable(b: Boxes, p: Place): nat
    requires CanBox(b, Getting(p))
  {
    var frame := Top(b.frames);
    match p
    case Slot(s) => b.slots[frame.base + s]
    case Upvalue(k) => frame.upvalues[k]
  }

  /** The value a place reads as. */
  function Shown(b: Boxes, p: Place): Value
    requires CanBox(b, Getting(p))
  {
    var b' := ExecBox(b, Getting(p));
    b'.store[b'.slots[|b'.slots| - 1]]
  }

  /** After a store the place, and every other place with the same variable, reads as the value on top; every other
      place reads as before. */
  lemma StoreIsSeen(b: Boxes, p: Place, q: Place)
    requires CanBox(b, Setting(p)) && CanBox(b, Getting(p)) && CanBox(b, Getting(q))
    ensures var b' := ExecBox(b, Setting(p));
            && CanBox(b', Getting(q))
            && Shown(b', q)
              == (if Variable(b, q) == Variable(b, p) then b.store[b.slots[|b.slots| - 1]] else Shown(b, q))
            && b'.slots == b.slots && b'.frames == b.frames && b'.kept == b.kept
  {
    ReadUnfold(b, q);
    ReadUnfold(ExecBox(b, Setting(p)), q);
  }

  lemma ReadUnfold(b: Boxes, p: Place)
    requires CanBox(b, Getting(p))
    ensures Variable(b, p) < |b.store| && Shown(b, p) == b.store[Variable(b, p)]
    ensures ExecBox(b, Getting(p)).slots[..|b.slots|] == b.slots && ExecBox(b, Getting(p)).frames == b.frames
  {
  }

  lemma FitAt(args: seq<Value>, arity: nat, i: nat)
    requires i < arity
    ensures |Fit(args, arity)| == arity && Fit(args, arity)[i] == if i < |args| then args[i] else Undefined
  {
  }

  /** A call goes on in a frame with the callee's upvalues, on top of the callee: slot 0 is the callee, then a new
      variable for each parameter with its argument's value, undefined where there is none. The caller's variables
      stay. */
  lemma CallStartsOnArguments(b: Boxes, argc: nat, arity: nat, i: nat)
    requires CanBox(b, Call(argc, arity)) && i < arity
    ensures var base := |b.slots| - 1 - argc;
            var b' := ExecBox(b, Call(argc, arity));
            && b'.frames == b.frames + [Running(base, b.store[b.slots[base]].upvalues)]
            && |b'.slots| == base + 1 + arity && b'.slots[..base + 1] == b.slots[..base + 1] && b.store <= b'.store
            && CanBox(b', GetLocal(1 + i)) && Variable(b', Slot(1 + i)) >= |b.store|
            && Shown(b', Slot(1 + i)) == if i < argc then b.store[b.slots[base + 1 + i]] else Undefined
  {
    var base := |b.slots| - 1 - argc;
    var b' := ExecBox(b, Call(argc, arity));
    var args := seq(argc, k requires 0 <= k < argc => b.store[b.slots[base + 1 + k]]);
    FitAt(args, arity, i);
    CallUnfold(b, argc, arity, args);
    hide *;
    SlotShown(b', base, arity, Fit(args, arity), |b.store|, i);
  }

  lemma CallUnfold(b: Boxes, argc: nat, arity: nat, args: seq<Value>)
    requires CanBox(b, Call(argc, arity))
    requires |args| == argc && forall k :: 0 <= k < argc ==> args[k] == b.store[b.slots[|b.slots| - argc + k]]
    ensures var base := |b.slots| - 1 - argc;
            var b' := ExecBox(b, Call(argc, arity));
            && |Fit(args, arity)| == arity && b'.Valid()
            && b'.frames == b.frames + [Running(base, b.store[b.slots[base]].upvalues)]
            && b'.slots == b.slots[..base + 1] + seq(arity, k => |b.store| + k)
            && b'.store == b.store + Fit(args, arity)
  {
    var top := |b.slots| - 1;
    assert args == seq(argc, k requires 0 <= k < argc => b.store[b.slots[top - argc + 1 + k]]);
  }

  lemma SlotShown(b: Boxes, base: nat, arity: nat, vs: seq<Value>, first: nat, i: nat)
    requires b.frames != [] && Top(b.frames).base == base && b.Valid() && i < arity == |vs|
    requires |b.slots| == base + 1 + arity && b.slots[base + 1 + i] == first + i
    requires |b.store| == first + arity && b.store[first..] == vs
    ensures CanBox(b, GetLocal(1 + i)) && Variable(b, Slot(1 + i)) == first + i && Shown(b, Slot(1 + i)) == vs[i]
  {
    ReadUnfold(b, Slot(1 + i));
    assert b.store[first..][i] == b.store[first + i];
  }

  /** What a closure made here holds are the variables at the places its descriptors name. */
  lemma ClosureHoldsVariables(b: Boxes, ds: seq<C.UpvalueDesc>, i: nat)
    requires CanBox(b, MakeClosure(ds)) && i < |ds|
    ensures var b' := ExecBox(b, MakeClosure(ds));
            var f := b'.store[b'.slots[|b.slots|]];
            && |b'.slots| == |b.slots| + 1 && b'.slots[..|b.slots|] == b.slots && b.store <= b'.store && f.Fun?
            && |f.upvalues| == |ds|
            && f.upvalues[i] == if ds[i].fromParentLocal then b.slots[Top(b.frames).base + ds[i].index]
                                else Top(b.frames).upvalues[ds[i].index]
  {
  }

  /** Closing from a slot upwards starts a new variable in each such slot, with the value of the old one: what holds the
      old variable keeps it, and stores through the slot no longer reach it. */
  lemma IterationStartsAnew(b: Boxes, from: nat, i: nat)
    requires CanBox(b, CloseUpvalueTo(from)) && i < |b.slots|
    ensures var b' := ExecBox(b, CloseUpvalueTo(from));
            && |b'.slots| == |b.slots| && b.store <= b'.store && b'.frames == b.frames && b'.kept == b.kept
            && b'.slots[i] < |b'.store| && b'.store[b'.slots[i]] == b.store[b.slots[i]]
            && (if i < Top(b.frames).base + from then b'.slots[i] == b.slots[i] else b'.slots[i] >= |b.store|)
            && (forall j :: 0 <= j < i && Top(b.frames).base + from <= i ==> b'.slots[j] != b'.slots[i])
  {
  }

  /** Returning gives up the frame, goes back to the caller's slots and puts the value on top in place of the callee. */
  lemma ReturnGoesBack(b: Boxes)
    requires CanBox(b, Return)
    ensures var base := Top(b.frames).base;
            var b' := ExecBox(b, Return);
            && b'.frames == b.frames[..|b.frames| - 1] && |b'.slots| == base + 1 && b'.slots[..base] == b.slots[..base]
            && b.store <= b'.store && b'.store[b'.slots[base]] == b.store[b.slots[|b.slots| - 1]]
  {
  }

  /** An error unwinds to the frame and the slots its handler was set up with, and is on top. */
  lemma HandlerGoesBack(b: Boxes, height: nat, depth: nat, n: int)
    requires CanBox(b, Unwind(height, depth, n))
    ensures var b' := ExecBox(b, Unwind(height, depth, n));
            && b'.frames == b.frames[..depth] && |b'.slots| == height + 1 && b'.slots[..height] == b.slots[..height]
            && b.store <= b'.store && b'.store[b'.slots[height]] == Data(n)
  {
  }

  /** A caller's variables outlive a call: what the callee stored in them is there when it returns. */
  lemma CalleesStoreIsSeen(b: Boxes, argc: nat, k: nat, n: int)
    requires CanBox(b, Call(argc, 0))
    requires var us := b.store[b.slots[|b.slots| - 1 - argc]].upvalues; k < |us| && us[k] < |b.store|
    ensures var base, r := |b.slots| - 1 - argc, BoxesAfter(b, [Call(argc, 0), Push(n), SetUpvalue(k), Return]);
            && r.Some? && r.value.frames == b.frames
            && |r.value.slots| == base + 1 && r.value.slots[..base] == b.slots[..base]
            && b.store[b.store[b.slots[base]].upvalues[k] := Data(n)] <= r.value.store
  {
    hide *;
    var b1, b2, b3 := CalleeSteps(b, argc, k, n);
    X.BoxFirst(b, Call(argc, 0), [Push(n), SetUpvalue(k), Return], b1);
    X.BoxFirst(b1, Push(n), [SetUpvalue(k), Return], b2);
    X.BoxFirst(b2, SetUpvalue(k), [Return], b3);
    X.BoxFirst(b3, Return, [], ExecBox(b3, Return));
    X.NoMoreOps(ExecBox(b3, Return));
    assert [Call(argc, 0)] + [Push(n), SetUpvalue(k), Return] == [Call(argc, 0), Push(n), SetUpvalue(k), Return];
    assert [Push(n)] + [SetUpvalue(k), Return] == [Push(n), SetUpvalue(k), Return];
    assert [SetUpvalue(k)] + [Return] == [SetUpvalue(k), Return] && [Return] + [] == [Return];
  }

  /** The states of the call, up to the return. */
  lemma CalleeSteps(b: Boxes, argc: nat, k: nat, n: int) returns (b1: Boxes, b2: Boxes, b3: Boxes)
    requires CanBox(b, Call(argc, 0))
    requires var us := b.store[b.slots[|b.slots| - 1 - argc]].upvalues; k < |us| && us[k] < |b.store|
    ensures CanBox(b, Call(argc, 0)) && ExecBox(b, Call(argc, 0)) == b1
    ensures CanBox(b1, Push(n)) && ExecBox(b1, Push(n)) == b2
    ensures CanBox(b2, SetUpvalue(k)) && ExecBox(b2, SetUpvalue(k)) == b3 && CanBox(b3, Return)
    ensures var base, r := |b.slots| - 1 - argc, ExecBox(b3, Return);
            && r.frames == b.frames && |r.slots| == base + 1 && r.slots[..base] == b.slots[..base]
            && b.store[b.store[b.slots[base]].upvalues[k] := Data(n)] <= r.store
  {
    hide ExecBox;
    var base := |b.slots| - 1 - argc;
    var f := b.store[b.slots[base]];
    b1 := b.(slots := b.slots[..base + 1], frames := b.frames + [Running(base, f.upvalues)]);
    b2 := Boxed(b1, Data(n));
    b3 := Assigned(b2, f.upvalues[k], Data(n));
    Called(b, argc);
    Pushes(b1, n);
    StoreUpvalue(b2, k);
    ReturnGoesBack(b3);
    assert b.store[f.upvalues[k] := Data(n)] <= b3.store;
  }

  lemma Called(b: Boxes, argc: nat)
    requires CanBox(b, Call(argc, 0))
    ensures var base := |b.slots| - 1 - argc;
            ExecBox(b, Call(argc, 0))
            == b.(slots := b.slots[..base + 1],
                  frames := b.frames + [Running(base, b.store[b.slots[base]].upvalues)])
  {
    assert forall args: seq<Value> :: Fit(args, 0) == [];
  }

  lemma Pushes(b: Boxes, n: int)
    requires b.frames != [] && b.Valid()
    ensures CanBox(b, Push(n)) && ExecBox(b, Push(n)) == Boxed(b, Data(n)) && Boxed(b, Data(n)).Valid()
  {
  }

  lemma StoreUpvalue(b: Boxes, k: nat)
    requires CanBox(b, SetUpvalue(k))
    ensures ExecBox(b, SetUpvalue(k)) == Assigned(b, Top(b.frames).upvalues[k], b.store[b.slots[|b.slots| - 1]])
  {
  }
}
