/** What sweeping does to a heap: unmarked tracked cells are emptied, and reference counting frees what that
    releases. */
module Sweeping {
  import opened Heap

  predicate Tracked(c: Cell) {
    c.ArrayCell? || c.ObjectCell? || c.UpvalueCell?
  }

  function Emptied(c: Cell): Cell
    requires Tracked(c)
  {
    match c
    case ArrayCell(_) => ArrayCell([])
    case ObjectCell(_) => ObjectCell([])
    case UpvalueCell(_) => UpvalueCell(Closed(Plain))
  }

  // ---- Reference counting ----

  /** Nothing dangles. */
  ghost predicate Grounded(h: Cells, roots: set<Id>) {
    roots <= h.Keys && forall id :: id in h ==> CellRefs(h[id]) <= h.Keys
  }

  /** Somebody holds a strong reference. */
  predicate Held(h: Cells, roots: set<Id>, id: Id) {
    id in roots || exists k :: k in h && id in CellRefs(h[k])
  }

  /** Reference counting has freed all it can. */
  ghost predicate Balanced(h: Cells, roots: set<Id>) {
    forall id :: id in h ==> Held(h, roots, id)
  }

  /** Every cell of `s` is held by the roots or by a cell of `s`. */
  ghost predicate Standing(h: Cells, roots: set<Id>, s: set<Id>) {
    s <= h.Keys && forall id :: id in s ==> id in roots || exists k :: k in s && id in CellRefs(h[k])
  }

  /** `h'` keeps, unchanged, the largest part of `h` that holds itself up. */
  ghost predicate Released(h: Cells, h': Cells, roots: set<Id>) {
    && h'.Keys <= h.Keys && (forall id :: id in h' ==> h'[id] == h[id])
    && Grounded(h', roots) && Balanced(h', roots)
    && forall s :: Standing(h, roots, s) ==> s <= h'.Keys
  }

  lemma FreeKeepsGrounded(h: Cells, roots: set<Id>, id: Id)
    requires Grounded(h, roots) && id in h && !Held(h, roots, id)
    ensures Grounded(h - {id}, roots)
  {
    forall k | k in h - {id}
      ensures CellRefs(h[k]) <= (h - {id}).Keys
    {
      assert id !in CellRefs(h[k]);
    }
  }

  lemma FreeKeepsStanding(h0: Cells, h: Cells, roots: set<Id>, id: Id, s: set<Id>)
    requires Standing(h0, roots, s) && s <= h.Keys && (forall k :: k in h ==> k in h0 && h[k] == h0[k])
    requires !Held(h, roots, id)
    ensures s <= (h - {id}).Keys
  {
  }

  // ---- Between two moments of a sweep ----

  /** Since `h0`, only unreachable tracked cells were emptied and only unheld cells freed. */
  ghost predicate Swept(h0: Cells, h: Cells, roots: set<Id>) {
    && Grounded(h, roots) && h.Keys <= h0.Keys
    && forall id :: id in h ==>
         h[id] == h0[id] || (Tracked(h0[id]) && h[id] == Emptied(h0[id]) && !Reachable(h0, roots, id))
  }

  lemma EmptySweeps(h0: Cells, h: Cells, roots: set<Id>, id: Id)
    requires Swept(h0, h, roots) && id in h && Tracked(h[id]) && !Reachable(h0, roots, id)
    ensures Swept(h0, h[id := Emptied(h[id])], roots)
  {
    EmptyRefersToNothing(h[id]);
    EmptyTwice(h0[id]);
    hide Reachable, CellRefs, Emptied;
  }

  lemma EmptyTwice(c: Cell)
    ensures Tracked(c) ==> Tracked(Emptied(c)) && Emptied(Emptied(c)) == Emptied(c)
  {
  }

  lemma EmptyRefersToNothing(c: Cell)
    ensures Tracked(c) ==> CellRefs(Emptied(c)) == {}
  {
  }

  lemma ReleaseSweeps(h0: Cells, h: Cells, h': Cells, roots: set<Id>)
    requires Swept(h0, h, roots) && Released(h, h', roots)
    ensures Swept(h0, h', roots)
  {
    hide Reachable, CellRefs, Balanced;
  }

  /** Sweeping leaves everything the roots reach allocated and unchanged. */
  lemma {:induction false} KeepsReachable(h0: Cells, h: Cells, roots: set<Id>, p: seq<Id>)
    requires Swept(h0, h, roots) && Path(h0, p) && p[0] in roots
    ensures forall i :: 0 <= i < |p| ==> p[i] in h && h[p[i]] == h0[p[i]]
    ensures Path(h, p)
    decreases |p|
  {
    var n := |p| - 1;
    assert Reachable(h0, roots, p[n]);
    if n > 0 {
      assert Path(h0, p[..n]);
      KeepsReachable(h0, h, roots, p[..n]);
      assert forall i :: 0 <= i < n ==> p[..n][i] == p[i];
      assert p[n - 1] in h && h[p[n - 1]] == h0[p[n - 1]];
    }
  }

  lemma {:induction false} ReachedBefore(h0: Cells, h: Cells, roots: set<Id>, p: seq<Id>)
    requires Swept(h0, h, roots) && Path(h, p) && p[0] in roots
    ensures Path(h0, p)
    decreases |p|
  {
    forall i | 0 <= i < |p| - 1
      ensures p[i] in h0 && p[i + 1] in CellRefs(h0[p[i]])
    {
      assert p[i + 1] in CellRefs(h[p[i]]);
      EmptyRefersToNothing(h0[p[i]]);
    }
  }

  /** The roots reach the same cells after the sweep as before, and find the same contents in them. */
  lemma SameReachable(h0: Cells, h: Cells, roots: set<Id>, id: Id)
    requires Swept(h0, h, roots)
    ensures Reachable(h, roots, id) <==> Reachable(h0, roots, id)
    ensures Reachable(h0, roots, id) ==> id in h && h[id] == h0[id]
  {
    if Reachable(h0, roots, id) {
      var p :| Path(h0, p) && p[0] in roots && p[|p| - 1] == id;
      KeepsReachable(h0, h, roots, p);
    }
    if Reachable(h, roots, id) {
      var p :| Path(h, p) && p[0] in roots && p[|p| - 1] == id;
      ReachedBefore(h0, h, roots, p);
    }
  }

  /** Cells outside `swept` that hold themselves up are still there, unchanged. */
  ghost predicate Spared(h0: Cells, h: Cells, roots: set<Id>, swept: set<Id>) {
    forall s :: Standing(h0, roots, s) && s !! swept ==> s <= h.Keys && forall id :: id in s ==> h[id] == h0[id]
  }

  lemma EmptySpares(h0: Cells, h: Cells, roots: set<Id>, swept: set<Id>, id: Id, c: Cell)
    requires Spared(h0, h, roots, swept) && id in h
    ensures Spared(h0, h[id := c], roots, swept + {id})
  {
    hide Standing;
  }

  lemma ReleaseSpares(h0: Cells, h: Cells, h': Cells, roots: set<Id>, swept: set<Id>)
    requires Spared(h0, h, roots, swept) && Released(h, h', roots)
    ensures Spared(h0, h', roots, swept)
  {
    hide CellRefs;
    forall s | Standing(h0, roots, s) && s !! swept
      ensures s <= h'.Keys && forall id :: id in s ==> h'[id] == h0[id]
    {
      assert Standing(h, roots, s);
    }
  }

  // ---- The registry ----

  /** The entries whose cell is still allocated, in order. */
  function Live(entries: seq<Id>, alive: set<Id>): seq<Id> {
    if entries == [] then []
    else
      var last := entries[|entries| - 1];
      Live(entries[..|entries| - 1], alive) + if last in alive then [last] else []
  }

  lemma LiveMore(entries: seq<Id>, id: Id, alive: set<Id>)
    ensures Live(entries + [id], alive) == Live(entries, alive) + if id in alive then [id] else []
  {
    assert (entries + [id])[..|entries|] == entries;
  }

  lemma {:induction false} LiveMembers(entries: seq<Id>, alive: set<Id>, id: Id)
    ensures id in Live(entries, alive) <==> id in entries && id in alive
    decreases |entries|
  {
    if entries != [] {
      LiveMembers(entries[..|entries| - 1], alive, id);
    }
  }

  /** Dropping dead entries early does not change which entries are live later. */
  lemma {:induction false} LiveLater(entries: seq<Id>, alive: set<Id>, later: set<Id>)
    requires later <= alive
    ensures Live(Live(entries, alive), later) == Live(entries, later)
    decreases |entries|
  {
    if entries != [] {
      var n := |entries| - 1;
      LiveLater(entries[..n], alive, later);
      if entries[n] in alive {
        LiveMore(Live(entries[..n], alive), entries[n], later);
      } else {
        assert Live(entries, alive) == Live(entries[..n], alive);
      }
    }
  }

  /** Every entry's cell is among `alive`. */
  predicate AllLive(entries: seq<Id>, alive: set<Id>) {
    forall i :: 0 <= i < |entries| ==> entries[i] in alive
  }

  lemma OneMoreKept(entries: seq<Id>, id: Id, alive: set<Id>)
    requires AllLive(entries, alive) && id in alive
    ensures AllLive(entries + [id], alive)
  {
  }

  lemma LiveBefore(entries: seq<Id>, alive: set<Id>, before: set<Id>)
    requires AllLive(entries, alive) && alive <= before
    ensures AllLive(entries, before)
  {
  }

  lemma NoneKept(alive: set<Id>)
    ensures AllLive([], alive)
  {
  }

  lemma SameLater(a: seq<Id>, b: seq<Id>, alive: set<Id>, later: set<Id>)
    requires Live(a, alive) == Live(b, alive) && later <= alive
    ensures Live(a, later) == Live(b, later)
  {
    LiveLater(a, alive, later);
    LiveLater(b, alive, later);
  }

  // ---- What a sweep achieves ----

  /** The allocated unreachable cells among `swept` refer to nothing. */
  ghost predicate Hollow(h0: Cells, h: Cells, roots: set<Id>, swept: set<Id>) {
    forall id :: id in swept && id in h && !Reachable(h0, roots, id) ==> Tracked(h[id]) && h[id] == Emptied(h[id])
  }

  /** A cycle of cells the roots do not reach. */
  ghost predicate GarbageCycle(h: Cells, roots: set<Id>, p: seq<Id>) {
    Path(h, p) && |p| > 1 && p[0] == p[|p| - 1] && !Reachable(h, roots, p[0])
  }

  lemma {:induction false} UnreachableBefore(h: Cells, roots: set<Id>, p: seq<Id>, i: nat)
    requires Path(h, p) && !Reachable(h, roots, p[|p| - 1]) && i < |p|
    ensures !Reachable(h, roots, p[i])
    decreases |p| - i
  {
    if i < |p| - 1 {
      UnreachableBefore(h, roots, p, i + 1);
      if Reachable(h, roots, p[i]) {
        ReachFurther(h, roots, p[i], p[i + 1]);
      }
    }
  }

  /** Garbage cycles left behind avoid every swept cell, and were there before the sweep. */
  lemma CyclesBroken(h0: Cells, h: Cells, roots: set<Id>, swept: set<Id>, p: seq<Id>)
    requires Swept(h0, h, roots) && Hollow(h0, h, roots, swept) && GarbageCycle(h, roots, p)
    ensures GarbageCycle(h0, roots, p)
    ensures forall i :: 0 <= i < |p| ==> p[i] !in swept
  {
    forall i | 0 <= i < |p| - 1
      ensures p[i] in h0 && p[i + 1] in CellRefs(h0[p[i]]) && p[i] !in swept
    {
      UnreachableBefore(h, roots, p, i);
      SameReachable(h0, h, roots, p[i]);
      assert p[i] in h && p[i + 1] in CellRefs(h[p[i]]);
      EmptyRefersToNothing(h0[p[i]]);
      EmptyRefersToNothing(h[p[i]]);
    }
    SameReachable(h0, h, roots, p[0]);
  }

  /** Following references backwards from garbage never ends. */
  lemma {:induction false} Backwards(h: Cells, roots: set<Id>, id: Id, n: nat) returns (p: seq<Id>)
    requires Balanced(h, roots) && id in h && !Reachable(h, roots, id)
    ensures |p| == n + 1 && Path(h, p)
    ensures forall i :: 0 <= i < |p| ==> p[i] in h && !Reachable(h, roots, p[i])
  {
    if n == 0 {
      p := [id];
    } else {
      var q := Backwards(h, roots, id, n - 1);
      var first := q[0];
      if first in roots {
        RootReachable(h, roots, first);
        assert false;
      }
      assert Held(h, roots, first);
      var k :| k in h && first in CellRefs(h[k]);
      if Reachable(h, roots, k) {
        ReachFurther(h, roots, k, first);
        assert false;
      }
      p := [k] + q;
      assert forall i :: 0 < i < |p| ==> p[i] == q[i - 1];
    }
  }

  lemma {:induction false} Pigeonhole(p: seq<Id>, s: set<Id>)
    requires forall i :: 0 <= i < |p| ==> p[i] in s
    requires forall i, j :: 0 <= i < j < |p| ==> p[i] != p[j]
    ensures |p| <= |s|
    decreases |p|
  {
    if p != [] {
      var n := |p| - 1;
      Pigeonhole(p[..n], s - {p[n]});
    }
  }

  lemma SubPath(h: Cells, p: seq<Id>, i: nat, j: nat)
    requires Path(h, p) && i < j < |p|
    ensures Path(h, p[i..j + 1]) && |p[i..j + 1]| > 1 && p[i..j + 1][0] == p[i] && p[i..j + 1][j - i] == p[j]
  {
    var q := p[i..j + 1];
    forall k | 0 <= k < |q| - 1
      ensures q[k] in h && q[k + 1] in CellRefs(h[q[k]])
    {
      assert q[k] == p[i + k] && q[k + 1] == p[i + k + 1];
    }
  }

  /** What reference counting cannot free is held by a cycle. */
  lemma CycleBehind(h: Cells, roots: set<Id>, id: Id) returns (p: seq<Id>)
    requires Balanced(h, roots) && id in h && !Reachable(h, roots, id)
    ensures GarbageCycle(h, roots, p)
  {
    var q := Backwards(h, roots, id, |h.Keys|);
    if forall i, j :: 0 <= i < j < |q| ==> q[i] != q[j] {
      Pigeonhole(q, h.Keys);
      assert false;
    }
    var i, j :| 0 <= i < j < |q| && q[i] == q[j];
    SubPath(h, q, i, j);
    p := q[i..j + 1];
  }

  lemma CycleStands(h: Cells, roots: set<Id>, p: seq<Id>)
    requires GarbageCycle(h, roots, p)
    ensures Standing(h, roots, set id | id in p)
  {
    var s := set id | id in p;
    assert p[0] in h;
    forall id | id in s
      ensures id in h && exists k :: k in s && id in CellRefs(h[k])
    {
      var i :| 0 <= i < |p| && p[i] == id;
      var j := if i == 0 then |p| - 2 else i - 1;
      assert p[j] in s && p[j + 1] in CellRefs(h[p[j]]);
    }
  }

  // ---- The invariant of a sweep ----

  /** The sweep that started at `h0` has come to `h` and dealt with `swept`. */
  ghost predicate SweepState(h0: Cells, h: Cells, roots: set<Id>, swept: set<Id>) {
    Swept(h0, h, roots) && Balanced(h, roots) && Spared(h0, h, roots, swept) && Hollow(h0, h, roots, swept)
  }

  lemma SweepStarts(h: Cells, roots: set<Id>)
    requires Grounded(h, roots) && Balanced(h, roots)
    ensures SweepState(h, h, roots, {})
  {
  }

  /** A cell that is gone or reachable is left alone. */
  lemma SkipStep(h0: Cells, h: Cells, roots: set<Id>, swept: set<Id>, id: Id)
    requires SweepState(h0, h, roots, swept) && (id !in h || Reachable(h0, roots, id))
    ensures SweepState(h0, h, roots, swept + {id})
  {
    hide Reachable, Standing, CellRefs, Balanced;
  }

  /** An unreachable cell is emptied, and what that releases is freed. */
  lemma ClearStep(h0: Cells, h: Cells, h': Cells, roots: set<Id>, swept: set<Id>, id: Id)
    requires SweepState(h0, h, roots, swept) && id in h && Tracked(h[id]) && !Reachable(h0, roots, id)
    requires Released(h[id := Emptied(h[id])], h', roots)
    ensures SweepState(h0, h', roots, swept + {id})
  {
    var c := Emptied(h[id]);
    EmptySweeps(h0, h, roots, id);
    ReleaseSweeps(h0, h[id := c], h', roots);
    EmptySpares(h0, h, roots, swept, id, c);
    ReleaseSpares(h0, h[id := c], h', roots, swept + {id});
    EmptyTwice(h[id]);
    hide Reachable, Standing, CellRefs, Balanced, Emptied, Grounded, Spared;
  }

  /** `marked` tells reachable from unreachable among the entries that were allocated when the sweep began. */
  ghost predicate Decides(h0: Cells, roots: set<Id>, entries: seq<Id>, marked: set<Id>) {
    forall id :: id in entries && id in h0 ==> Tracked(h0[id]) && (id in marked <==> Reachable(h0, roots, id))
  }

  ghost predicate AllReached(h0: Cells, alive: set<Id>, roots: set<Id>, entries: set<Id>) {
    forall id :: id in entries && id in alive ==> Reachable(h0, roots, id)
  }

  lemma EmptyGrounded(h: Cells, roots: set<Id>, id: Id)
    requires Grounded(h, roots) && id in h && Tracked(h[id])
    ensures Grounded(h[id := Emptied(h[id])], roots)
  {
    EmptyRefersToNothing(h[id]);
    hide CellRefs, Emptied;
  }

  lemma OneMore(entries: seq<Id>, i: nat)
    requires i < |entries|
    ensures IdSet(entries[..i + 1]) == IdSet(entries[..i]) + {entries[i]}
  {
    assert entries[..i + 1] == entries[..i] + [entries[i]];
  }

  lemma OneMoreReached(h0: Cells, alive: set<Id>, roots: set<Id>, a: set<Id>, id: Id)
    ensures AllReached(h0, alive, roots, a + {id})
       <==> AllReached(h0, alive, roots, a) && (id in alive ==> Reachable(h0, roots, id))
  {
    hide Reachable;
  }

  /** The three lists together have nothing cleared exactly if every allocated entry was reachable. */
  lemma Tally(h0: Cells, roots: set<Id>, k0: set<Id>, k1: set<Id>, k2: set<Id>,
              o: set<Id>, a: set<Id>, u: set<Id>, c1: nat, c2: nat, c3: nat)
    requires (c1 == 0 <==> AllReached(h0, k0, roots, o)) && (c1 == 0 ==> k1 == k0)
    requires (c2 == 0 <==> AllReached(h0, k1, roots, a)) && (c2 == 0 ==> k2 == k1)
    requires c3 == 0 <==> AllReached(h0, k2, roots, u)
    ensures c1 + c2 + c3 == 0 <==> AllReached(h0, k0, roots, {} + o + a + u)
  {
    hide Reachable;
  }

  /** How many entries are allocated and garbage. */
  ghost function Garbage(h0: Cells, roots: set<Id>, entries: seq<Id>, alive: set<Id>): nat {
    if entries == [] then 0
    else
      var n := |entries| - 1;
      Garbage(h0, roots, entries[..n], alive)
      + if entries[n] in alive && !Reachable(h0, roots, entries[n]) then 1 else 0
  }

  lemma {:induction false} GarbageShrinks(h0: Cells, roots: set<Id>, entries: seq<Id>, alive: set<Id>, later: set<Id>)
    requires later <= alive
    ensures Garbage(h0, roots, entries, later) <= Garbage(h0, roots, entries, alive)
    decreases |entries|
  {
    hide Reachable;
    if entries != [] {
      GarbageShrinks(h0, roots, entries[..|entries| - 1], alive, later);
    }
  }

  /** Counting the next entry, with `before` allocated when its turn comes and `after` when it is dealt with. */
  lemma CountOne(h0: Cells, roots: set<Id>, entries: seq<Id>, i: nat, start: set<Id>, before: set<Id>, after: set<Id>,
                 count: nat)
    requires i < |entries| && after <= before <= start
    requires Garbage(h0, roots, entries[..i], before) <= count <= Garbage(h0, roots, entries[..i], start)
    ensures var one := if entries[i] in before && !Reachable(h0, roots, entries[i]) then 1 else 0;
            Garbage(h0, roots, entries[..i + 1], after) <= count + one <= Garbage(h0, roots, entries[..i + 1], start)
  {
    hide Reachable;
    GarbageShrinks(h0, roots, entries[..i], before, after);
    assert entries[..i + 1][..i] == entries[..i];
  }

  lemma NothingCounted(h0: Cells, roots: set<Id>, entries: seq<Id>, alive: set<Id>)
    ensures Garbage(h0, roots, entries[..0], alive) == 0
  {
  }

  /** The garbage of the three lists. */
  ghost function AllGarbage(h0: Cells, roots: set<Id>, o: seq<Id>, a: seq<Id>, u: seq<Id>, alive: set<Id>): nat {
    Garbage(h0, roots, o, alive) + Garbage(h0, roots, a, alive) + Garbage(h0, roots, u, alive)
  }

  /** No garbage entry that is still there was left out of the count, and none but garbage was counted. */
  ghost predicate Counted(h0: Cells, roots: set<Id>, o: seq<Id>, a: seq<Id>, u: seq<Id>, left: set<Id>, count: nat) {
    AllGarbage(h0, roots, o, a, u, left) <= count <= AllGarbage(h0, roots, o, a, u, h0.Keys)
  }

  lemma CountAll(h0: Cells, roots: set<Id>, o: seq<Id>, a: seq<Id>, u: seq<Id>, k0: set<Id>, k1: set<Id>, k2: set<Id>,
                 k3: set<Id>, c1: nat, c2: nat, c3: nat)
    requires k3 <= k2 <= k1 <= k0
    requires Garbage(h0, roots, o, k1) <= c1 <= Garbage(h0, roots, o, k0)
    requires Garbage(h0, roots, a, k2) <= c2 <= Garbage(h0, roots, a, k1)
    requires Garbage(h0, roots, u, k3) <= c3 <= Garbage(h0, roots, u, k2)
    requires k0 == h0.Keys
    ensures Counted(h0, roots, o, a, u, k3, c1 + c2 + c3)
  {
    hide *;
    assert k3 <= k1 && k2 <= k0;
    GarbageShrinks(h0, roots, o, k1, k3);
    GarbageShrinks(h0, roots, a, k2, k3);
    GarbageShrinks(h0, roots, a, k0, k1);
    GarbageShrinks(h0, roots, u, k0, k2);
    SumCounted(h0, roots, o, a, u, k3, c1, c2, c3);
  }

  lemma SumCounted(h0: Cells, roots: set<Id>, o: seq<Id>, a: seq<Id>, u: seq<Id>, left: set<Id>, c1: nat, c2: nat,
                   c3: nat)
    requires Garbage(h0, roots, o, left) <= c1 <= Garbage(h0, roots, o, h0.Keys)
    requires Garbage(h0, roots, a, left) <= c2 <= Garbage(h0, roots, a, h0.Keys)
    requires Garbage(h0, roots, u, left) <= c3 <= Garbage(h0, roots, u, h0.Keys)
    ensures Counted(h0, roots, o, a, u, left, c1 + c2 + c3)
  {
    hide Garbage;
  }

  lemma OneMoreLive(kept: seq<Id>, entries: seq<Id>, i: nat, alive: set<Id>, later: set<Id>)
    requires i < |entries| && Live(kept, alive) == Live(entries[..i], alive) && later <= alive
    ensures Live(kept + [entries[i]], later) == Live(entries[..i + 1], later)
    ensures entries[i] !in alive ==> Live(kept, later) == Live(entries[..i + 1], later)
  {
    SameLater(kept, entries[..i], alive, later);
    LiveMore(kept, entries[i], later);
    LiveMore(entries[..i], entries[i], later);
    assert entries[..i + 1] == entries[..i] + [entries[i]];
  }

  lemma EntryDecided(h0: Cells, h: Cells, roots: set<Id>, swept: set<Id>, entries: seq<Id>, marked: set<Id>, i: nat)
    requires Decides(h0, roots, entries, marked) && Swept(h0, h, roots) && i < |entries| && entries[i] in h
    ensures Tracked(h[entries[i]]) && (entries[i] in marked <==> Reachable(h0, roots, entries[i]))
  {
    EmptyTwice(h0[entries[i]]);
  }

  /** What remains allocated is what the roots reach, no more and no less, exactly if every garbage cycle ran through a
      swept cell. */
  lemma SweepIsComplete(h0: Cells, h: Cells, roots: set<Id>, swept: set<Id>)
    requires SweepState(h0, h, roots, swept)
    ensures (forall id :: id in h <==> Reachable(h0, roots, id))
       <==> (forall p :: GarbageCycle(h0, roots, p) ==> exists i :: 0 <= i < |p| && p[i] in swept)
  {
    if forall p :: GarbageCycle(h0, roots, p) ==> exists i :: 0 <= i < |p| && p[i] in swept {
      forall id
        ensures id in h <==> Reachable(h0, roots, id)
      {
        SameReachable(h0, h, roots, id);
        if id in h && !Reachable(h0, roots, id) {
          var p := CycleBehind(h, roots, id);
          CyclesBroken(h0, h, roots, swept, p);
          assert false;
        }
      }
    } else {
      var p :| GarbageCycle(h0, roots, p) && forall i :: 0 <= i < |p| ==> p[i] !in swept;
      CycleStands(h0, roots, p);
      assert p[0] in (set id | id in p) && p[0] in h;
    }
  }
}
