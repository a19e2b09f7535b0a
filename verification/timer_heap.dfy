/** The 4-ary min-heap of timers (runtime/timer.c): heap order, and what one swap of the sift loops does to it. */
module TimerHeap {
  const D: nat := 4

  /** struct timer_idx: a deadline and the timer entry it belongs to. */
  datatype Slot = Slot(deadline: nat, e: nat)

  function Parent(i: nat): nat
    requires i > 0
  {
    (i - 1) / D
  }

  /** Position j is in order with its parent. */
  predicate Ordered(h: seq<Slot>, j: nat)
    requires 0 < j < |h|
  {
    h[Parent(j)].deadline <= h[j].deadline
  }

  ghost predicate Heap(h: seq<Slot>) {
    forall j :: 0 < j < |h| ==> Ordered(h, j)
  }

  /** No child of i comes before i's parent. */
  ghost predicate Bridged(h: seq<Slot>, i: nat) {
    forall j :: 0 < j < |h| && Parent(j) == i && 0 < i < |h| ==> h[Parent(i)].deadline <= h[j].deadline
  }

  /** Heap order, except that the slot at i may be out of place in either direction. */
  ghost predicate Hole(h: seq<Slot>, i: nat) {
    && (forall j :: 0 < j < |h| && j != i && Parent(j) != i ==> Ordered(h, j))
    && Bridged(h, i)
  }

  /** Heap order among the positions whose parent is at or after lo, except between i and its children. */
  ghost predicate Down(h: seq<Slot>, lo: nat, i: nat) {
    && (forall j :: 0 < j < |h| && Parent(j) != i && Parent(j) >= lo ==> Ordered(h, j))
    && (i > 0 && Parent(i) >= lo ==> Bridged(h, i))
  }

  /** Heap order among the positions whose parent is at or after lo. */
  ghost predicate HeapFrom(h: seq<Slot>, lo: nat) {
    forall j :: 0 < j < |h| && Parent(j) >= lo ==> Ordered(h, j)
  }

  lemma ChildRange(i: nat, j: nat)
    requires j > 0
    ensures Parent(j) == i <==> D * i + 1 <= j <= D * i + D
  {
  }

  /** The root of a heap is a minimum. */
  lemma {:induction false} RootIsMin(h: seq<Slot>, j: nat)
    requires Heap(h) && j < |h|
    ensures h[0].deadline <= h[j].deadline
    decreases j
  {
    if j > 0 {
      RootIsMin(h, Parent(j));
      assert Ordered(h, j);
    }
  }

  lemma RootBelow(h: seq<Slot>, t: Slot)
    requires Heap(h) && t in h
    ensures h[0].deadline <= t.deadline
  {
    var j :| 0 <= j < |h| && h[j] == t;
    RootIsMin(h, j);
  }

  function Swapped(h: seq<Slot>, i: nat, c: nat): seq<Slot>
    requires i < |h| && c < |h|
  {
    h[i := h[c]][c := h[i]]
  }

  lemma SwapKeepsSlots(h: seq<Slot>, i: nat, c: nat)
    requires i < |h| && c < |h|
    ensures multiset(Swapped(h, i, c)) == multiset(h)
  {
  }

  /* sift_up: state while the sifted slot stands at i, having come from `start`. */

  ghost predicate Rising(h: seq<Slot>, start: nat, i: nat) {
    && i < |h|
    && (forall j :: 0 < j < |h| && j != i && (Parent(j) != i || i != start) ==> Ordered(h, j))
    && Bridged(h, i)
  }

  lemma RiseStep(h: seq<Slot>, start: nat, i: nat)
    requires Rising(h, start, i) && i > 0 && h[i].deadline < h[Parent(i)].deadline && i <= start
    ensures Rising(Swapped(h, i, Parent(i)), start, Parent(i))
  {
    var p := Parent(i);
    var h' := Swapped(h, i, p);
    forall j | 0 < j < |h'| && j != p
      ensures Ordered(h', j)
    {
      if j != i && Parent(j) != i {
        assert Ordered(h, j);
      }
    }
    forall j | 0 < j < |h'| && Parent(j) == p && 0 < p
      ensures h'[Parent(p)].deadline <= h'[j].deadline
    {
      assert Ordered(h, p);
      if j != i {
        assert Ordered(h, j);
      }
    }
  }

  /** When the sifted slot has risen far enough, only the place it came from may still be above its children. */
  lemma RiseEnds(h: seq<Slot>, start: nat, i: nat)
    requires Rising(h, start, i) && (i == 0 || Ordered(h, i))
    ensures Down(h, 0, start)
  {
    forall j | 0 < j < |h| && Parent(j) == start && 0 < start < |h|
      ensures h[Parent(start)].deadline <= h[j].deadline
    {
      if i != start {
        assert Ordered(h, start) && Ordered(h, j);
      }
    }
  }

  /* sift_down: the sifted slot stands at i; c is its least child and comes before it. */

  ghost predicate LeastChild(h: seq<Slot>, i: nat, c: nat) {
    && 0 < c < |h| && Parent(c) == i
    && h[c].deadline < h[i].deadline
    && forall j :: 0 < j < |h| && Parent(j) == i ==> h[c].deadline <= h[j].deadline
  }

  lemma SinkStep(h: seq<Slot>, lo: nat, i: nat, c: nat)
    requires Down(h, lo, i) && lo <= i < |h| && LeastChild(h, i, c)
    ensures Down(Swapped(h, i, c), lo, c)
  {
    var h' := Swapped(h, i, c);
    forall j | 0 < j < |h'| && Parent(j) != c && Parent(j) >= lo
      ensures Ordered(h', j)
    {
      if j != i && Parent(j) != i {
        assert Ordered(h, j);
      }
    }
    forall j | 0 < j < |h'| && Parent(j) == c
      ensures h'[Parent(c)].deadline <= h'[j].deadline
    {
      assert Ordered(h, j);
    }
  }

  /** When no child comes before the sifted slot, order holds. */
  lemma SinkEnds(h: seq<Slot>, lo: nat, i: nat)
    requires Down(h, lo, i)
    requires forall j :: 0 < j < |h| && Parent(j) == i ==> h[i].deadline <= h[j].deadline
    ensures HeapFrom(h, lo)
  {
  }

  /* Back-pointers: idx[e] is where entry e stands. */

  ghost predicate Linked(h: seq<Slot>, idx: seq<nat>) {
    forall i :: 0 <= i < |h| ==> h[i].e < |idx| && idx[h[i].e] == i
  }

  /** Entry e is in the heap. */
  predicate Holds(h: seq<Slot>, idx: seq<nat>, e: nat)
    requires e < |idx|
  {
    idx[e] < |h| && h[idx[e]].e == e
  }

  function Relinked(h: seq<Slot>, idx: seq<nat>, i: nat, c: nat): seq<nat>
    requires i < |h| && c < |h| && h[i].e < |idx| && h[c].e < |idx|
  {
    idx[h[c].e := i][h[i].e := c]
  }

  /** A swap moves two entries' back-pointers along, and no others. */
  lemma SwapKeepsLinks(h: seq<Slot>, idx: seq<nat>, i: nat, c: nat)
    requires Linked(h, idx) && i < |h| && c < |h| && i != c
    ensures Linked(Swapped(h, i, c), Relinked(h, idx, i, c))
    ensures SameElsewhere(h, idx, Relinked(h, idx, i, c))
  {
  }

  /** Entries outside the heap keep their index. */
  ghost predicate SameElsewhere(h: seq<Slot>, idx: seq<nat>, idx': seq<nat>) {
    && |idx'| == |idx|
    && forall e :: 0 <= e < |idx| && !Holds(h, idx, e) ==> idx'[e] == idx[e]
  }

  /** Appending an entry that is not in the heap. */
  lemma AppendedLinks(h: seq<Slot>, idx: seq<nat>, s: Slot)
    requires Linked(h, idx) && s.e < |idx| && !Holds(h, idx, s.e)
    ensures Linked(h + [s], idx[s.e := |h|])
    ensures forall x :: 0 <= x < |idx| ==> (Holds(h + [s], idx[s.e := |h|], x) <==> Holds(h, idx, x) || x == s.e)
  {
  }

  /** A slot appended to a heap is the only one that may be out of order. */
  lemma AppendedHole(h: seq<Slot>, s: Slot)
    requires Heap(h)
    ensures Hole(h + [s], |h|)
  {
    forall j | 0 < j < |h|
      ensures Ordered(h + [s], j)
    {
      assert Ordered(h, j);
    }
  }

  lemma LeafDown(h: seq<Slot>, i: nat)
    requires Down(h, 0, i) && i == |h| - 1
    ensures Heap(h)
  {
  }

  /* Removing a slot: the last slot takes its place. */

  function Filled(h: seq<Slot>, i: nat): seq<Slot>
    requires i < |h|
  {
    var last := |h| - 1;
    if i == last then h[..last] else h[..last][i := h[last]]
  }

  /** The slot put in the removed one's place is the only one that may be out of order. */
  lemma FilledHole(h: seq<Slot>, i: nat)
    requires Heap(h) && i < |h| - 1
    ensures Hole(Filled(h, i), i)
  {
    var h' := Filled(h, i);
    forall j | 0 < j < |h'| && j != i && Parent(j) != i
      ensures Ordered(h', j)
    {
      assert Ordered(h, j);
    }
    forall j | 0 < j < |h'| && Parent(j) == i && i > 0
      ensures h'[Parent(i)].deadline <= h'[j].deadline
    {
      assert Ordered(h, i) && Ordered(h, j);
    }
  }

  function FilledIdx(h: seq<Slot>, idx: seq<nat>, i: nat): seq<nat>
    requires i < |h| && h[|h| - 1].e < |idx|
  {
    if i == |h| - 1 then idx else idx[h[|h| - 1].e := i]
  }

  lemma FilledLinks(h: seq<Slot>, idx: seq<nat>, i: nat)
    requires Linked(h, idx) && i < |h|
    ensures Linked(Filled(h, i), FilledIdx(h, idx, i))
    ensures forall x :: 0 <= x < |idx| ==>
      (Holds(Filled(h, i), FilledIdx(h, idx, i), x) <==> Holds(h, idx, x) && x != h[i].e)
  {
  }

  /** Removal takes out exactly the slot at the given position. */
  lemma FilledSlots(h: seq<Slot>, i: nat)
    requires i < |h|
    ensures multiset(Filled(h, i)) == multiset(h) - multiset{h[i]}
  {
    var last := |h| - 1;
    assert h == h[..last] + [h[last]];
  }

  lemma FilledPrefixHeap(h: seq<Slot>)
    requires Heap(h) && |h| > 0
    ensures Heap(Filled(h, |h| - 1))
  {
    var h' := Filled(h, |h| - 1);
    forall j | 0 < j < |h'|
      ensures Ordered(h', j)
    {
      assert Ordered(h, j);
    }
  }

  /* timer_merge: every leaf is a heap by itself. */
  lemma LeavesOrdered(h: seq<Slot>)
    ensures HeapFrom(h, |h| / D + 1)
  {
  }

  lemma FromZero(h: seq<Slot>)
    ensures HeapFrom(h, 0) <==> Heap(h)
  {
  }

  /* The source's own heap check. */

  /** is_valid_heap looks at positions 2 and up only. */
  predicate PassesCheck(h: seq<Slot>) {
    forall j :: 1 < j < |h| ==> Ordered(h, j)
  }

  lemma CheckExact(h: seq<Slot>)
    ensures Heap(h) <==> PassesCheck(h) && (|h| > 1 ==> h[0].deadline <= h[1].deadline)
  {
    if |h| > 1 {
      assert Ordered(h, 1) <==> h[0].deadline <= h[1].deadline;
    }
  }

  lemma CheckMisses(a: nat, b: nat)
    requires a > b
    ensures PassesCheck([Slot(a, 0), Slot(b, 1)]) && !Heap([Slot(a, 0), Slot(b, 1)])
  {
    assert !Ordered([Slot(a, 0), Slot(b, 1)], 1);
  }

  method IsValidHeap(h: array<Slot>, n: nat) returns (ok: bool)
    requires n <= h.Length
    ensures ok <==> PassesCheck(h[..n])
  {
    var i: int := n - 1;
    while i > 1
      invariant i < n
      invariant forall j :: i < j < n && 1 < j ==> Ordered(h[..n], j)
    {
      var p := (i - 1) / D;
      if h[p].deadline > h[i].deadline {
        assert !Ordered(h[..n], i);
        return false;
      }
      i := i - 1;
    }
    return true;
  }
}
