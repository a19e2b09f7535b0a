/** Starting, cancelling, firing and merging timers (runtime/timer.c). */
module Timer {
  import opened TimerHeap
  import opened TimerSift

  const MAX_TIMERS: nat := 4096

  /** The fields of every timer entry of the process, by entry number. */
  class Entries {
    const idx: array<nat>
    const armed: array<bool>
    const localk: array<nat>

    ghost predicate Shaped() {
      armed.Length == idx.Length == localk.Length && localk != idx
    }

    constructor (n: nat)
      ensures Shaped() && idx.Length == n && fresh(idx) && fresh(armed) && fresh(localk)
      ensures forall e :: 0 <= e < n ==> !armed[e]
    {
      idx := new nat[n];
      armed := new bool[n](_ => false);
      localk := new nat[n];
    }
  }

  /** Every entry in kthread id's heap h knows its place, is armed and names that kthread. */
  ghost predicate OwnedBy(id: nat, h: seq<Slot>, idx: seq<nat>, armed: seq<bool>, localk: seq<nat>) {
    && |idx| == |armed| == |localk|
    && Linked(h, idx)
    && forall e :: 0 <= e < |idx| && Holds(h, idx, e) ==> armed[e] && localk[e] == id
  }

  datatype CancelResult = NotArmed | Cancelled | OutOfHeap

  /** One kthread's timers. */
  class Timers {
    const id: nat
    const timers: array<Slot>
    const ents: Entries
    var timern: nat

    constructor (id: nat, ents: Entries)
      requires ents.Shaped()
      ensures this.id == id && this.ents == ents && Valid() && fresh(timers) && Slots() == []
    {
      this.id, this.ents, timern := id, ents, 0;
      timers := new Slot[MAX_TIMERS](_ => Slot(0, 0));
    }

    ghost predicate Shaped()
      reads this
    {
      timers.Length == MAX_TIMERS && timern < MAX_TIMERS && ents.Shaped()
    }

    ghost function Slots(): seq<Slot>
      requires Shaped()
      reads this, timers
    {
      timers[..timern]
    }

    ghost predicate Valid()
      reads this, timers, ents.idx, ents.armed, ents.localk
    {
      && Shaped() && Heap(Slots())
      && OwnedBy(id, Slots(), ents.idx[..], ents.armed[..], ents.localk[..])
    }

    /** Put a slot at the end of the array, heap order aside. */
    method Append(e: nat, deadline: nat)
      requires Shaped() && e < ents.idx.Length && timern + 1 < MAX_TIMERS
      modifies this, timers, ents.idx, ents.localk
      ensures timern == old(timern) + 1
      ensures timers[..timern] == old(timers[..timern]) + [Slot(deadline, e)]
      ensures ents.idx[..] == old(ents.idx[..])[e := old(timern)]
      ensures ents.localk[..] == old(ents.localk[..])[e := id]
    {
      timers[timern] := Slot(deadline, e);
      ents.idx[e] := timern;
      ents.localk[e] := id;
      timern := timern + 1;
    }

    /** timer_start_locked; false is the BUG on an armed entry or a full heap. */
    method Start(e: nat, deadline: nat) returns (ok: bool)
      requires Valid() && e < ents.idx.Length
      modifies this, timers, ents.idx, ents.armed, ents.localk
      ensures ok <==> !old(ents.armed[e]) && old(timern) + 1 < MAX_TIMERS
      ensures ok ==> Valid() && Started(old(Slots()), old(ents.idx[..]), Slot(deadline, e), Slots(), ents.idx[..])
      ensures !ok ==> unchanged(this, timers, ents.idx, ents.armed, ents.localk)
      ensures ok ==> ents.armed[..] == old(ents.armed[..])[e := true] && ents.localk[..] == old(ents.localk[..])[e := id]
    {
      if ents.armed[e] {
        return false;
      }
      var i := timern;
      if timern + 1 >= MAX_TIMERS {
        return false;
      }
      ghost var h, x, s := Slots(), ents.idx[..], Slot(deadline, e);
      AppendedLinks(h, x, s);
      AppendedHole(h, s);
      Append(e, deadline);
      SiftUp(timers, ents.idx, i, timern);
      LeafDown(timers[..timern], i);
      AddedEntry(h, x, s, timers[..timern], ents.idx[..]);
      ents.armed[e] := true;
      return true;
    }

    /** Take out the slot at position i: the last slot takes its place and is sifted both ways. */
    method RemoveAt(i: nat)
      requires Shaped() && Heap(Slots()) && Linked(Slots(), ents.idx[..]) && i < timern
      modifies this, timers, ents.idx
      ensures Shaped() && TakenOut(old(Slots()), old(ents.idx[..]), i, Slots(), ents.idx[..])
    {
      ghost var h, x := Slots(), ents.idx[..];
      FilledSlots(h, i);
      FilledLinks(h, x, i);
      timern := timern - 1;
      if i == timern {
        FilledPrefixHeap(h);
        assert timers[..timern] == Filled(h, i);
        return;
      }
      FilledHole(h, i);
      timers[i] := timers[timern];
      ents.idx[timers[i].e] := i;
      assert timers[..timern] == Filled(h, i);
      assert ents.idx[..] == FilledIdx(h, x, i);
      SiftUp(timers, ents.idx, i, timern);
      ghost var h1, x1 := timers[..timern], ents.idx[..];
      SiftDown(timers, ents.idx, i, timern, 0);
      FromZero(timers[..timern]);
      ReorderedTwice(Filled(h, i), FilledIdx(h, x, i), h1, x1, timers[..timern], ents.idx[..]);
      RemovedEntry(h, x, i, timers[..timern], ents.idx[..]);
    }

    /**
     * timer_cancel, once the entry's heap is locked. An armed entry whose index is not in the heap sends the source
     * outside the heap; the method stops there.
     */
    method Cancel(e: nat) returns (r: CancelResult)
      requires Valid() && e < ents.idx.Length
      modifies this, timers, ents.idx, ents.armed
      ensures r.NotArmed? <==> !old(ents.armed[e])
      ensures r.OutOfHeap? <==> old(ents.armed[e]) && old(ents.idx[e]) >= old(timern)
      ensures !r.Cancelled? ==> unchanged(this, timers, ents.idx, ents.armed)
      ensures Valid()
      ensures r.Cancelled? ==> ents.armed[..] == old(ents.armed[..])[e := false]
      ensures r.Cancelled? ==> TakenOut(old(Slots()), old(ents.idx[..]), old(ents.idx[e]), Slots(), ents.idx[..])
    {
      if !ents.armed[e] {
        return NotArmed;
      }
      if ents.idx[e] >= timern {
        return OutOfHeap;
      }
      ghost var h, x, a := Slots(), ents.idx[..], ents.armed[..];
      ents.armed[e] := false;
      RemoveAt(ents.idx[e]);
      CancelOwned(id, h, x, a, ents.localk[..], e, Slots(), ents.idx[..]);
      return Cancelled;
    }

    /** Take out the root: the last slot takes its place and is sifted down. */
    method DropRoot()
      requires Shaped() && Heap(Slots()) && Linked(Slots(), ents.idx[..]) && timern > 0
      modifies this, timers, ents.idx
      ensures Shaped() && TakenOut(old(Slots()), old(ents.idx[..]), 0, Slots(), ents.idx[..])
    {
      ghost var h, x := Slots(), ents.idx[..];
      FilledSlots(h, 0);
      FilledLinks(h, x, 0);
      timern := timern - 1;
      if timern == 0 {
        assert timers[..timern] == Filled(h, 0);
        return;
      }
      FilledHole(h, 0);
      timers[0] := timers[timern];
      ents.idx[timers[0].e] := 0;
      assert timers[..timern] == Filled(h, 0);
      assert ents.idx[..] == FilledIdx(h, x, 0);
      SiftDown(timers, ents.idx, 0, timern, 0);
      FromZero(timers[..timern]);
      RemovedEntry(h, x, 0, timers[..timern], ents.idx[..]);
    }

    /** The pop of timer_softirq: the earliest timer leaves, still marked armed. */
    method PopMin() returns (s: Slot)
      requires Valid() && timern > 0
      modifies this, timers, ents.idx
      ensures Valid() && s == old(timers[0])
      ensures forall t :: t in old(Slots()) ==> s.deadline <= t.deadline
      ensures TakenOut(old(Slots()), old(ents.idx[..]), 0, Slots(), ents.idx[..])
    {
      ghost var h, x := Slots(), ents.idx[..];
      s := timers[0];
      forall t | t in h
        ensures s.deadline <= t.deadline
      {
        RootBelow(h, t);
      }
      DropRoot();
      RemovedOwned(id, h, x, ents.armed[..], ents.localk[..], s.e, Slots(), ents.idx[..]);
    }

    /** The copy loop of timer_merge; false is the BUG when the array fills up. */
    method Absorb(r: Timers) returns (ok: bool)
      requires Valid() && r.Valid() && r.ents == ents && r.id != id && r.timers != timers
      modifies this, timers, ents.idx, ents.localk
      ensures ok <==> old(timern) + old(r.timern) < MAX_TIMERS || old(r.timern) == 0
      ensures ok ==> Shaped() && Slots() == old(Slots()) + old(r.Slots())
      ensures ok ==> OwnedBy(id, Slots(), ents.idx[..], ents.armed[..], ents.localk[..])
      ensures ok ==> Joined(old(Slots()), old(r.Slots()), old(ents.idx[..]), Slots(), ents.idx[..])
      ensures ok ==> Handed(old(r.Slots()), old(ents.idx[..]), old(ents.localk[..]), ents.localk[..], id)
    {
      ghost var h, q, x, k := Slots(), r.Slots(), ents.idx[..], ents.localk[..];
      var n := r.timern;
      var i := 0;
      while i < n
        invariant i <= n && Shaped() && Slots() == h + q[..i]
        invariant Moving(id, r.id, h, q, x, k, i, ents.idx[..], ents.armed[..], ents.localk[..])
      {
        var s := r.timers[i];
        assert s == q[i];
        MovingStep(id, r.id, h, q, x, k, i, ents.idx[..], ents.armed[..], ents.localk[..]);
        if timern + 1 >= MAX_TIMERS {
          return false;
        }
        Append(s.e, s.deadline);
        TakeOneMore(h, q, i);
        i := i + 1;
      }
      assert q[..i] == q;
      MovingEnds(id, r.id, h, q, x, k, ents.idx[..], ents.armed[..], ents.localk[..]);
      return true;
    }

    /** The bottom-up pass of timer_merge: heap order from no order at all. */
    method Heapify()
      requires Shaped() && timern > 0 && Linked(Slots(), ents.idx[..])
      modifies timers, ents.idx
      ensures Heap(Slots()) && Reordered(old(Slots()), old(ents.idx[..]), Slots(), ents.idx[..])
    {
      var i: int := timern / D;
      LeavesOrdered(Slots());
      while i >= 0
        invariant -1 <= i < timern
        invariant HeapFrom(Slots(), i + 1) && Reordered(old(Slots()), old(ents.idx[..]), Slots(), ents.idx[..])
      {
        ghost var h1, x1 := Slots(), ents.idx[..];
        SiftDown(timers, ents.idx, i, timern, i);
        ReorderedTwice(old(Slots()), old(ents.idx[..]), h1, x1, Slots(), ents.idx[..]);
        i := i - 1;
      }
      FromZero(Slots());
    }

    /** timer_merge: this heap absorbs all timers of r. */
    method Merge(r: Timers) returns (ok: bool)
      requires Valid() && r.Valid() && r.ents == ents && r.id != id && r.timers != timers && r != this
      modifies this, timers, r, ents.idx, ents.localk
      ensures ok <==> old(timern) + old(r.timern) < MAX_TIMERS || old(r.timern) == 0
      ensures ok ==> Valid() && r.Valid() && r.Slots() == []
      ensures ok ==> Merged(old(Slots()), old(r.Slots()), old(ents.idx[..]), Slots(), ents.idx[..])
      ensures ok ==> Handed(old(r.Slots()), old(ents.idx[..]), old(ents.localk[..]), ents.localk[..], id)
    {
      ghost var h, q, x, k := Slots(), r.Slots(), ents.idx[..], ents.localk[..];
      if r.timern == 0 {
        JoinedNothing(h, q, x, k, id);
        return true;
      }
      ok := Absorb(r);
      if !ok {
        return;
      }
      ghost var h1, x1 := Slots(), ents.idx[..];
      r.timern := 0;
      Heapify();
      JoinedReordered(id, h, q, x, h1, x1, Slots(), ents.idx[..], ents.armed[..], ents.localk[..]);
    }
  }

  /** The heap's entries are now those of h and q; entries in neither keep their index. */
  ghost predicate Joined(h: seq<Slot>, q: seq<Slot>, x: seq<nat>, h': seq<Slot>, x': seq<nat>) {
    && |x'| == |x|
    && (forall y :: 0 <= y < |x| ==> (Holds(h', x', y) <==> Holds(h, x, y) || Holds(q, x, y)))
    && (forall y :: 0 <= y < |x| && !Holds(h, x, y) && !Holds(q, x, y) ==> x'[y] == x[y])
  }

  /** Exactly the entries of q changed hands. */
  ghost predicate Handed(q: seq<Slot>, x: seq<nat>, k: seq<nat>, k': seq<nat>, id: nat) {
    && |k'| == |k| == |x|
    && forall y :: 0 <= y < |x| ==> k'[y] == if Holds(q, x, y) then id else k[y]
  }

  /** The copy loop after i slots of q, whose kthread is rid. */
  ghost predicate Moving(id: nat, rid: nat, h: seq<Slot>, q: seq<Slot>, x: seq<nat>, k: seq<nat>, i: nat,
                         x': seq<nat>, a: seq<bool>, k': seq<nat>)
  {
    && i <= |q| && id != rid
    && OwnedBy(id, h, x, a, k) && OwnedBy(rid, q, x, a, k) && |x'| == |x| && |k'| == |k|
    && forall y :: 0 <= y < |x| ==>
      if Holds(q, x, y) && x[y] < i then x'[y] == |h| + x[y] && k'[y] == id else x'[y] == x[y] && k'[y] == k[y]
  }

  lemma MovingStep(id: nat, rid: nat, h: seq<Slot>, q: seq<Slot>, x: seq<nat>, k: seq<nat>, i: nat,
                   x': seq<nat>, a: seq<bool>, k': seq<nat>)
    requires Moving(id, rid, h, q, x, k, i, x', a, k') && i < |q|
    ensures q[i].e < |x|
    ensures Moving(id, rid, h, q, x, k, i + 1, x'[q[i].e := |h| + i], a, k'[q[i].e := id])
  {
  }

  lemma TakeOneMore(h: seq<Slot>, q: seq<Slot>, i: nat)
    requires i < |q|
    ensures h + q[..i] + [q[i]] == h + q[..i + 1]
  {
  }

  lemma MovingEnds(id: nat, rid: nat, h: seq<Slot>, q: seq<Slot>, x: seq<nat>, k: seq<nat>,
                   x': seq<nat>, a: seq<bool>, k': seq<nat>)
    requires Moving(id, rid, h, q, x, k, |q|, x', a, k')
    ensures OwnedBy(id, h + q, x', a, k')
    ensures Joined(h, q, x, h + q, x') && Handed(q, x, k, k', id)
  {
    forall y | 0 <= y < |x|
      ensures Holds(h + q, x', y) <==> Holds(h, x, y) || Holds(q, x, y)
    {
      if Holds(h, x, y) {
        assert k[y] == id;
      }
    }
    forall i | 0 <= i < |h + q|
      ensures (h + q)[i].e < |x'| && x'[(h + q)[i].e] == i
    {
      if i < |h| {
        assert Holds(h, x, h[i].e) && k[h[i].e] == id;
      } else {
        assert Holds(q, x, q[i - |h|].e);
      }
    }
  }

  lemma JoinedNothing(h: seq<Slot>, q: seq<Slot>, x: seq<nat>, k: seq<nat>, id: nat)
    requires q == [] && |k| == |x|
    ensures Joined(h, q, x, h, x) && Handed(q, x, k, k, id)
  {
  }

  lemma JoinedReordered(id: nat, h: seq<Slot>, q: seq<Slot>, x: seq<nat>, h1: seq<Slot>, x1: seq<nat>,
                        h2: seq<Slot>, x2: seq<nat>, a: seq<bool>, k: seq<nat>)
    requires h1 == h + q && OwnedBy(id, h1, x1, a, k) && Joined(h, q, x, h1, x1) && Reordered(h1, x1, h2, x2)
    ensures OwnedBy(id, h2, x2, a, k) && Joined(h, q, x, h2, x2)
    ensures multiset(h2) == multiset(h) + multiset(q)
  {
  }

  /** Slot s went into heap h, and everything else is as it was. */
  ghost predicate Started(h: seq<Slot>, x: seq<nat>, s: Slot, h': seq<Slot>, x': seq<nat>) {
    && Heap(h') && Linked(h', x') && multiset(h') == multiset(h) + multiset{s}
    && Added(h, x, h', x', s.e)
  }

  /** The slot at position i of heap h is gone, and everything else is as it was. */
  ghost predicate TakenOut(h: seq<Slot>, x: seq<nat>, i: nat, h': seq<Slot>, x': seq<nat>) {
    && i < |h| && Heap(h') && Linked(h', x') && multiset(h') == multiset(h) - multiset{h[i]}
    && Removed(h, x, h', x', h[i].e)
  }

  /** Heap h has taken over the slots of heap q. */
  ghost predicate Merged(h: seq<Slot>, q: seq<Slot>, x: seq<nat>, h': seq<Slot>, x': seq<nat>) {
    && Heap(h') && Linked(h', x') && multiset(h') == multiset(h) + multiset(q)
    && Joined(h, q, x, h', x')
  }

  /** The heap lost entry e and no other; e and the entries outside the heap keep their index. */
  ghost predicate Removed(h: seq<Slot>, x: seq<nat>, h': seq<Slot>, x': seq<nat>, e: nat) {
    && |x'| == |x|
    && (forall y :: 0 <= y < |x| ==> (Holds(h', x', y) <==> Holds(h, x, y) && y != e))
    && (forall y :: 0 <= y < |x| && (!Holds(h, x, y) || y == e) ==> x'[y] == x[y])
  }

  lemma RemovedEntry(h: seq<Slot>, x: seq<nat>, i: nat, h': seq<Slot>, x': seq<nat>)
    requires Linked(h, x) && i < |h|
    requires Reordered(Filled(h, i), FilledIdx(h, x, i), h', x')
    ensures Removed(h, x, h', x', h[i].e)
  {
    FilledLinks(h, x, i);
  }

  lemma RemovedOwned(id: nat, h: seq<Slot>, x: seq<nat>, a: seq<bool>, k: seq<nat>, e: nat, h': seq<Slot>, x': seq<nat>)
    requires OwnedBy(id, h, x, a, k) && Linked(h', x') && Removed(h, x, h', x', e)
    ensures OwnedBy(id, h', x', a, k)
  {
  }

  lemma CancelOwned(id: nat, h: seq<Slot>, x: seq<nat>, a: seq<bool>, k: seq<nat>, e: nat, h': seq<Slot>, x': seq<nat>)
    requires OwnedBy(id, h, x, a, k) && e < |x| && x[e] < |h|
    requires Linked(h', x') && Removed(h, x, h', x', h[x[e]].e)
    ensures OwnedBy(id, h', x', a[e := false], k)
  {
  }

  /** The heap gained entry e and no other; entries outside it keep their index. */
  ghost predicate Added(h: seq<Slot>, x: seq<nat>, h': seq<Slot>, x': seq<nat>, e: nat) {
    && |x'| == |x|
    && (forall y :: 0 <= y < |x| ==> (Holds(h', x', y) <==> Holds(h, x, y) || y == e))
    && (forall y :: 0 <= y < |x| && y != e && !Holds(h, x, y) ==> x'[y] == x[y])
  }

  lemma AddedEntry(h: seq<Slot>, x: seq<nat>, s: Slot, h': seq<Slot>, x': seq<nat>)
    requires Linked(h, x) && s.e < |x| && !Holds(h, x, s.e)
    requires Reordered(h + [s], x[s.e := |h|], h', x')
    ensures Added(h, x, h', x', s.e)
    ensures multiset(h') == multiset(h) + multiset{s}
  {
    AppendedLinks(h, x, s);
    assert multiset(h + [s]) == multiset(h) + multiset{s};
  }
}
