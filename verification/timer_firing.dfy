/** What operations on one kthread's timers leave alone, and what the armed flag does not tell (runtime/timer.c). */
module TimerFiring {
  import opened TimerHeap
  import opened TimerSift
  import opened Timer

  /* Other kthreads' heaps: an operation on one heap never disturbs another. */

  lemma StartKeepsOther(id: nat, h: seq<Slot>, x: seq<nat>, a: seq<bool>, k: seq<nat>, e: nat, h': seq<Slot>, x': seq<nat>,
                        other: nat, o: seq<Slot>)
    requires OwnedBy(id, h, x, a, k) && OwnedBy(other, o, x, a, k) && id != other && e < |x| && !a[e]
    requires Added(h, x, h', x', e)
    ensures OwnedBy(other, o, x', a[e := true], k[e := id])
  {
    OtherLinks(id, h, x, a, k, x', other, o);
  }

  /** The other heap's entries are none of this heap's, and none of them is unarmed. */
  lemma OtherLinks(id: nat, h: seq<Slot>, x: seq<nat>, a: seq<bool>, k: seq<nat>, x': seq<nat>, other: nat, o: seq<Slot>)
    requires OwnedBy(id, h, x, a, k) && OwnedBy(other, o, x, a, k) && id != other && |x'| == |x|
    requires forall y :: 0 <= y < |x| && a[y] && !Holds(h, x, y) ==> x'[y] == x[y]
    ensures Linked(o, x')
    ensures forall y :: 0 <= y < |x| && Holds(o, x, y) ==> x'[y] == x[y] && a[y] && !Holds(h, x, y)
  {
    forall i | 0 <= i < |o|
      ensures x'[o[i].e] == i
    {
      assert Holds(o, x, o[i].e);
    }
  }

  lemma RemoveKeepsOther(id: nat, h: seq<Slot>, x: seq<nat>, a: seq<bool>, k: seq<nat>, e: nat, h': seq<Slot>, x': seq<nat>,
                         other: nat, o: seq<Slot>)
    requires OwnedBy(id, h, x, a, k) && OwnedBy(other, o, x, a, k) && id != other
    requires Removed(h, x, h', x', e)
    ensures OwnedBy(other, o, x', a, k)
  {
    OtherLinks(id, h, x, a, k, x', other, o);
    forall y | 0 <= y < |x| && Holds(o, x', y)
      ensures a[y] && k[y] == other
    {
      assert o[x'[y]].e == y && x[y] == x'[y];
    }
  }

  lemma MergeKeepsOther(id: nat, rid: nat, h: seq<Slot>, q: seq<Slot>, x: seq<nat>, a: seq<bool>, k: seq<nat>,
                        h': seq<Slot>, x': seq<nat>, k': seq<nat>, other: nat, o: seq<Slot>)
    requires OwnedBy(id, h, x, a, k) && OwnedBy(rid, q, x, a, k) && OwnedBy(other, o, x, a, k)
    requires id != other && rid != other && Joined(h, q, x, h', x') && Handed(q, x, k, k', id)
    ensures OwnedBy(other, o, x', a, k')
  {
    forall i | 0 <= i < |o|
      ensures x'[o[i].e] == i
    {
      assert Holds(o, x, o[i].e) && k[o[i].e] == other;
    }
    forall y | 0 <= y < |x| && Holds(o, x', y)
      ensures a[y] && k'[y] == other
    {
      assert o[x'[y]].e == y && Holds(o, x, y) && k[y] == other;
    }
  }

  /* The armed flag. */

  /**
   * Firing does not clear `armed`: of two timers due one after the other, cancelling the first after it has fired
   * takes the second out of the heap.
   */
  lemma FiredCancelDropsOther(h: seq<Slot>, x: seq<nat>)
    requires Linked(h, x) && Heap(h) && |h| == 2
    ensures var popped, y := Filled(h, 0), FilledIdx(h, x, 0);
            Linked(popped, y) && !Holds(popped, y, h[0].e) && y[h[0].e] < |popped|
            && Filled(popped, y[h[0].e]) == [] && popped == [h[1]]
  {
    FilledLinks(h, x, 0);
    assert h[0].e != h[1].e;
  }
}
