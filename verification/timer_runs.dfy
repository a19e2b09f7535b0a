/**
 * Runs of timer operations over the heaps of all kthreads (runtime/timer.c). Firing does not clear `armed`; these
 * lemmas say exactly what that costs.
 */
module TimerRuns {
  import opened TimerHeap
  import opened Timer
  import opened TimerFiring

  /**
   * The heaps by kthread and the fields of every entry. `fired` are the entries fired and neither initialised nor
   * cancelled since; `dropped` those taken out of their heap by the cancellation of another entry.
   */
  datatype World = World(heaps: seq<seq<Slot>>, idx: seq<nat>, armed: seq<bool>, localk: seq<nat>,
                         fired: set<nat>, dropped: set<nat>)

  datatype Call =
    | InitCall(e: nat)
    | StartCall(j: nat, e: nat, deadline: nat)
    | CancelCall(e: nat)
    | FireCall(j: nat)
    | MergeCall(j: nat, r: nat)

  ghost predicate Shape(w: World) {
    |w.idx| == |w.armed| == |w.localk|
  }

  /** Every heap but kthread j's is the same. */
  ghost predicate OtherHeaps(w: World, w': World, j: nat) {
    && j < |w.heaps| == |w'.heaps|
    && forall i :: 0 <= i < |w.heaps| && i != j ==> w'.heaps[i] == w.heaps[i]
  }

  /** timer_init, on an entry that is in no heap. */
  ghost predicate InitStep(w: World, e: nat, w': World) {
    && e < |w.idx| && Shape(w) && !Queued(w, e)
    && w' == w.(armed := w.armed[e := false], fired := w.fired - {e}, dropped := w.dropped - {e})
  }

  /** timer_start_locked on kthread j, short of its two BUGs. */
  ghost predicate StartStep(w: World, j: nat, e: nat, deadline: nat, w': World) {
    && e < |w.idx| && Shape(w) && OtherHeaps(w, w', j) && !w.armed[e] && |w.heaps[j]| + 1 < MAX_TIMERS
    && Started(w.heaps[j], w.idx, Slot(deadline, e), w'.heaps[j], w'.idx)
    && w'.armed == w.armed[e := true] && w'.localk == w.localk[e := j]
    && w'.fired == w.fired && w'.dropped == w.dropped
  }

  /** The pop of timer_softirq on kthread j. */
  ghost predicate FireStep(w: World, j: nat, w': World) {
    && Shape(w) && OtherHeaps(w, w', j) && |w.heaps[j]| > 0
    && TakenOut(w.heaps[j], w.idx, 0, w'.heaps[j], w'.idx)
    && w'.armed == w.armed && w'.localk == w.localk
    && w'.fired == w.fired + {w.heaps[j][0].e} && w'.dropped == w.dropped
  }

  /** The slot that timer_cancel of an armed entry takes out is inside its heap. */
  ghost predicate InHeap(w: World, e: nat) {
    e < |w.idx| && Shape(w) && w.localk[e] < |w.heaps| && w.idx[e] < |w.heaps[w.localk[e]]|
  }

  /** timer_cancel of an armed entry: whatever stands at its index is taken out. */
  ghost predicate ArmedCancel(w: World, e: nat, w': World)
    requires InHeap(w, e)
  {
    var j := w.localk[e];
    var v := w.heaps[j][w.idx[e]].e;
    && OtherHeaps(w, w', j) && TakenOut(w.heaps[j], w.idx, w.idx[e], w'.heaps[j], w'.idx)
    && w'.armed == w.armed[e := false] && w'.localk == w.localk
    && w'.fired == w.fired - {e} && w'.dropped == w.dropped - {e} + (if v == e then {} else {v})
  }

  /** timer_cancel of an entry whose `localk` names a kthread; timer_init does not set that field. */
  ghost predicate CancelStep(w: World, e: nat, w': World) {
    && e < |w.idx| && Shape(w) && w.localk[e] < |w.heaps|
    && if w.armed[e] then InHeap(w, e) && ArmedCancel(w, e, w') else w' == w
  }

  /** timer_merge: kthread j takes over the timers of kthread r. */
  ghost predicate MergeStep(w: World, j: nat, r: nat, w': World) {
    && j < |w.heaps| == |w'.heaps| && r < |w.heaps| && j != r && Shape(w)
    && (forall i :: 0 <= i < |w.heaps| && i != j && i != r ==> w'.heaps[i] == w.heaps[i])
    && w'.heaps[r] == []
    && Merged(w.heaps[j], w.heaps[r], w.idx, w'.heaps[j], w'.idx)
    && Handed(w.heaps[r], w.idx, w.localk, w'.localk, j)
    && w'.armed == w.armed && w'.fired == w.fired && w'.dropped == w.dropped
  }

  ghost predicate Step(w: World, c: Call, w': World) {
    match c
    case InitCall(e) => InitStep(w, e, w')
    case StartCall(j, e, deadline) => StartStep(w, j, e, deadline, w')
    case CancelCall(e) => CancelStep(w, e, w')
    case FireCall(j) => FireStep(w, j, w')
    case MergeCall(j, r) => MergeStep(w, j, r, w')
  }

  /* The invariant. */

  /** The entry stands in the heap of the kthread it names. */
  ghost predicate Queued(w: World, e: nat) {
    e < |w.idx| && Shape(w) && w.localk[e] < |w.heaps| && Holds(w.heaps[w.localk[e]], w.idx, e)
  }

  ghost predicate HeapsOk(w: World) {
    Shape(w) && forall j :: 0 <= j < |w.heaps| ==>
      Heap(w.heaps[j]) && OwnedBy(j, w.heaps[j], w.idx, w.armed, w.localk)
  }

  ghost predicate ArmedOk(w: World) {
    Shape(w) && forall e :: 0 <= e < |w.idx| && w.armed[e] ==>
      w.localk[e] < |w.heaps| && (Queued(w, e) || e in w.fired || e in w.dropped)
  }

  /** An entry that has left its heap with `armed` still set did so from the root, and keeps the index 0. */
  ghost predicate GoneOk(w: World) {
    && Shape(w) && w.fired !! w.dropped
    && forall e :: e in w.fired || e in w.dropped ==> e < |w.idx| && w.armed[e] && w.idx[e] == 0 && !Queued(w, e)
  }

  ghost predicate Good(w: World) {
    HeapsOk(w) && ArmedOk(w) && GoneOk(w)
  }

  /** Before the first start. */
  ghost predicate Fresh(w: World) {
    && Shape(w) && (forall j :: 0 <= j < |w.heaps| ==> w.heaps[j] == [])
    && (forall e :: 0 <= e < |w.armed| ==> !w.armed[e]) && w.fired == {} && w.dropped == {}
  }

  lemma FreshGood(w: World)
    requires Fresh(w)
    ensures Good(w)
  {
  }

  /* Each step keeps it. */

  lemma StartHeaps(w: World, j: nat, e: nat, deadline: nat, w': World)
    requires HeapsOk(w) && StartStep(w, j, e, deadline, w')
    ensures HeapsOk(w')
  {
    forall i | 0 <= i < |w'.heaps|
      ensures Heap(w'.heaps[i]) && OwnedBy(i, w'.heaps[i], w'.idx, w'.armed, w'.localk)
    {
      if i != j {
        StartKeepsOther(j, w.heaps[j], w.idx, w.armed, w.localk, e, w'.heaps[j], w'.idx, i, w.heaps[i]);
      }
    }
  }

  lemma TakenHeaps(w: World, j: nat, i: nat, w': World)
    requires HeapsOk(w) && OtherHeaps(w, w', j) && TakenOut(w.heaps[j], w.idx, i, w'.heaps[j], w'.idx)
    requires w'.armed == w.armed && w'.localk == w.localk
    ensures HeapsOk(w')
  {
    forall o | 0 <= o < |w'.heaps|
      ensures Heap(w'.heaps[o]) && OwnedBy(o, w'.heaps[o], w'.idx, w'.armed, w'.localk)
    {
      if o != j {
        RemoveKeepsOther(j, w.heaps[j], w.idx, w.armed, w.localk, w.heaps[j][i].e, w'.heaps[j], w'.idx, o, w.heaps[o]);
      } else {
        RemovedOwned(j, w.heaps[j], w.idx, w.armed, w.localk, w.heaps[j][i].e, w'.heaps[j], w'.idx);
      }
    }
  }

  /** Disarming an entry that is in no heap. */
  lemma DisarmHeaps(w: World, e: nat)
    requires HeapsOk(w) && e < |w.idx| && !Queued(w, e)
    ensures HeapsOk(w.(armed := w.armed[e := false]))
  {
    forall o | 0 <= o < |w.heaps|
      ensures OwnedBy(o, w.heaps[o], w.idx, w.armed[e := false], w.localk)
    {
      assert OwnedBy(o, w.heaps[o], w.idx, w.armed, w.localk);
    }
  }

  lemma MergeHeaps(w: World, j: nat, r: nat, w': World)
    requires HeapsOk(w) && MergeStep(w, j, r, w')
    ensures HeapsOk(w')
  {
    forall o | 0 <= o < |w'.heaps|
      ensures Heap(w'.heaps[o]) && OwnedBy(o, w'.heaps[o], w'.idx, w'.armed, w'.localk)
    {
      if o != j && o != r {
        MergeKeepsOther(j, r, w.heaps[j], w.heaps[r], w.idx, w.armed, w.localk,
                        w'.heaps[j], w'.idx, w'.localk, o, w.heaps[o]);
      }
    }
  }

  lemma StartKeeps(w: World, j: nat, e: nat, deadline: nat, w': World)
    requires Good(w) && StartStep(w, j, e, deadline, w')
    ensures Good(w')
  {
    StartHeaps(w, j, e, deadline, w');
    forall y | 0 <= y < |w.idx|
      ensures Queued(w', y) <==> Queued(w, y) || y == e
    {
      StartQueued(w, j, e, deadline, w', y);
    }
  }

  /** Exactly the started entry is new in a heap. */
  lemma StartQueued(w: World, j: nat, e: nat, deadline: nat, w': World, y: nat)
    requires HeapsOk(w) && StartStep(w, j, e, deadline, w') && y < |w.idx|
    ensures Queued(w', y) <==> Queued(w, y) || y == e
    ensures y != e && !Queued(w, y) && w.armed[y] ==> w'.idx[y] == w.idx[y]
  {
    assert OwnedBy(j, w.heaps[j], w.idx, w.armed, w.localk);
    var o := w.localk[y];
    if y != e && o < |w.heaps| && o != j {
      assert OwnedBy(o, w.heaps[o], w.idx, w.armed, w.localk);
      assert !Holds(w.heaps[j], w.idx, y);
    }
  }

  /** Exactly the entry that was taken out is missing. */
  lemma TakenQueued(w: World, j: nat, i: nat, w': World, y: nat)
    requires HeapsOk(w) && OtherHeaps(w, w', j) && TakenOut(w.heaps[j], w.idx, i, w'.heaps[j], w'.idx)
    requires Shape(w') && w'.localk == w.localk && y < |w.idx|
    ensures Queued(w', y) <==> Queued(w, y) && y != w.heaps[j][i].e
    ensures !Queued(w, y) || y == w.heaps[j][i].e ==> w'.idx[y] == w.idx[y]
    ensures Queued(w, w.heaps[j][i].e) && w.idx[w.heaps[j][i].e] == i
  {
    var h, v, o := w.heaps[j], w.heaps[j][i].e, w.localk[y];
    assert OwnedBy(j, h, w.idx, w.armed, w.localk);
    assert Holds(h, w.idx, v) && w.localk[v] == j;
    if o != j {
      assert !Holds(h, w.idx, y);
    }
  }

  lemma FireKeeps(w: World, j: nat, w': World)
    requires Good(w) && FireStep(w, j, w')
    ensures Good(w')
  {
    TakenHeaps(w, j, 0, w');
    forall y | 0 <= y < |w.idx|
      ensures Queued(w', y) <==> Queued(w, y) && y != w.heaps[j][0].e
      ensures !Queued(w, y) || y == w.heaps[j][0].e ==> w'.idx[y] == w.idx[y]
    {
      TakenQueued(w, j, 0, w', y);
    }
    TakenQueued(w, j, 0, w', w.heaps[j][0].e);
  }

  /** The entry at a gone entry's index is the root, an entry of the heap. */
  lemma CancelTarget(w: World, e: nat)
    requires Good(w) && InHeap(w, e) && w.armed[e]
    ensures var v := w.heaps[w.localk[e]][w.idx[e]].e;
            && v < |w.idx| && Queued(w, v) && w.armed[v] && v !in w.fired && v !in w.dropped
            && (v == e <==> e !in w.fired && e !in w.dropped)
            && (v != e ==> w.idx[e] == 0 && w.idx[v] == 0)
  {
    var j := w.localk[e];
    assert OwnedBy(j, w.heaps[j], w.idx, w.armed, w.localk);
    var v := w.heaps[j][w.idx[e]].e;
    assert Holds(w.heaps[j], w.idx, v);
  }

  lemma CancelHeaps(w: World, e: nat, w': World)
    requires Good(w) && InHeap(w, e) && w.armed[e] && ArmedCancel(w, e, w')
    ensures HeapsOk(w')
  {
    var m := w'.(armed := w.armed);
    TakenHeaps(w, w.localk[e], w.idx[e], m);
    TakenQueued(w, w.localk[e], w.idx[e], m, e);
    CancelTarget(w, e);
    DisarmHeaps(m, e);
  }

  lemma CancelKeeps(w: World, e: nat, w': World)
    requires Good(w) && CancelStep(w, e, w')
    ensures Good(w')
  {
    if w.armed[e] {
      CancelHeaps(w, e, w');
      CancelTarget(w, e);
      CancelArmed(w, e, w');
    }
  }

  lemma CancelArmed(w: World, e: nat, w': World)
    requires Good(w) && InHeap(w, e) && w.armed[e] && ArmedCancel(w, e, w')
    ensures ArmedOk(w') && GoneOk(w')
  {
    var v := w.heaps[w.localk[e]][w.idx[e]].e;
    CancelTarget(w, e);
    forall y | 0 <= y < |w.idx|
      ensures Queued(w', y) <==> Queued(w, y) && y != v
      ensures !Queued(w, y) || y == v ==> w'.idx[y] == w.idx[y]
    {
      TakenQueued(w, w.localk[e], w.idx[e], w', y);
    }
  }

  lemma MergeQueued(w: World, j: nat, r: nat, w': World, y: nat)
    requires HeapsOk(w) && MergeStep(w, j, r, w') && y < |w.idx|
    ensures Queued(w', y) <==> Queued(w, y)
    ensures !Queued(w, y) ==> w'.idx[y] == w.idx[y] && w'.localk[y] == w.localk[y]
    ensures w.localk[y] < |w.heaps| ==> w'.localk[y] < |w.heaps|
  {
    assert OwnedBy(j, w.heaps[j], w.idx, w.armed, w.localk);
    assert OwnedBy(r, w.heaps[r], w.idx, w.armed, w.localk);
    var o := w.localk[y];
    if o != j {
      assert !Holds(w.heaps[j], w.idx, y);
    }
    if o != r {
      assert !Holds(w.heaps[r], w.idx, y);
    }
  }

  lemma MergeKeeps(w: World, j: nat, r: nat, w': World)
    requires Good(w) && MergeStep(w, j, r, w')
    ensures Good(w')
  {
    MergeHeaps(w, j, r, w');
    forall y | 0 <= y < |w.idx|
      ensures Queued(w', y) <==> Queued(w, y)
      ensures !Queued(w, y) ==> w'.idx[y] == w.idx[y] && w'.localk[y] == w.localk[y]
      ensures w.localk[y] < |w.heaps| ==> w'.localk[y] < |w.heaps|
    {
      MergeQueued(w, j, r, w', y);
    }
  }

  lemma StepKeeps(w: World, c: Call, w': World)
    requires Good(w) && Step(w, c, w')
    ensures Good(w')
  {
    match c
    case InitCall(e) => DisarmHeaps(w, e);
    case StartCall(j, e, deadline) => StartKeeps(w, j, e, deadline, w');
    case CancelCall(e) => CancelKeeps(w, e, w');
    case FireCall(j) => FireKeeps(w, j, w');
    case MergeCall(j, r) => MergeKeeps(w, j, r, w');
  }

  /* What the flag means, and when a cancel is right. */

  /** `armed` is set exactly for the entries in their heap, those that have fired, and those that were dropped. */
  lemma ArmedExact(w: World, e: nat)
    requires Good(w) && e < |w.idx|
    ensures w.armed[e] <==> Queued(w, e) || e in w.fired || e in w.dropped
    ensures Queued(w, e) ==> e !in w.fired && e !in w.dropped
  {
    if Queued(w, e) {
      assert OwnedBy(w.localk[e], w.heaps[w.localk[e]], w.idx, w.armed, w.localk);
    }
  }

  /** The cancel took out a slot of entry e. */
  ghost predicate TookOwn(h: seq<Slot>, h': seq<Slot>, e: nat) {
    exists d :: Slot(d, e) in h && multiset(h') == multiset(h) - multiset{Slot(d, e)}
  }

  /** Cancelling an armed entry takes out its own slot if and only if the entry has neither fired nor been dropped. */
  lemma CancelExact(w: World, e: nat, w': World)
    requires Good(w) && e < |w.idx| && w.armed[e] && CancelStep(w, e, w')
    ensures TookOwn(w.heaps[w.localk[e]], w'.heaps[w.localk[e]], e) <==> e !in w.fired && e !in w.dropped
  {
    var h, i := w.heaps[w.localk[e]], w.idx[e];
    CancelTarget(w, e);
    assert OwnedBy(w.localk[e], h, w.idx, w.armed, w.localk);
    if h[i].e == e {
      assert h[i] == Slot(h[i].deadline, e);
    } else {
      forall d
        ensures Slot(d, e) !in h
      {
      }
    }
  }

  /** It goes outside the heap if and only if the entry has fired or been dropped and the heap is empty. */
  lemma BoundsExact(w: World, e: nat)
    requires Good(w) && e < |w.idx| && w.armed[e]
    ensures !InHeap(w, e) <==> (e in w.fired || e in w.dropped) && w.heaps[w.localk[e]] == []
  {
    ArmedExact(w, e);
  }

  /** Otherwise the earliest timer of that heap is lost: in no heap, though neither fired nor cancelled. */
  lemma StaleCancelDrops(w: World, e: nat, w': World)
    requires Good(w) && e < |w.idx| && w.armed[e] && CancelStep(w, e, w') && (e in w.fired || e in w.dropped)
    ensures var root := w.heaps[w.localk[e]][0];
            && root.e in w'.dropped && root.e < |w'.idx| && !Queued(w', root.e) && w'.armed[root.e]
            && forall t :: t in w.heaps[w.localk[e]] ==> root.deadline <= t.deadline
  {
    var h := w.heaps[w.localk[e]];
    CancelTarget(w, e);
    TakenQueued(w, w.localk[e], w.idx[e], w', h[0].e);
    forall t | t in h
      ensures h[0].deadline <= t.deadline
    {
      RootBelow(h, t);
    }
  }

  /* Runs. */

  ghost predicate Run(ws: seq<World>, cs: seq<Call>) {
    && |ws| == |cs| + 1 && Fresh(ws[0])
    && forall n :: 0 <= n < |cs| ==> Step(ws[n], cs[n], ws[n + 1])
  }

  lemma {:induction false} RunGood(ws: seq<World>, cs: seq<Call>, n: nat)
    requires Run(ws, cs) && n < |ws|
    ensures Good(ws[n])
  {
    if n == 0 {
      FreshGood(ws[0]);
    } else {
      RunGood(ws, cs, n - 1);
      StepKeeps(ws[n - 1], cs[n - 1], ws[n]);
    }
  }

  /** No call among the first n cancels a timer that has fired. */
  ghost predicate NoStaleCancel(ws: seq<World>, cs: seq<Call>, n: nat)
    requires |ws| == |cs| + 1 && n <= |cs|
  {
    forall m :: 0 <= m < n && cs[m].CancelCall? ==> cs[m].e !in ws[m].fired
  }

  ghost predicate NoneDropped(ws: seq<World>, n: nat)
    requires n < |ws|
  {
    forall m :: 0 <= m <= n ==> ws[m].dropped == {}
  }

  lemma StepDrops(w: World, c: Call, w': World)
    requires Good(w) && Step(w, c, w') && w.dropped == {}
    ensures w'.dropped == {} <==> !(c.CancelCall? && c.e in w.fired)
  {
    if c.CancelCall? && w.armed[c.e] {
      CancelTarget(w, c.e);
    }
  }

  /** A run loses no timer if and only if nobody in it cancels a timer that has fired since it was started. */
  lemma {:induction false} RunDropsExact(ws: seq<World>, cs: seq<Call>, n: nat)
    requires Run(ws, cs) && n <= |cs|
    ensures NoneDropped(ws, n) <==> NoStaleCancel(ws, cs, n)
  {
    if n > 0 {
      RunDropsExact(ws, cs, n - 1);
      RunGood(ws, cs, n - 1);
      if NoneDropped(ws, n - 1) {
        StepDrops(ws[n - 1], cs[n - 1], ws[n]);
      }
      assert NoneDropped(ws, n) <==> NoneDropped(ws, n - 1) && ws[n].dropped == {};
    }
  }

  /** In every run `armed` is set exactly for entries in their heap, fired or dropped; in such a run none is dropped. */
  lemma RunArmedExact(ws: seq<World>, cs: seq<Call>, n: nat, e: nat)
    requires Run(ws, cs) && n <= |cs| && e < |ws[n].armed|
    ensures ws[n].armed[e] <==> Queued(ws[n], e) || e in ws[n].fired || e in ws[n].dropped
    ensures NoStaleCancel(ws, cs, n) ==> (ws[n].armed[e] <==> Queued(ws[n], e) || e in ws[n].fired)
  {
    RunGood(ws, cs, n);
    ArmedExact(ws[n], e);
    RunDropsExact(ws, cs, n);
    assert NoneDropped(ws, n) ==> ws[n].dropped == {};
  }

  /**
   * Until then, a cancel of an armed entry takes out its own slot if and only if the entry has not fired since its start.
   */
  lemma RunCancelExact(ws: seq<World>, cs: seq<Call>, n: nat, e: nat, w': World)
    requires Run(ws, cs) && n <= |cs| && NoStaleCancel(ws, cs, n)
    requires e < |ws[n].armed| && ws[n].armed[e] && CancelStep(ws[n], e, w')
    ensures TookOwn(ws[n].heaps[ws[n].localk[e]], w'.heaps[ws[n].localk[e]], e) <==> e !in ws[n].fired
    ensures Queued(ws[n], e) <==> e !in ws[n].fired
  {
    RunGood(ws, cs, n);
    RunDropsExact(ws, cs, n);
    assert ws[n].dropped == {};
    CancelExact(ws[n], e, w');
    ArmedExact(ws[n], e);
  }

  /* A stale index at the heap's end. */

  /** One kthread and one entry, which is started and fires; cancelling it then leaves the heap. */
  lemma FiredAlone(deadline: nat)
    ensures var h, gone := Slot(deadline, 0), {0};
            var w0 := World([[]], [0], [false], [0], {}, {});
            var w1 := World([[h]], [0], [true], [0], {}, {});
            var w2 := World([[]], [0], [true], [0], gone, {});
            && Run([w0, w1, w2], [StartCall(0, 0, deadline), FireCall(0)])
            && w2.armed[0] && w2.idx[0] == |w2.heaps[0]| && !InHeap(w2, 0)
  {
  }

  /* The heaps in memory take these steps. */

  ghost predicate Shows(w: World, ks: seq<Timers>, ents: Entries)
    reads ks, set k | k in ks :: k.timers, ents.idx, ents.armed, ents.localk
  {
    && ents.Shaped() && |w.heaps| == |ks|
    && w.idx == ents.idx[..] && w.armed == ents.armed[..] && w.localk == ents.localk[..]
    && (forall i :: 0 <= i < |ks| ==>
          ks[i].id == i && ks[i].ents == ents && ks[i].Shaped() && ks[i].Slots() == w.heaps[i])
    && (forall i, j :: 0 <= i < j < |ks| ==> ks[i] != ks[j] && ks[i].timers != ks[j].timers)
  }

  lemma ShowsValid(w: World, ks: seq<Timers>, ents: Entries, j: nat)
    requires Shows(w, ks, ents) && HeapsOk(w) && j < |ks|
    ensures ks[j].Valid() && ks[j].Slots() == w.heaps[j]
  {
    assert OwnedBy(j, w.heaps[j], w.idx, w.armed, w.localk);
  }

  method StartOn(ks: seq<Timers>, ents: Entries, j: nat, e: nat, deadline: nat, ghost w: World)
    returns (ok: bool, ghost w': World)
    requires Shows(w, ks, ents) && HeapsOk(w) && j < |ks| && e < ents.idx.Length
    modifies ks[j], ks[j].timers, ents.idx, ents.armed, ents.localk
    ensures ok <==> !w.armed[e] && |w.heaps[j]| + 1 < MAX_TIMERS
    ensures Shows(w', ks, ents) && if ok then StartStep(w, j, e, deadline, w') else w' == w
  {
    ShowsValid(w, ks, ents, j);
    ok := ks[j].Start(e, deadline);
    w' := w;
    if ok {
      w' := World(w.heaps[j := ks[j].Slots()], ents.idx[..], ents.armed[..], ents.localk[..], w.fired, w.dropped);
    }
  }

  method FireOn(ks: seq<Timers>, ents: Entries, j: nat, ghost w: World) returns (s: Slot, ghost w': World)
    requires Shows(w, ks, ents) && HeapsOk(w) && j < |ks| && ks[j].timern > 0
    modifies ks[j], ks[j].timers, ents.idx
    ensures s == w.heaps[j][0] && Shows(w', ks, ents) && FireStep(w, j, w')
  {
    ShowsValid(w, ks, ents, j);
    s := ks[j].PopMin();
    w' := World(w.heaps[j := ks[j].Slots()], ents.idx[..], w.armed, w.localk, w.fired + {s.e}, w.dropped);
  }

  ghost function AfterCancel(w: World, e: nat, h: seq<Slot>, idx: seq<nat>): World
    requires InHeap(w, e)
  {
    var j := w.localk[e];
    var v := w.heaps[j][w.idx[e]].e;
    World(w.heaps[j := h], idx, w.armed[e := false], w.localk, w.fired - {e},
          w.dropped - {e} + (if v == e then {} else {v}))
  }

  lemma AfterCancelStep(w: World, e: nat, h: seq<Slot>, idx: seq<nat>)
    requires InHeap(w, e) && w.armed[e] && TakenOut(w.heaps[w.localk[e]], w.idx, w.idx[e], h, idx)
    ensures CancelStep(w, e, AfterCancel(w, e, h, idx))
  {
  }

  method CancelOn(ks: seq<Timers>, ents: Entries, e: nat, ghost w: World) returns (r: CancelResult, ghost w': World)
    requires Shows(w, ks, ents) && HeapsOk(w) && e < ents.idx.Length && ents.localk[e] < |ks|
    modifies ks[ents.localk[e]], ks[ents.localk[e]].timers, ents.idx, ents.armed
    ensures r.NotArmed? <==> !w.armed[e]
    ensures r.OutOfHeap? <==> w.armed[e] && !InHeap(w, e)
    ensures Shows(w', ks, ents) && if r.OutOfHeap? then w' == w else CancelStep(w, e, w')
  {
    var j := ents.localk[e];
    ShowsValid(w, ks, ents, j);
    r := ks[j].Cancel(e);
    assert forall i :: 0 <= i < |ks| && i != j ==> ks[i].Shaped() && ks[i].Slots() == w.heaps[i];
    w' := w;
    if r.Cancelled? {
      w' := AfterCancel(w, e, ks[j].Slots(), ents.idx[..]);
      AfterCancelStep(w, e, ks[j].Slots(), ents.idx[..]);
    }
  }

  method MergeOn(ks: seq<Timers>, ents: Entries, j: nat, r: nat, ghost w: World) returns (ok: bool, ghost w': World)
    requires Shows(w, ks, ents) && HeapsOk(w) && j < |ks| && r < |ks| && j != r
    modifies ks[j], ks[j].timers, ks[r], ents.idx, ents.localk
    ensures ok <==> |w.heaps[j]| + |w.heaps[r]| < MAX_TIMERS || w.heaps[r] == []
    ensures ok ==> Shows(w', ks, ents) && MergeStep(w, j, r, w')
  {
    ShowsValid(w, ks, ents, j);
    ShowsValid(w, ks, ents, r);
    ok := ks[j].Merge(ks[r]);
    w' := w;
    if ok {
      w' := World(w.heaps[j := ks[j].Slots()][r := []], ents.idx[..], w.armed, ents.localk[..], w.fired, w.dropped);
    }
  }
}
