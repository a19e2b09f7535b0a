/** Whole runs of one ring: first in, first out; nothing lost or duplicated; published counters exact. */
module RunQueueRuns {
  import opened Collections
  import opened Wrapping
  import opened RunQueue
  import opened RunQueueProof

  function Initial(rq: seq<nat>): Ring {
    Ring(rq, 0, 0, [], 0, 0, Free, Away, [], 0, 0)
  }

  ghost predicate Run(rs: seq<Ring>, steps: seq<Step>) {
    && |rs| == |steps| + 1
    && |rs[0].rq| == RQ_SIZE && rs[0] == Initial(rs[0].rq)
    && forall i :: 0 <= i < |steps| ==>
      Enabled(rs[i], steps[i]) && (|rs[i].rq| == RQ_SIZE ==> rs[i + 1] == Apply(rs[i], steps[i]))
  }

  /** The threads a step puts at the back of the ring. */
  ghost function Entering(r: Ring, a: Step): seq<nat>
    requires Inv(r) && Enabled(r, a)
  {
    match a
    case DoPublish => [r.owner.th]
    case DoAccept(loot) => loot
    case DoDrain =>
      DrainShrinks(r);
      r.overflow[..|r.overflow| - |Drain(r).overflow|]
    case _ => []
  }

  /** The threads a step takes out of the ring: popped to run, stolen, or collected by a join. */
  ghost function Leaving(r: Ring, a: Step): seq<nat>
    requires Inv(r) && Enabled(r, a)
  {
    match a
    case DoPop => [r.rq[Slot(r.tail)]]
    case DoCommit => r.thief.got
    case DoJoin => JoinTakes(r)
    case _ => []
  }

  lemma {:induction false} DrainShrinks(r: Ring)
    requires |r.rq| == RQ_SIZE
    ensures |Drain(r).overflow| <= |r.overflow|
    ensures Drain(r).overflow == r.overflow[|r.overflow| - |Drain(r).overflow|..]
    decreases |r.overflow|
  {
    if Sub32(r.head, r.tail) < RQ_SIZE && r.overflow != [] {
      DrainShrinks(DrainOne(r));
    }
  }

  lemma DrainIsQueue(r: Ring)
    requires Inv(r) && Enabled(r, DoDrain)
    ensures Inv(Drain(r)) && Window(Drain(r)) == Window(r) + Entering(r, DoDrain)
  {
    DrainKeeps(r);
    DrainShrinks(r);
    Cancel(Window(Drain(r)), Window(r), r.overflow, |r.overflow| - |Drain(r).overflow|);
  }

  predicate LeavesQueue(a: Step) {
    a.DoStart? || a.DoSpill? || a.DoFill? || a.DoCount? || a.DoThrow? || a.DoLock? || a.DoLoad? || a.DoCopy?
    || a.DoFinish? || a.DoOverflow?
  }

  lemma StillQueue(r: Ring, a: Step)
    requires Inv(r) && Enabled(r, a) && LeavesQueue(a)
    ensures Inv(Apply(r, a)) && Window(Apply(r, a)) == Window(r)
    ensures Leaving(r, a) == [] && Entering(r, a) == []
  {
    StepKeeps(r, a);
  }

  lemma MoveQueue(r: Ring, a: Step)
    requires Inv(r) && Enabled(r, a) && !LeavesQueue(a)
    ensures Inv(Apply(r, a))
    ensures Leaving(r, a) + Window(Apply(r, a)) == Window(r) + Entering(r, a)
  {
    match a
    case DoPop => PopKeeps(r);
    case DoReset => ResetKeeps(r);
    case DoDrain => DrainIsQueue(r);
    case DoAccept(loot) => AcceptKeeps(r, loot);
    case DoJoin => JoinKeeps(r);
    case DoCommit => CommitKeeps(r);
    case DoPublish => PublishKeeps(r);
  }

  /** One step of the queue: what leaves comes off the front, what enters goes to the back. */
  lemma StepIsQueue(r: Ring, a: Step)
    requires Inv(r) && Enabled(r, a)
    ensures Inv(Apply(r, a))
    ensures Leaving(r, a) + Window(Apply(r, a)) == Window(r) + Entering(r, a)
  {
    if LeavesQueue(a) {
      StillQueue(r, a);
    } else {
      MoveQueue(r, a);
    }
  }

  lemma Cancel(a: seq<nat>, b: seq<nat>, c: seq<nat>, k: nat)
    requires k <= |c| && a + c[k..] == b + c
    ensures a == b + c[..k]
  {
    assert b + c == (b + c[..k]) + c[k..];
    assert |a| == |b + c[..k]|;
    assert a == (a + c[k..])[..|a|];
    assert b + c[..k] == (b + c[..k] + c[k..])[..|a|];
  }

  ghost predicate Sound(rs: seq<Ring>) {
    forall i :: 0 <= i < |rs| ==> Inv(rs[i])
  }

  lemma {:induction false} RunSound(rs: seq<Ring>, steps: seq<Step>)
    requires Run(rs, steps)
    ensures Sound(rs)
    decreases |steps|
  {
    if |steps| > 0 {
      var n := |steps| - 1;
      RunSound(rs[..|rs| - 1], steps[..n]);
      assert Inv(rs[..|rs| - 1][n]);
      StepKeeps(rs[n], steps[n]);
    }
  }

  ghost function Entered(rs: seq<Ring>, steps: seq<Step>): seq<nat>
    requires Run(rs, steps) && Sound(rs)
    decreases |steps|
  {
    if |steps| == 0 then [] else
      var n := |steps| - 1;
      Entered(rs[..|rs| - 1], steps[..n]) + Entering(rs[n], steps[n])
  }

  ghost function Left(rs: seq<Ring>, steps: seq<Step>): seq<nat>
    requires Run(rs, steps) && Sound(rs)
    decreases |steps|
  {
    if |steps| == 0 then [] else
      var n := |steps| - 1;
      Left(rs[..|rs| - 1], steps[..n]) + Leaving(rs[n], steps[n])
  }

  /**
   * In every run, whatever the interleaving of pushes, pops, steals, drains, resets and joins, the threads that
   * left the ring followed by those still in it are exactly the threads that entered it, in order.
   */
  lemma {:induction false} RunIsFifo(rs: seq<Ring>, steps: seq<Step>)
    requires Run(rs, steps)
    ensures Sound(rs)
    ensures Left(rs, steps) + Window(rs[|steps|]) == Entered(rs, steps)
    ensures Sub32(rs[|steps|].head, rs[|steps|].tail) == |Window(rs[|steps|])| <= RQ_SIZE
    decreases |steps|
  {
    RunSound(rs, steps);
    LengthExact(rs[|steps|]);
    if |steps| > 0 {
      var n := |steps| - 1;
      var before := rs[..|rs| - 1];
      RunIsFifo(before, steps[..n]);
      StepIsQueue(rs[n], steps[n]);
      Chain(Left(before, steps[..n]), Window(rs[n]), Entered(before, steps[..n]),
            Leaving(rs[n], steps[n]), Window(rs[n + 1]), Entering(rs[n], steps[n]));
    }
  }

  lemma Chain(left: seq<nat>, w: seq<nat>, entered: seq<nat>, l: seq<nat>, w': seq<nat>, e: seq<nat>)
    requires left + w == entered && l + w' == w + e
    ensures (left + l) + w' == entered + e
  {
    assert (left + l) + w' == left + (l + w');
    assert left + (w + e) == (left + w) + e;
  }

  /* Conservation: a step moves threads, it neither loses nor copies one. */

  /** How often the ring's structure holds a thread: window, overflow list, the owner's unfinished push. */
  ghost function Held(r: Ring, x: nat): nat
    requires r.taken <= |r.log|
  {
    Count(Window(r), x) + Count(r.overflow, x) + Count(InHand(r.owner), x)
  }

  function InHand(o: Owner): seq<nat> {
    match o
    case Spilling(th) => [th]
    case Filling(th) => [th]
    case Filled(th) => [th]
    case _ => []
  }

  function Given(a: Step): seq<nat> {
    match a
    case DoStart(th) => [th]
    case DoAccept(loot) => loot
    case DoThrow(th) => [th]
    case _ => []
  }

  ghost function Taken(r: Ring, a: Step): seq<nat>
    requires Inv(r) && Enabled(r, a)
  {
    match a
    case DoJoin => Leaving(r, a) + r.overflow
    case DoOverflow => if r.overflow == [] then [] else [r.overflow[0]]
    case _ => Leaving(r, a)
  }

  /** The window's part of the balance. */
  lemma WindowBalance(r: Ring, a: Step, x: nat)
    requires Inv(r) && Enabled(r, a)
    ensures Inv(Apply(r, a))
    ensures Count(Leaving(r, a), x) + Count(Window(Apply(r, a)), x) == Count(Window(r), x) + Count(Entering(r, a), x)
  {
    StepIsQueue(r, a);
    CountAppend(Leaving(r, a), Window(Apply(r, a)), x);
    CountAppend(Window(r), Entering(r, a), x);
  }

  lemma DrainStepBalance(r: Ring, x: nat)
    requires Inv(r) && Enabled(r, DoDrain)
    ensures Inv(Drain(r)) && Held(Drain(r), x) == Held(r, x)
  {
    WindowBalance(r, DoDrain, x);
    DrainKeeps(r);
    DrainShrinks(r);
    CountSplit(r.overflow, |r.overflow| - |Drain(r).overflow|, x);
  }

  lemma OwnerBalance(r: Ring, a: Step, x: nat)
    requires Inv(r) && Enabled(r, a) && (a.DoStart? || a.DoSpill? || a.DoFill? || a.DoPublish? || a.DoCount?)
    ensures Inv(Apply(r, a))
    ensures Held(Apply(r, a), x) + Count(Taken(r, a), x) == Held(r, x) + Count(Given(a), x)
  {
    match a
    case DoStart(th) => StartKeeps(r, th);
    case DoSpill => CountAppend(r.overflow, [r.owner.th], x);
    case DoFill => FillKeeps(r);
    case DoPublish => WindowBalance(r, a, x);
    case DoCount => CountKeeps(r);
  }

  lemma OverflowBalance(r: Ring, a: Step, x: nat)
    requires Inv(r) && Enabled(r, a) && (a.DoJoin? || a.DoOverflow? || a.DoThrow?)
    ensures Inv(Apply(r, a))
    ensures Held(Apply(r, a), x) + Count(Taken(r, a), x) == Held(r, x) + Count(Given(a), x)
  {
    match a
    case DoThrow(th) => CountAppend(r.overflow, [th], x);
    case DoJoin =>
      WindowBalance(r, a, x);
      CountAppend(JoinTakes(r), r.overflow, x);
    case DoOverflow =>
  }

  /** Every step conserves threads: what the ring holds changes by exactly what was given and taken. */
  lemma Balance(r: Ring, a: Step, x: nat)
    requires Inv(r) && Enabled(r, a)
    ensures Inv(Apply(r, a))
    ensures Held(Apply(r, a), x) + Count(Taken(r, a), x) == Held(r, x) + Count(Given(a), x)
  {
    match a
    case DoDrain => DrainStepBalance(r, x);
    case DoStart(_) => OwnerBalance(r, a, x);
    case DoSpill => OwnerBalance(r, a, x);
    case DoFill => OwnerBalance(r, a, x);
    case DoPublish => OwnerBalance(r, a, x);
    case DoCount => OwnerBalance(r, a, x);
    case DoThrow(_) => OverflowBalance(r, a, x);
    case DoJoin => OverflowBalance(r, a, x);
    case DoOverflow => OverflowBalance(r, a, x);
    case _ => WindowBalance(r, a, x);
  }

  /* The overflow list. */

  /** The threads a step puts on the overflow list. */
  ghost function Spilled(r: Ring, a: Step): seq<nat>
    requires Enabled(r, a)
  {
    match a
    case DoSpill => [r.owner.th]
    case DoThrow(th) => [th]
    case _ => []
  }

  /** The threads it takes off the list: drained into the ring, stolen one by one, or collected by a join. */
  ghost function Unspilled(r: Ring, a: Step): seq<nat>
    requires Inv(r) && Enabled(r, a)
  {
    match a
    case DoDrain => Entering(r, a)
    case DoOverflow => Taken(r, a)
    case DoJoin => r.overflow
    case _ => []
  }

  /** The overflow list is a queue too: what enters goes to its back, what leaves comes off its front. */
  lemma OverflowIsQueue(r: Ring, a: Step)
    requires Inv(r) && Enabled(r, a)
    ensures Unspilled(r, a) + Apply(r, a).overflow == r.overflow + Spilled(r, a)
    ensures a.DoOverflow? ==> |Unspilled(r, a)| == if r.overflow == [] then 0 else 1
  {
    if a.DoDrain? {
      DrainSuffix(r);
    }
  }

  lemma {:induction false} DrainSuffix(r: Ring)
    requires |r.rq| == RQ_SIZE
    ensures |Drain(r).overflow| <= |r.overflow|
    ensures Drain(r).overflow == r.overflow[|r.overflow| - |Drain(r).overflow|..]
    decreases |r.overflow|
  {
    if Sub32(r.head, r.tail) < RQ_SIZE && r.overflow != [] {
      DrainSuffix(DrainOne(r));
    }
  }

  /* The published shadow counters (q_ptrs) and the congestion test. */

  /** Between operations the shadow difference equals the ring's own difference, whatever resets happened. */
  lemma ShadowDifference(r: Ring)
    requires Inv(r) && !r.owner.Uncounted? && !r.thief.Committed?
    ensures Sub32(r.qHead, r.qTail) == Sub32(r.head, r.tail) == |Window(r)|
  {
    LengthExact(r);
    WrappedDistance(|r.log|, r.taken);
  }

  lemma {:induction false} HistoryGrows(rs: seq<Ring>, steps: seq<Step>, i: nat, j: nat)
    requires Run(rs, steps) && i <= j < |rs|
    ensures Sound(rs) && |rs[i].log| <= |rs[j].log| && rs[i].taken <= rs[j].taken
    ensures rs[i].log <= rs[j].log
    decreases j
  {
    RunSound(rs, steps);
    if i < j {
      HistoryGrows(rs, steps, i, j - 1);
      StepGrows(rs[j - 1], steps[j - 1]);
      Prefixes(rs[i].log, rs[j - 1].log, rs[j].log);
    }
  }

  lemma Prefixes(a: seq<nat>, b: seq<nat>, c: seq<nat>)
    requires a <= b <= c
    ensures a <= c
  {
  }

  lemma StepGrows(r: Ring, a: Step)
    requires Inv(r) && Enabled(r, a)
    ensures r.log <= Apply(r, a).log && r.taken <= Apply(r, a).taken
  {
    if a.DoDrain? {
      DrainGrows(r);
    }
  }

  lemma {:induction false} DrainGrows(r: Ring)
    requires |r.rq| == RQ_SIZE
    ensures r.log <= Drain(r).log && r.taken == Drain(r).taken
    decreases |r.overflow|
  {
    if Sub32(r.head, r.tail) < RQ_SIZE && r.overflow != [] {
      DrainGrows(DrainOne(r));
      Prefixes(r.log, DrainOne(r).log, Drain(r).log);
    }
  }

  /** The n-th thread to enter the ring is still in it. */
  ghost predicate Queued(r: Ring, n: nat) {
    r.taken <= n < |r.log|
  }

  /* What the counters say at any moment: a push counts when its last store is made, a steal when its last store is. */

  ghost function CountedHead(r: Ring): int {
    |r.log| - (if r.owner.Uncounted? then 1 else 0)
  }

  ghost function CountedTail(r: Ring): int {
    r.taken - (if r.thief.Committed? then r.thief.n else 0)
  }

  /** The counters say that the n-th thread to enter the ring is queued. */
  ghost predicate Counted(r: Ring, n: int) {
    CountedTail(r) <= n < CountedHead(r)
  }

  /** The counters miss at most the thread just pushed, and include at most those a thief has just taken. */
  lemma CountedExact(r: Ring, n: nat)
    requires Inv(r)
    ensures Queued(r, n) && !(r.owner.Uncounted? && n == |r.log| - 1) ==> Counted(r, n)
    ensures Counted(r, n) ==> Queued(r, n) || (r.thief.Committed? && r.taken - r.thief.n <= n < r.taken)
  {
  }

  lemma CountsStep(r: Ring, a: Step)
    requires Inv(r) && Enabled(r, a)
    ensures CountedHead(r) <= CountedHead(Apply(r, a)) && CountedTail(r) <= CountedTail(Apply(r, a))
  {
    StepGrows(r, a);
    if a.DoDrain? {
      DrainKeepsSides(r);
    }
  }

  lemma {:induction false} DrainKeepsSides(r: Ring)
    requires |r.rq| == RQ_SIZE
    ensures Drain(r).owner == r.owner && Drain(r).thief == r.thief
    decreases |r.overflow|
  {
    if Sub32(r.head, r.tail) < RQ_SIZE && r.overflow != [] {
      DrainKeepsSides(DrainOne(r));
    }
  }

  lemma {:induction false} CountsGrow(rs: seq<Ring>, steps: seq<Step>, i: nat, j: nat)
    requires Run(rs, steps) && i <= j < |rs|
    ensures Sound(rs) && CountedHead(rs[i]) <= CountedHead(rs[j]) && CountedTail(rs[i]) <= CountedTail(rs[j])
    decreases j
  {
    RunSound(rs, steps);
    if i < j {
      CountsGrow(rs, steps, i, j - 1);
      CountsStep(rs[j - 1], steps[j - 1]);
    }
  }

  lemma CountsClose(r: Ring)
    requires Inv(r)
    ensures 0 <= CountedTail(r) && 0 <= CountedHead(r) && CountedHead(r) - CountedTail(r) <= 2 * RQ_SIZE
    ensures r.qHead == CountedHead(r) % WRAP && r.qTail == CountedTail(r) % WRAP
  {
  }

  /**
   * The congestion test of the core allocator, whenever the polls come: the head saved at poll i against the tail read at
   * poll j says that some thread counted as queued at poll i is still counted as queued at poll j, as long as fewer than
   * 2^31 younger threads have left.
   */
  lemma CongestionExact(rs: seq<Ring>, steps: seq<Step>, i: nat, j: nat)
    requires Run(rs, steps) && i <= j < |rs|
    requires CountedTail(rs[j]) - CountedHead(rs[i]) < WRAP / 2
    ensures Sound(rs)
    ensures WrapsLt(rs[j].qTail, rs[i].qHead) <==> exists n :: Counted(rs[i], n) && Counted(rs[j], n)
  {
    CountsGrow(rs, steps, i, j);
    CountsClose(rs[i]);
    CountsClose(rs[j]);
    WrapsLtExact(CountedTail(rs[j]), CountedHead(rs[i]));
    if CountedTail(rs[j]) < CountedHead(rs[i]) {
      assert Counted(rs[i], CountedTail(rs[j])) && Counted(rs[j], CountedTail(rs[j]));
    }
  }

  /** Between operations, counted as queued is queued. */
  lemma CongestionBetween(rs: seq<Ring>, steps: seq<Step>, i: nat, j: nat)
    requires Run(rs, steps) && i <= j < |rs|
    requires !rs[i].owner.Uncounted? && !rs[j].thief.Committed?
    requires rs[j].taken - |rs[i].log| < WRAP / 2
    ensures Sound(rs)
    ensures WrapsLt(rs[j].qTail, rs[i].qHead) <==> exists n :: Queued(rs[i], n) && Queued(rs[j], n)
  {
    HistoryGrows(rs, steps, i, j);
    WrapsLtExact(rs[j].taken, |rs[i].log|);
    if rs[j].taken < |rs[i].log| {
      assert Queued(rs[i], rs[j].taken) && Queued(rs[j], rs[j].taken);
    }
  }

  /* A join that loses a thread, and the run that leads to it. */

  ghost predicate Reachable(r: Ring) {
    exists rs, steps :: Run(rs, steps) && rs[|steps|] == r
  }

  lemma Extend(r: Ring, a: Step)
    requires Reachable(r) && |r.rq| == RQ_SIZE && Enabled(r, a)
    ensures Reachable(Apply(r, a))
  {
    var rs, steps :| Run(rs, steps) && rs[|steps|] == r;
    var rs', steps' := rs + [Apply(r, a)], steps + [a];
    forall i | 0 <= i < |steps'|
      ensures Enabled(rs'[i], steps'[i]) && (|rs'[i].rq| == RQ_SIZE ==> rs'[i + 1] == Apply(rs'[i], steps'[i]))
    {
      if i < |steps| {
        assert rs'[i] == rs[i] && rs'[i + 1] == rs[i + 1] && steps'[i] == steps[i];
      }
    }
    assert Run(rs', steps') && rs'[|steps'|] == Apply(r, a);
  }

  /** w threads are queued, k have left, and the positions were never reset. */
  ghost predicate Counting(r: Ring, k: nat, w: nat) {
    Inv(r) && r.owner.Free? && r.thief.Away? && r.base == 0 && r.taken == k && |r.log| == k + w
  }

  lemma PushNext(r: Ring, k: nat, w: nat, th: nat) returns (r': Ring)
    requires Reachable(r) && Counting(r, k, w) && w < RQ_SIZE
    ensures Reachable(r') && Counting(r', k, w + 1)
  {
    LengthExact(r);
    StepKeeps(r, DoStart(th));
    Extend(r, DoStart(th));
    var r1 := StartPush(r, th);
    StepKeeps(r1, DoFill);
    Extend(r1, DoFill);
    var r2 := Fill(r1);
    StepKeeps(r2, DoPublish);
    Extend(r2, DoPublish);
    var r3 := PublishHead(r2);
    StepKeeps(r3, DoCount);
    Extend(r3, DoCount);
    r' := CountPush(r3);
  }

  lemma PopFirst(r: Ring, k: nat, w: nat) returns (r': Ring)
    requires Reachable(r) && Counting(r, k, w) && w > 0
    ensures Reachable(r') && Counting(r', k + 1, w - 1)
  {
    LengthExact(r);
    StepKeeps(r, DoPop);
    Extend(r, DoPop);
    r' := Pop(r);
  }

  /** Pushing and popping in turn, with a thread always queued, moves the positions on as far as one likes. */
  lemma {:induction false} CountTo(k: nat, th: nat) returns (r: Ring)
    ensures Reachable(r) && Counting(r, k, 1)
  {
    if k == 0 {
      r := Initial(seq(RQ_SIZE, _ => 0));
      assert Run([r], []) && [r][0] == r;
      r := PushNext(r, 0, 0, th);
    } else {
      r := CountTo(k - 1, th);
      r := PushNext(r, k - 1, 1, th);
      r := PopFirst(r, k - 1, 2);
    }
  }

  /** A run after which one thread is queued, at position 2^32 - 1, and a join collects nothing. */
  lemma JoinLosesThread(th: nat) returns (r: Ring)
    ensures Reachable(r) && Inv(r) && r.owner.Free? && r.thief.Away? && |Window(r)| == 1 && JoinTakes(r) == []
  {
    r := CountTo(WRAP - 1, th);
    Unique(WRAP, WRAP, 1, 0);
  }
}
