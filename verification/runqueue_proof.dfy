/** The ring is safe under every interleaving of the owner's unlocked push with a thief's locked copy. */
module RunQueueProof {
  import opened Wrapping
  import opened RunQueue

  /** The threads in the ring, oldest first. */
  ghost function Window(r: Ring): seq<nat>
    requires r.taken <= |r.log|
  {
    r.log[r.taken..]
  }

  ghost predicate CountsOk(r: Ring) {
    && |r.rq| == RQ_SIZE
    && r.base <= r.taken <= |r.log| <= r.taken + RQ_SIZE
    && r.head == (|r.log| - r.base) % WRAP
    && r.tail == (r.taken - r.base) % WRAP
  }

  /** Every thread of the window sits in its slot. */
  ghost predicate SlotsOk(r: Ring)
    requires CountsOk(r)
  {
    forall n :: r.taken <= n < |r.log| ==> r.rq[Slot(n - r.base)] == r.log[n]
  }

  ghost predicate OwnerOk(r: Ring)
    requires CountsOk(r)
  {
    match r.owner
    case Filling(th) => |r.log| - r.taken < RQ_SIZE
    case Filled(th) => |r.log| - r.taken < RQ_SIZE && r.rq[Slot(|r.log| - r.base)] == th
    case _ => true
  }

  ghost predicate ThiefOk(r: Ring)
    requires CountsOk(r)
  {
    match r.thief
    case Copying(avail, n, got) =>
      0 < avail <= |r.log| - r.taken && n == DivUp2(avail) && |got| <= n && got == r.log[r.taken..r.taken + |got|]
    case Committed(avail, n, got) =>
      0 < avail <= RQ_SIZE && n == DivUp2(avail) && |got| == n <= r.taken - r.base && got == r.log[r.taken - n..r.taken]
    case _ => true
  }

  /** The shadow counters equal the true numbers of entries and exits, except for the update under way. */
  ghost predicate ShadowOk(r: Ring) {
    && r.qHead == (|r.log| - (if r.owner.Uncounted? then 1 else 0)) % WRAP
    && r.qTail == (r.taken - (if r.thief.Committed? then r.thief.n else 0)) % WRAP
    && (r.owner.Uncounted? ==> |r.log| > 0)
    && (r.thief.Committed? ==> r.thief.n <= r.taken)
  }

  ghost predicate Inv(r: Ring) {
    CountsOk(r) && SlotsOk(r) && OwnerOk(r) && ThiefOk(r) && ShadowOk(r)
  }

  lemma Size32()
    ensures IsPow2(32)
  {
    assert IsPow2(2);
    assert IsPow2(4);
    assert IsPow2(8);
    assert IsPow2(16);
  }

  /** The slot index may be computed from the wrapped position. */
  lemma SlotWraps(n: nat)
    ensures Slot(n % WRAP) == Slot(n)
  {
    Size32();
    var j := SplitPosition(n, RQ_SIZE);
    EvenShift(n, n % WRAP, RQ_SIZE, j);
  }

  /** The slot of a position counted on from a wrapped one. */
  lemma SlotFrom(x: nat, i: nat)
    ensures Slot((x % WRAP + i) % WRAP) == Slot(x + i) == Slot(x % WRAP + i)
  {
    AddMod(x, i);
    SlotWraps(x + i);
    SlotWraps(x % WRAP + i);
  }

  /** Reading on from the tail gives the window in order. */
  lemma ReadSlot(r: Ring, i: nat)
    requires CountsOk(r) && SlotsOk(r) && i < |r.log| - r.taken
    ensures r.rq[Slot((r.tail + i) % WRAP)] == r.rq[Slot(r.tail + i)] == r.log[r.taken + i]
  {
    SlotFrom(r.taken - r.base, i);
    var n := r.taken + i;
    assert r.rq[Slot(n - r.base)] == r.log[n];
  }

  /** rq_head minus rq_tail, modulo 2^32, is the number of threads in the ring: between 0 and 32. */
  lemma LengthExact(r: Ring)
    requires CountsOk(r)
    ensures Sub32(r.head, r.tail) == |Window(r)| <= RQ_SIZE
    ensures r.head == r.tail <==> Window(r) == []
  {
    WrappedDistance(|r.log| - r.base, r.taken - r.base);
  }

  /** The slot the owner fills is none of the slots a thief may be copying. */
  lemma FillMissesWindow(r: Ring, n: nat)
    requires CountsOk(r) && |r.log| - r.taken < RQ_SIZE && r.taken <= n < |r.log|
    ensures Slot(r.head) != Slot(n - r.base)
    ensures Slot(r.head) == Slot(|r.log| - r.base)
  {
    SlotWraps(|r.log| - r.base);
    SameSlot(n - r.base, |r.log| - r.base, RQ_SIZE);
  }

  lemma Advance(r: Ring, k: nat, x: nat)
    requires r.base <= x
    ensures ((x - r.base) % WRAP + k) % WRAP == (x + k - r.base) % WRAP
  {
    AddMod(x - r.base, k);
  }

  lemma AddMod(x: nat, k: nat)
    ensures (x % WRAP + k) % WRAP == (x + k) % WRAP
  {
    var q := x / WRAP;
    assert x + k == q * WRAP + (x % WRAP + k);
    ShiftDivMod(x % WRAP + k, WRAP, q);
  }

  lemma StartKeeps(r: Ring, th: nat)
    requires Inv(r) && r.owner.Free?
    ensures Inv(StartPush(r, th))
    ensures StartPush(r, th).owner.Spilling? ==> Sub32(r.head, r.tail) == RQ_SIZE
  {
    LengthExact(r);
  }

  lemma FillKeeps(r: Ring)
    requires Inv(r) && r.owner.Filling?
    ensures Inv(Fill(r))
  {
    FillSlots(r);
  }

  lemma FillSlots(r: Ring)
    requires CountsOk(r) && SlotsOk(r) && r.owner.Filling? && |r.log| - r.taken < RQ_SIZE
    ensures CountsOk(Fill(r)) && SlotsOk(Fill(r)) && Fill(r).rq[Slot(|r.log| - r.base)] == r.owner.th
  {
    SlotWraps(|r.log| - r.base);
    var r' := Fill(r);
    forall n | r.taken <= n < |r.log|
      ensures r'.rq[Slot(n - r.base)] == r.log[n]
    {
      FillMissesWindow(r, n);
    }
  }

  lemma PublishCounts(r: Ring)
    requires CountsOk(r) && r.owner.Filled? && |r.log| - r.taken < RQ_SIZE
    ensures CountsOk(PublishHead(r))
  {
    Advance(r, 1, |r.log|);
  }

  lemma PublishKeeps(r: Ring)
    requires Inv(r) && r.owner.Filled?
    ensures Inv(PublishHead(r)) && Window(PublishHead(r)) == Window(r) + [r.owner.th]
  {
    PublishCounts(r);
    PublishSlots(r);
    PublishThief(r);
  }

  lemma PublishSlots(r: Ring)
    requires CountsOk(r) && SlotsOk(r) && r.owner.Filled? && r.rq[Slot(|r.log| - r.base)] == r.owner.th
    requires CountsOk(PublishHead(r))
    ensures SlotsOk(PublishHead(r))
  {
  }

  lemma PublishThief(r: Ring)
    requires CountsOk(r) && ThiefOk(r) && r.owner.Filled? && CountsOk(PublishHead(r))
    ensures ThiefOk(PublishHead(r))
  {
    var r' := PublishHead(r);
    match r.thief
    case Copying(avail, n, got) => assert r'.log[r.taken..r.taken + |got|] == r.log[r.taken..r.taken + |got|];
    case Committed(avail, n, got) => assert r'.log[r.taken - n..r.taken] == r.log[r.taken - n..r.taken];
    case _ =>
  }

  lemma CountKeeps(r: Ring)
    requires Inv(r) && r.owner.Uncounted?
    ensures Inv(CountPush(r))
  {
    AddMod(|r.log| - 1, 1);
  }

  lemma PopCounts(r: Ring)
    requires CountsOk(r) && r.taken < |r.log|
    ensures CountsOk(Pop(r))
  {
    Advance(r, 1, r.taken);
  }

  lemma PopKeeps(r: Ring)
    requires Inv(r) && r.owner.Free? && r.thief.Away? && r.head != r.tail
    ensures Inv(Pop(r))
    ensures Window(r) == [r.rq[Slot(r.tail)]] + Window(Pop(r))
  {
    LengthExact(r);
    ReadSlot(r, 0);
    PopCounts(r);
    AddMod(r.taken, 1);
  }

  lemma ResetKeeps(r: Ring)
    requires Inv(r) && r.owner.Free? && r.thief.Away? && r.head == r.tail
    ensures Inv(Reset(r)) && Window(Reset(r)) == Window(r) == []
  {
    LengthExact(r);
  }

  lemma DrainOneKeeps(r: Ring)
    requires Inv(r) && r.owner.Free? && r.thief.Away? && r.overflow != [] && Sub32(r.head, r.tail) < RQ_SIZE
    ensures Inv(DrainOne(r))
    ensures Window(DrainOne(r)) == Window(r) + [r.overflow[0]]
  {
    LengthExact(r);
    SlotWraps(|r.log| - r.base);
    Advance(r, 1, |r.log|);
    AddMod(|r.log|, 1);
    var r' := DrainOne(r);
    forall n | r.taken <= n < |r'.log|
      ensures r'.rq[Slot(n - r.base)] == r'.log[n]
    {
      if n < |r.log| {
        FillMissesWindow(r, n);
      }
    }
  }

  /** Draining moves the front of the overflow list to the back of the ring, as far as there is room. */
  lemma {:induction false} DrainKeeps(r: Ring)
    requires Inv(r) && r.owner.Free? && r.thief.Away?
    ensures Inv(Drain(r)) && Drain(r).owner.Free? && Drain(r).thief.Away?
    ensures Window(Drain(r)) + Drain(r).overflow == Window(r) + r.overflow
    ensures Drain(r).overflow == [] || |Window(Drain(r))| == RQ_SIZE
    decreases |r.overflow|
  {
    LengthExact(r);
    if Sub32(r.head, r.tail) < RQ_SIZE && r.overflow != [] {
      DrainOneKeeps(r);
      DrainKeeps(DrainOne(r));
      assert Window(r) + r.overflow == Window(r) + [r.overflow[0]] + r.overflow[1..];
    }
  }

  lemma AcceptCounts(r: Ring, loot: seq<nat>)
    requires CountsOk(r) && r.head == r.tail == 0 && |loot| <= RQ_SIZE / 2
    ensures |r.log| == r.taken && CountsOk(Accept(r, loot))
  {
    LengthExact(r);
    Advance(r, |loot|, |r.log|);
  }

  lemma AcceptSlot(r: Ring, loot: seq<nat>, n: nat)
    requires CountsOk(r) && r.tail == 0 && |r.log| == r.taken && |loot| <= RQ_SIZE / 2
    requires r.taken <= n < r.taken + |loot|
    ensures Accept(r, loot).rq[Slot(n - r.base)] == (r.log + loot)[n]
  {
    ZeroShift(r.taken - r.base, n - r.taken);
  }

  lemma AcceptKeeps(r: Ring, loot: seq<nat>)
    requires Inv(r) && r.owner.Free? && r.thief.Away? && r.head == r.tail == 0 && |loot| <= RQ_SIZE / 2
    ensures Inv(Accept(r, loot)) && Window(r) == [] && Window(Accept(r, loot)) == loot
  {
    AcceptCounts(r, loot);
    AddMod(|r.log|, |loot|);
    forall n | r.taken <= n < |r.log| + |loot|
      ensures Accept(r, loot).rq[Slot(n - r.base)] == (r.log + loot)[n]
    {
      AcceptSlot(r, loot, n);
    }
  }

  /** A position that reads zero modulo 2^32 starts at slot zero. */
  lemma ZeroShift(x: nat, k: nat)
    requires x % WRAP == 0 && k < RQ_SIZE
    ensures Slot(x + k) == k
  {
    SlotWraps(x);
    AddSlot(x, k);
  }

  lemma AddSlot(x: nat, k: nat)
    ensures Slot(x + k) == Slot(Slot(x) + k)
  {
    assert x + k == x / RQ_SIZE * RQ_SIZE + (Slot(x) + k);
    ShiftDivMod(Slot(x) + k, RQ_SIZE, x / RQ_SIZE);
  }

  /** While the positions have not wrapped between tail and head, join drains the whole ring in order. */
  lemma JoinTakesWindow(r: Ring)
    requires CountsOk(r) && SlotsOk(r) && r.tail <= r.head
    ensures JoinTakes(r) == Window(r)
  {
    LengthExact(r);
    var ths := JoinTakes(r);
    forall i | 0 <= i < |ths|
      ensures ths[i] == Window(r)[i]
    {
      ReadSlot(r, i);
    }
  }

  /** Joining a kthread collects every thread of its ring exactly when its head has not wrapped past its tail. */
  lemma JoinExact(r: Ring)
    requires CountsOk(r) && SlotsOk(r)
    ensures JoinTakes(r) == Window(r) <==> r.tail <= r.head
  {
    LengthExact(r);
    if r.tail <= r.head {
      JoinTakesWindow(r);
    }
  }

  lemma JoinKeeps(r: Ring)
    requires Inv(r) && r.owner.Free? && r.thief.Away? && r.tail <= r.head
    ensures Inv(Join(r)) && JoinTakes(r) == Window(r) && Window(Join(r)) == []
  {
    JoinTakesWindow(r);
    AddMod(r.taken, |JoinTakes(r)|);
  }

  lemma LoadKeeps(r: Ring)
    requires Inv(r) && r.thief.Holding?
    ensures Inv(LoadHead(r))
  {
    LengthExact(r);
  }

  lemma CopyReads(r: Ring)
    requires CountsOk(r) && SlotsOk(r) && r.thief.Copying? && |r.thief.got| < |r.log| - r.taken
    requires r.thief.got == r.log[r.taken..r.taken + |r.thief.got|]
    ensures CopyOne(r).thief.got == r.log[r.taken..r.taken + |r.thief.got| + 1]
  {
    ReadSlot(r, |r.thief.got|);
    SnocSlice(r.log, r.taken, |r.thief.got|);
  }

  lemma CopyKeeps(r: Ring)
    requires Inv(r) && r.thief.Copying? && |r.thief.got| < r.thief.n
    ensures Inv(CopyOne(r))
  {
    CopyReads(r);
  }

  lemma SnocSlice(log: seq<nat>, from: nat, i: nat)
    requires from + i < |log|
    ensures log[from..from + i] + [log[from + i]] == log[from..from + i + 1]
  {
  }

  lemma CommitCounts(r: Ring)
    requires CountsOk(r) && r.thief.Copying? && r.thief.n <= |r.log| - r.taken
    ensures CountsOk(CommitTail(r))
  {
    Advance(r, r.thief.n, r.taken);
  }

  /** A committed steal took the oldest half, rounded up, of what the thief saw, in order; the rest stays in order. */
  lemma CommitKeeps(r: Ring)
    requires Inv(r) && r.thief.Copying? && |r.thief.got| == r.thief.n
    ensures Inv(CommitTail(r))
    ensures r.thief.n <= |Window(r)|
    ensures r.thief.got == Window(r)[..r.thief.n] && Window(CommitTail(r)) == Window(r)[r.thief.n..]
    ensures r.thief.avail <= 2 * r.thief.n <= r.thief.avail + 1 && r.thief.avail <= |Window(r)|
  {
    CommitCounts(r);
  }

  lemma FinishKeeps(r: Ring)
    requires Inv(r) && r.thief.Committed?
    ensures Inv(FinishSteal(r))
  {
    AddMod(r.taken - r.thief.n, r.thief.n);
  }

  /** Every enabled step keeps the invariant. */
  lemma StepKeeps(r: Ring, a: Step)
    requires Inv(r) && Enabled(r, a)
    ensures Inv(Apply(r, a))
  {
    match a
    case DoStart(th) => StartKeeps(r, th);
    case DoSpill =>
    case DoFill => FillKeeps(r);
    case DoPublish => PublishKeeps(r);
    case DoCount => CountKeeps(r);
    case DoPop => PopKeeps(r);
    case DoReset => ResetKeeps(r);
    case DoDrain => DrainKeeps(r);
    case DoAccept(loot) => AcceptKeeps(r, loot);
    case DoThrow(th) =>
    case DoJoin => JoinKeeps(r);
    case DoLock =>
    case DoLoad => LoadKeeps(r);
    case DoCopy => CopyKeeps(r);
    case DoCommit => CommitKeeps(r);
    case DoFinish => FinishKeeps(r);
    case DoOverflow =>
  }
}
