/**
 * A kthread's targeted queue (runtime/sched.c): seven slots, filled by other kthreads under the kthread's lock
 * and emptied by the kthread itself, without the lock on the fast path.
 */
module Targeted {
  import opened Collections
  import opened Wrapping

  const RRQ_SIZE: nat := 7

  /** Where a thrower is inside thread_throw. */
  datatype Thrower = Idle | Tested(th: nat) | Stored(th: nat)

  datatype Target = Target(
    slots: seq<nat>,
    head: nat,
    tail: nat,
    thrower: Thrower,
    log: seq<nat>,
    taken: nat,
    base: nat)

  function Slot7(pos: nat): nat {
    pos % RRQ_SIZE
  }

  /** The slot of the n-th thread ever pushed, computed from its wrapped position. */
  ghost function SlotOf(t: Target, n: nat): nat {
    Slot7((n - t.base) % WRAP)
  }

  predicate Full(t: Target) {
    Sub32(t.head, t.tail) >= RRQ_SIZE
  }

  function Test(t: Target, th: nat): Target {
    t.(thrower := Tested(th))
  }

  function Store(t: Target): Target
    requires |t.slots| == RRQ_SIZE && t.thrower.Tested?
  {
    t.(thrower := Stored(t.thrower.th), slots := t.slots[Slot7(t.head) := t.thrower.th])
  }

  function Publish(t: Target): Target
    requires t.thrower.Stored?
  {
    t.(thrower := Idle, head := Inc32(t.head), log := t.log + [t.thrower.th])
  }

  function Next(t: Target): nat
    requires |t.slots| == RRQ_SIZE
  {
    t.slots[Slot7(t.tail)]
  }

  function Pop(t: Target): Target {
    t.(tail := Inc32(t.tail), taken := t.taken + 1)
  }

  function Reset(t: Target): Target {
    t.(head := 0, tail := 0, base := |t.log|)
  }

  datatype Step = DoTest(th: nat) | DoStore | DoPublish | DoPop | DoReset

  /**
   * Seven does not divide 2^32, so when the head wraps the next slots are ones still in use: with four or more
   * threads queued, each of the first four positions after a wrap shares its slot with an unread one (StoreExact).
   */
  predicate Clash(t: Target) {
    t.head < 4 && Sub32(t.head, t.tail) >= 4
  }

  /** The owner's reset takes the lock, so no thrower is under way; its fast-path pop does not. */
  predicate Enabled(t: Target, a: Step) {
    match a
    case DoTest(th) => t.thrower.Idle? && !Full(t)
    case DoStore => t.thrower.Tested? && !Clash(t)
    case DoPublish => t.thrower.Stored?
    case DoPop => t.head != t.tail
    case DoReset => t.thrower.Idle? && t.head == t.tail
  }

  function Apply(t: Target, a: Step): Target
    requires |t.slots| == RRQ_SIZE && Enabled(t, a)
  {
    match a
    case DoTest(th) => Test(t, th)
    case DoStore => Store(t)
    case DoPublish => Publish(t)
    case DoPop => Pop(t)
    case DoReset => Reset(t)
  }

  /** The threads in the queue, oldest first. */
  ghost function Window(t: Target): seq<nat>
    requires t.taken <= |t.log|
  {
    t.log[t.taken..]
  }

  ghost predicate CountsOk(t: Target) {
    && |t.slots| == RRQ_SIZE
    && t.base <= t.taken <= |t.log| <= t.taken + RRQ_SIZE
    && t.head == (|t.log| - t.base) % WRAP
    && t.tail == (t.taken - t.base) % WRAP
  }

  ghost predicate SlotsOk(t: Target)
    requires CountsOk(t)
  {
    forall n :: t.taken <= n < |t.log| ==> t.slots[SlotOf(t, n)] == t.log[n]
  }

  ghost predicate Inv(t: Target) {
    && CountsOk(t) && SlotsOk(t)
    && (!t.thrower.Idle? ==> |t.log| - t.taken < RRQ_SIZE)
    && (t.thrower.Stored? ==> t.slots[Slot7(t.head)] == t.thrower.th)
  }

  lemma LengthExact(t: Target)
    requires CountsOk(t)
    ensures Sub32(t.head, t.tail) == |Window(t)|
    ensures t.head == t.tail <==> Window(t) == []
  {
    WrappedDistance(|t.log| - t.base, t.taken - t.base);
  }

  /** A throw goes to the targeted queue exactly when fewer than seven threads are in it, and else to the overflow list. */
  lemma FullExact(t: Target)
    requires CountsOk(t)
    ensures Full(t) <==> |Window(t)| == RRQ_SIZE
  {
    LengthExact(t);
  }

  /** Two positions less than seven apart share a slot exactly when they are four apart and straddle a wrap. */
  lemma SharedSlot(m: nat, d: nat)
    requires 0 < d < RRQ_SIZE && d <= m
    ensures Slot7((m - d) % WRAP) == Slot7(m % WRAP) <==> d == 4 && m % WRAP < 4
  {
    var k, j := m / WRAP, m % WRAP;
    if d <= j {
      Unique(m - d, WRAP, k, j - d);
      assert Slot7(j - d) != Slot7(j);
    } else {
      Unique(m - d, WRAP, k - 1, WRAP + j - d);
      assert WRAP + j - d == 613566756 * RRQ_SIZE + (4 + j - d);
      ShiftDivMod(4 + j - d, RRQ_SIZE, 613566756);
    }
  }

  lemma StoreMissesWindow(t: Target, n: nat)
    requires CountsOk(t) && |t.log| - t.taken < RRQ_SIZE && !Clash(t) && t.taken <= n < |t.log|
    ensures Slot7(t.head) != SlotOf(t, n)
  {
    LengthExact(t);
    SharedSlot(|t.log| - t.base, |t.log| - n);
  }

  /** With a clash the slot about to be written is that of the thread four places back, which is unread. */
  lemma StoreHitsWindow(t: Target)
    requires CountsOk(t) && |t.log| - t.taken < RRQ_SIZE && Clash(t)
    ensures t.taken <= |t.log| - 4 && Slot7(t.head) == SlotOf(t, |t.log| - 4)
  {
    LengthExact(t);
    SharedSlot(|t.log| - t.base, 4);
  }

  function InHand(w: Thrower): seq<nat> {
    if w.Idle? then [] else [w.th]
  }

  ghost function Held(t: Target, x: nat): nat
    requires t.taken <= |t.log|
  {
    Count(Window(t), x) + Count(InHand(t.thrower), x)
  }

  function Given(a: Step): seq<nat> {
    if a.DoTest? then [a.th] else []
  }

  ghost function Taken(t: Target, a: Step): seq<nat>
    requires |t.slots| == RRQ_SIZE
  {
    if a.DoPop? then [Next(t)] else []
  }

  lemma StoreKeeps(t: Target)
    requires Inv(t) && t.thrower.Tested? && !Clash(t)
    ensures Inv(Store(t))
  {
    forall n | t.taken <= n < |t.log|
      ensures Store(t).slots[SlotOf(t, n)] == t.log[n]
    {
      StoreMissesWindow(t, n);
    }
  }

  lemma PublishCounts(t: Target)
    requires Inv(t) && Enabled(t, DoPublish)
    ensures CountsOk(Publish(t))
  {
    WrappedIncrement(|t.log| - t.base);
  }

  lemma PublishKeeps(t: Target)
    requires Inv(t) && Enabled(t, DoPublish)
    ensures Inv(Publish(t)) && Window(Publish(t)) == Window(t) + [t.thrower.th]
  {
    PublishCounts(t);
    assert SlotOf(t, |t.log|) == Slot7(t.head);
  }

  lemma PopCounts(t: Target)
    requires CountsOk(t) && t.head != t.tail
    ensures CountsOk(Pop(t))
  {
    LengthExact(t);
    WrappedIncrement(t.taken - t.base);
  }

  lemma PopKeeps(t: Target)
    requires Inv(t) && t.head != t.tail
    ensures Inv(Pop(t)) && Window(t) == [Next(t)] + Window(Pop(t))
  {
    LengthExact(t);
    PopCounts(t);
    assert SlotOf(t, t.taken) == Slot7(t.tail);
  }

  /**
   * Every step keeps the queue sound: a pop returns the oldest thread and a push appends the newest, also when the
   * unlocked pop comes between a thrower's test and its publication.
   */
  lemma StepKeeps(t: Target, a: Step)
    requires Inv(t) && Enabled(t, a)
    ensures Inv(Apply(t, a))
    ensures Taken(t, a) + Window(Apply(t, a)) == Window(t) + (if a.DoPublish? then [t.thrower.th] else [])
  {
    LengthExact(t);
    match a
    case DoTest(th) =>
    case DoStore => StoreKeeps(t);
    case DoPublish => PublishKeeps(t);
    case DoPop => PopKeeps(t);
    case DoReset =>
  }

  /** Every step conserves threads. */
  lemma Balance(t: Target, a: Step, x: nat)
    requires Inv(t) && Enabled(t, a)
    ensures Inv(Apply(t, a))
    ensures Held(Apply(t, a), x) + Count(Taken(t, a), x) == Held(t, x) + Count(Given(a), x)
  {
    StepKeeps(t, a);
    CountAppend(Taken(t, a), Window(Apply(t, a)), x);
    CountAppend(Window(t), if a.DoPublish? then [t.thrower.th] else [], x);
  }

  /**
   * thread_throw's store keeps every queued thread if and only if it does not clash: at any time since the last reset,
   * before and after any number of wraps. (The thread being thrown is not queued already.)
   */
  lemma StoreExact(t: Target)
    requires Inv(t) && t.thrower.Tested? && t.thrower.th !in Window(t)
    ensures Inv(Store(t)) <==> !Clash(t)
  {
    if Clash(t) {
      StoreHitsWindow(t);
      var n := |t.log| - 4;
      assert t.log[n] == Window(t)[n - t.taken];
      assert Store(t).slots[SlotOf(t, n)] == t.thrower.th != t.log[n];
    } else {
      StoreKeeps(t);
    }
  }

  /** Counting without wrapping would name the same slot exactly when the number of wraps is a multiple of seven. */
  lemma WrappedSlotExact(n: nat)
    ensures Slot7(n % WRAP) == Slot7(n) <==> (n / WRAP) % RRQ_SIZE == 0
  {
    var q := n / WRAP;
    assert WRAP == 613566756 * RRQ_SIZE + 4;
    assert n == (613566756 * q) * RRQ_SIZE + (4 * q + n % WRAP);
    ShiftDivMod(4 * q + n % WRAP, RRQ_SIZE, 613566756 * q);
    FourTimes(q, n % WRAP);
  }

  lemma FourTimes(q: nat, m: nat)
    ensures (4 * q + m) % RRQ_SIZE == m % RRQ_SIZE <==> q % RRQ_SIZE == 0
  {
  }

  /* A losing state is reached by throwing and popping in turn, 2^32 times, without the queue ever being found empty. */

  ghost predicate RunTo(ts: seq<Target>, steps: seq<Step>, t: Target) {
    && |ts| == |steps| + 1 && ts[0] == Empty() && ts[|steps|] == t
    && forall i :: 0 <= i < |steps| ==> Inv(ts[i]) && Enabled(ts[i], steps[i]) && ts[i + 1] == Apply(ts[i], steps[i])
  }

  ghost predicate Reachable(t: Target) {
    exists ts, steps :: RunTo(ts, steps, t)
  }

  function Empty(): Target {
    Target(seq(RRQ_SIZE, _ => 0), 0, 0, Idle, [], 0, 0)
  }

  lemma Extend(t: Target, a: Step)
    requires Reachable(t) && Inv(t) && Enabled(t, a)
    ensures Reachable(Apply(t, a))
  {
    var ts, steps :| RunTo(ts, steps, t);
    var ts', steps' := ts + [Apply(t, a)], steps + [a];
    forall i | 0 <= i < |steps'|
      ensures Inv(ts'[i]) && Enabled(ts'[i], steps'[i]) && ts'[i + 1] == Apply(ts'[i], steps'[i])
    {
      if i < |steps| {
        assert ts'[i] == ts[i] && ts'[i + 1] == ts[i + 1] && steps'[i] == steps[i];
      }
    }
    assert RunTo(ts', steps', Apply(t, a));
  }

  /** Threads 0, 1, 2, ... were thrown in turn; the last w of them are queued. */
  ghost predicate Counting(t: Target, k: nat, w: nat) {
    Inv(t) && t.thrower.Idle? && t.base == 0 && t.taken == k && |t.log| == k + w && forall i :: 0 <= i < |t.log| ==> t.log[i] == i
  }

  lemma ThrowNext(t: Target, k: nat, w: nat) returns (t': Target)
    requires Reachable(t) && Counting(t, k, w) && w < 4
    ensures Reachable(t') && Counting(t', k, w + 1)
  {
    LengthExact(t);
    StepKeeps(t, DoTest(k + w));
    Extend(t, DoTest(k + w));
    var t1 := Test(t, k + w);
    StepKeeps(t1, DoStore);
    Extend(t1, DoStore);
    var t2 := Store(t1);
    StepKeeps(t2, DoPublish);
    Extend(t2, DoPublish);
    t' := Publish(t2);
  }

  lemma PopFirst(t: Target, k: nat) returns (t': Target)
    requires Reachable(t) && Counting(t, k, 4)
    ensures Reachable(t') && Counting(t', k + 1, 3)
  {
    LengthExact(t);
    StepKeeps(t, DoPop);
    Extend(t, DoPop);
    t' := Pop(t);
  }

  lemma {:induction false} CountTo(k: nat) returns (t: Target)
    ensures Reachable(t) && Counting(t, k, 4)
  {
    if k == 0 {
      t := Empty();
      assert RunTo([t], [], t);
      t := ThrowNext(t, 0, 0);
      t := ThrowNext(t, 0, 1);
      t := ThrowNext(t, 0, 2);
      t := ThrowNext(t, 0, 3);
    } else {
      t := CountTo(k - 1);
      t := PopFirst(t, k - 1);
      t := ThrowNext(t, k, 3);
    }
  }

  /** A run after which the next throw destroys the oldest queued thread: a pop then returns the new one in its place. */
  lemma ThrowLosesThread() returns (t: Target)
    ensures Reachable(t) && Counting(t, WRAP - 4, 4) && Clash(Test(t, WRAP))
    ensures var t' := Publish(Store(Test(t, WRAP))); Window(t')[0] == WRAP - 4 && Next(t') == WRAP
  {
    t := CountTo(WRAP - 4);
    Unique(WRAP, WRAP, 1, 0);
    LengthExact(t);
    StoreHitsWindow(Test(t, WRAP));
  }
}
