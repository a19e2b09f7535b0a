/**
 * One kthread's work-stealing run queue (runtime/sched.c): a ring of 32 slots with 32-bit head and
 * tail. The owner pushes without the lock; popping, draining, resetting and stealing happen under
 * it. A push and a steal are split into the micro-steps between which the other side may run.
 */
module RunQueue {
  import opened Wrapping

  const RQ_SIZE: nat := 32

  /** Where the owner is inside thread_ready. */
  datatype Owner =
    | Free
    | Spilling(th: nat)
    | Filling(th: nat)
    | Filled(th: nat)
    | Uncounted

  /** Where a thief is inside steal_work; it holds the victim's lock except when Away. */
  datatype Thief =
    | Away
    | Holding
    | Copying(avail: nat, n: nat, got: seq<nat>)
    | Committed(avail: nat, n: nat, got: seq<nat>)

  /**
   * The ring and its published shadow counters. `log`, `taken` and `base` record history: every
   * thread that entered the ring, how many left it, and how many had entered at the last reset.
   */
  datatype Ring = Ring(
    rq: seq<nat>,
    head: nat,
    tail: nat,
    overflow: seq<nat>,
    qHead: nat,
    qTail: nat,
    owner: Owner,
    thief: Thief,
    log: seq<nat>,
    taken: nat,
    base: nat)

  function DivUp2(x: nat): nat {
    (x + 1) / 2
  }

  function Slot(pos: nat): nat {
    pos % RQ_SIZE
  }

  /* The owner's unlocked push: thread_ready. */

  /** Load the tail and test for room. */
  function StartPush(r: Ring, th: nat): Ring {
    r.(owner := if Sub32(r.head, r.tail) >= RQ_SIZE then Spilling(th) else Filling(th))
  }

  /** The ring was full: append to the overflow list under the lock. */
  function Spill(r: Ring): Ring
    requires r.owner.Spilling?
  {
    r.(owner := Free, overflow := r.overflow + [r.owner.th])
  }

  function Fill(r: Ring): Ring
    requires r.owner.Filling? && |r.rq| == RQ_SIZE
  {
    r.(owner := Filled(r.owner.th), rq := r.rq[Slot(r.head) := r.owner.th])
  }

  /** The release store of the head. */
  function PublishHead(r: Ring): Ring
    requires r.owner.Filled?
  {
    r.(owner := Uncounted, head := Inc32(r.head), log := r.log + [r.owner.th])
  }

  function CountPush(r: Ring): Ring {
    r.(owner := Free, qHead := Inc32(r.qHead))
  }

  /* The owner's steps under the lock. */

  /** Take the oldest thread. */
  function Pop(r: Ring): Ring {
    r.(tail := Inc32(r.tail), qTail := Inc32(r.qTail), taken := r.taken + 1)
  }

  /** Reset the positions of an empty ring. */
  function Reset(r: Ring): Ring {
    r.(head := 0, tail := 0, base := |r.log|)
  }

  /** drain_overflow */
  function Drain(r: Ring): Ring
    requires |r.rq| == RQ_SIZE
    decreases |r.overflow|
  {
    if Sub32(r.head, r.tail) < RQ_SIZE && r.overflow != [] then Drain(DrainOne(r)) else r
  }

  function DrainOne(r: Ring): Ring
    requires |r.rq| == RQ_SIZE && r.overflow != []
  {
    r.(rq := r.rq[Slot(r.head) := r.overflow[0]],
       head := Inc32(r.head),
       qHead := Inc32(r.qHead),
       log := r.log + [r.overflow[0]],
       overflow := r.overflow[1..])
  }

  /** The end of a successful steal: the owner of an empty, reset ring keeps the stolen threads in it. */
  function Accept(r: Ring, loot: seq<nat>): Ring
    requires |loot| <= |r.rq|
  {
    r.(rq := loot + r.rq[|loot|..], head := |loot|, qHead := (r.qHead + |loot|) % WRAP, log := r.log + loot)
  }

  /* Steps of other kthreads under the ring's lock. */

  /** thread_throw to a kthread whose targeted queue is full. */
  function Throw(r: Ring, th: nat): Ring {
    r.(overflow := r.overflow + [th])
  }

  /** The threads between two positions, by a plain comparison of the positions. */
  function Between(rq: seq<nat>, tail: nat, head: nat): (ths: seq<nat>)
    requires |rq| == RQ_SIZE
    ensures |ths| == if tail < head then head - tail else 0
    ensures forall i :: 0 <= i < |ths| ==> ths[i] == rq[Slot(tail + i)]
    decreases head - tail
  {
    if tail < head then [rq[Slot(tail)]] + Between(rq, tail + 1, head) else []
  }

  /** The threads join_kthread drains from the ring of a parked kthread. */
  function JoinTakes(r: Ring): seq<nat>
    requires |r.rq| == RQ_SIZE
  {
    Between(r.rq, r.tail, r.head)
  }

  /** join_kthread: drain ring and overflow list, reset the positions. */
  function Join(r: Ring): Ring
    requires |r.rq| == RQ_SIZE
  {
    var n := |JoinTakes(r)|;
    r.(head := 0, tail := 0, qTail := (r.qTail + n) % WRAP, overflow := [], taken := r.taken + n, base := |r.log|)
  }

  /* The thief's steps: steal_work. */

  function Lock(r: Ring): Ring {
    r.(thief := Holding)
  }

  /** Load the victim's head; half of what is there, rounded up, will be taken. */
  function LoadHead(r: Ring): Ring {
    var avail := Sub32(r.head, r.tail);
    if avail == 0 then r else r.(thief := Copying(avail, DivUp2(avail), []))
  }

  function CopyOne(r: Ring): Ring
    requires r.thief.Copying? && |r.rq| == RQ_SIZE
  {
    var pos := (r.tail + |r.thief.got|) % WRAP;
    r.(thief := Copying(r.thief.avail, r.thief.n, r.thief.got + [r.rq[Slot(pos)]]))
  }

  /** The release store of the tail. */
  function CommitTail(r: Ring): Ring
    requires r.thief.Copying?
  {
    r.(thief := Committed(r.thief.avail, r.thief.n, r.thief.got), tail := (r.tail + r.thief.n) % WRAP, taken := r.taken + r.thief.n)
  }

  /** Count the stolen threads and release the lock. */
  function FinishSteal(r: Ring): Ring
    requires r.thief.Committed?
  {
    r.(thief := Away, qTail := (r.qTail + r.thief.n) % WRAP)
  }

  /** The ring was empty when its head was loaded: take an overflow thread, if any, and release the lock. */
  function TakeOverflow(r: Ring): Ring {
    r.(thief := Away, overflow := if r.overflow == [] then [] else r.overflow[1..])
  }

  datatype Step =
    | DoStart(th: nat) | DoSpill | DoFill | DoPublish | DoCount
    | DoPop | DoReset | DoDrain | DoAccept(loot: seq<nat>)
    | DoThrow(th: nat) | DoJoin
    | DoLock | DoLoad | DoCopy | DoCommit | DoFinish | DoOverflow

  /** Each side follows its program; a step that takes the lock waits until the other side has released it. */
  predicate Enabled(r: Ring, a: Step) {
    match a
    case DoStart(th) => r.owner.Free?
    case DoSpill => r.owner.Spilling? && r.thief.Away?
    case DoFill => r.owner.Filling?
    case DoPublish => r.owner.Filled?
    case DoCount => r.owner.Uncounted?
    case DoPop => r.owner.Free? && r.thief.Away? && r.head != r.tail
    case DoReset => r.owner.Free? && r.thief.Away? && r.head == r.tail
    case DoDrain => r.owner.Free? && r.thief.Away?
    case DoAccept(loot) => r.owner.Free? && r.thief.Away? && r.head == r.tail == 0 && |loot| <= RQ_SIZE / 2
    case DoThrow(th) => r.thief.Away?
    case DoJoin => r.owner.Free? && r.thief.Away? && r.tail <= r.head
    case DoLock => r.thief.Away?
    case DoLoad => r.thief.Holding?
    case DoCopy => r.thief.Copying? && |r.thief.got| < r.thief.n
    case DoCommit => r.thief.Copying? && |r.thief.got| == r.thief.n
    case DoFinish => r.thief.Committed?
    case DoOverflow => r.thief.Holding?
  }

  function Apply(r: Ring, a: Step): Ring
    requires Enabled(r, a) && |r.rq| == RQ_SIZE
  {
    match a
    case DoStart(th) => StartPush(r, th)
    case DoSpill => Spill(r)
    case DoFill => Fill(r)
    case DoPublish => PublishHead(r)
    case DoCount => CountPush(r)
    case DoPop => Pop(r)
    case DoReset => Reset(r)
    case DoDrain => Drain(r)
    case DoAccept(loot) => Accept(r, loot)
    case DoThrow(th) => Throw(r, th)
    case DoJoin => Join(r)
    case DoLock => Lock(r)
    case DoLoad => LoadHead(r)
    case DoCopy => CopyOne(r)
    case DoCommit => CommitTail(r)
    case DoFinish => FinishSteal(r)
    case DoOverflow => TakeOverflow(r)
  }
}
