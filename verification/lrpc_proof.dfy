/** Under every interleaving the channel delivers a prefix of what was sent: it refines an unbounded FIFO. */
module LrpcProof {
  import opened Wrapping
  import opened Lrpc

  /* Positions. */

  /** Slot and parity can be computed from the wrapped position. */
  lemma WrappedPosition(n: nat, size: nat)
    requires IsPow2(size) && size < WRAP
    ensures size > 0
    ensures SlotOf(n % WRAP, size) == SlotOf(n, size)
    ensures ParityOf(n % WRAP, size) == ParityOf(n, size)
  {
    var j := SplitPosition(n, size);
    EvenShift(n, n % WRAP, size, j);
  }

  /** One table later the slot is the same and the parity the opposite. */
  lemma NextLap(n: nat, size: nat)
    requires size > 0
    ensures SlotOf(n + size, size) == SlotOf(n, size)
    ensures ParityOf(n + size, size) != ParityOf(n, size)
  {
    ShiftDivMod(n, size, 1);
  }

  /* The invariant. */

  /** How far the sender's head is, counted without wrapping. */
  ghost function Head(c: Chan): nat {
    |c.sent| + (if c.sender.FastFill? || c.sender.FastPublish? then 1 else 0)
  }

  ghost function Taken(c: Chan): nat {
    |c.delivered| + (if c.receiver.Waiting? then 0 else 1)
  }

  ghost predicate ShapeOk(c: Chan) {
    IsPow2(c.size) && c.size < WRAP && |c.tbl| == c.size
  }

  ghost predicate HeadsOk(c: Chan) {
    && c.sendHead == Head(c) % WRAP
    && c.recvHead == Taken(c) % WRAP
    && c.writeBack == |c.delivered| % WRAP
    && c.sendTail == c.seen % WRAP
    && c.seen <= |c.delivered|
    && Taken(c) <= |c.sent|
    && Head(c) - c.seen <= c.size
  }

  ghost predicate HistoryOk(c: Chan) {
    && |c.delivered| <= |c.sent|
    && c.delivered == c.sent[..|c.delivered|]
    && (forall n :: 0 <= n < |c.sent| ==> c.sent[n].cmd < PARITY)
  }

  /** The words of the last table's worth of messages are in place; slots never used have a clear parity bit. */
  ghost predicate WordsOk(c: Chan)
    requires c.size > 0 && |c.tbl| == c.size
  {
    && (forall n :: 0 <= n < |c.sent| && |c.sent| - c.size <= n ==>
          c.tbl[SlotOf(n, c.size)].word == c.sent[n].cmd + ParityOf(n, c.size))
    && (forall j :: |c.sent| <= j < c.size ==> c.tbl[j].word < PARITY)
  }

  /** The payloads of the messages not yet delivered are in place. */
  ghost predicate PayloadsOk(c: Chan)
    requires c.size > 0 && |c.tbl| == c.size
  {
    forall n :: |c.delivered| <= n < |c.sent| ==> c.tbl[SlotOf(n, c.size)].payload == c.sent[n].payload
  }

  ghost predicate SenderOk(c: Chan)
    requires c.size > 0 && |c.tbl| == c.size
  {
    var n := |c.sent|;
    match c.sender
    case Ready => true
    case Full(m) => m.cmd < PARITY && n - c.seen == c.size
    case FastFill(m, slot, word) =>
      m.cmd < PARITY && n - c.seen < c.size && slot == SlotOf(n, c.size) && word == m.cmd + ParityOf(n, c.size)
    case FastPublish(m, slot, word) =>
      && m.cmd < PARITY && n - c.seen < c.size && slot == SlotOf(n, c.size) && word == m.cmd + ParityOf(n, c.size)
      && c.tbl[SlotOf(n, c.size)].payload == m.payload
    case SlowFill(m) => m.cmd < PARITY && n - c.seen < c.size
    case SlowPublish(m) => m.cmd < PARITY && n - c.seen < c.size && c.tbl[SlotOf(n, c.size)].payload == m.payload
  }

  ghost predicate ReceiverOk(c: Chan)
    requires c.size > 0
  {
    match c.receiver
    case Waiting => true
    case Loaded(slot, cmd) =>
      |c.delivered| < |c.sent| && slot == SlotOf(|c.delivered|, c.size) && cmd == c.sent[|c.delivered|].cmd
    case Copied(m) => |c.delivered| < |c.sent| && m == c.sent[|c.delivered|]
  }

  ghost predicate Inv(c: Chan) {
    && ShapeOk(c) && HeadsOk(c) && HistoryOk(c)
    && WordsOk(c) && PayloadsOk(c) && SenderOk(c) && ReceiverOk(c)
  }

  /** The sender's slot is computed from the wrapped head and is the slot of the next message. */
  lemma TargetIsNext(c: Chan)
    requires Inv(c) && !c.sender.Ready? && !c.sender.Full?
    ensures TargetSlot(c) == SlotOf(|c.sent|, c.size) < |c.tbl|
  {
    WrappedPosition(|c.sent|, c.size);
  }

  /** A slot about to be written holds no message that is still to be delivered. */
  lemma NeverOverwritesUnread(c: Chan, n: nat)
    requires Inv(c) && !c.sender.Ready? && !c.sender.Full?
    requires |c.delivered| <= n < |c.sent|
    ensures TargetSlot(c) != SlotOf(n, c.size)
  {
    TargetIsNext(c);
    SameSlot(n, |c.sent|, c.size);
  }

  /** The parity test succeeds exactly when an unread published message is present. */
  lemma ParityExact(c: Chan)
    requires Inv(c) && c.receiver.Waiting?
    ensures SlotOf(c.recvHead, c.size) < |c.tbl|
    ensures HasMessage(c) <==> |c.delivered| < |c.sent|
    ensures HasMessage(c) ==> SlotOf(c.recvHead, c.size) == SlotOf(|c.delivered|, c.size)
  {
    var n := |c.delivered|;
    WrappedPosition(n, c.size);
    if n == |c.sent| {
      if n >= c.size {
        NextLap(n - c.size, c.size);
      } else {
        Unique(n, c.size, 0, n);
      }
    }
  }

  /** The slow path's assertion: it is entered only when the cached window is exactly full. */
  lemma SlowPathAssertion(c: Chan)
    requires Inv(c) && c.sender.Full?
    ensures Sub32(c.sendHead, c.sendTail) == c.size
  {
    WrappedDistance(|c.sent|, c.seen);
  }

  /* Every step keeps the invariant. */

  lemma StartKeeps(c: Chan, m: Msg)
    requires Inv(c) && c.sender.Ready? && m.cmd < PARITY
    ensures Inv(StartSend(c, m))
  {
    WrappedDistance(|c.sent|, c.seen);
    WrappedPosition(|c.sent|, c.size);
    WrappedIncrement(|c.sent|);
  }

  lemma RefreshKeeps(c: Chan)
    requires Inv(c) && c.sender.Full?
    ensures Sub32(c.sendHead, c.sendTail) == c.size && Inv(RefreshTail(c))
  {
    SlowPathAssertion(c);
    WrappedDistance(|c.sent|, |c.delivered|);
  }

  lemma PayloadKeeps(c: Chan)
    requires Inv(c) && (c.sender.FastFill? || c.sender.SlowFill?)
    ensures TargetSlot(c) < |c.tbl| && Inv(WritePayload(c))
  {
    TargetIsNext(c);
    forall n | |c.delivered| <= n < |c.sent|
      ensures TargetSlot(c) != SlotOf(n, c.size)
    {
      NeverOverwritesUnread(c, n);
    }
  }

  lemma PublishWords(c: Chan, c': Chan)
    requires c.size > 0 && |c.tbl| == c.size && WordsOk(c)
    requires exists m, w :: c'.sent == c.sent + [m] && w == m.cmd + ParityOf(|c.sent|, c.size)
                            && c'.tbl == c.tbl[SlotOf(|c.sent|, c.size) := c.tbl[SlotOf(|c.sent|, c.size)].(word := w)]
    requires c'.size == c.size
    ensures WordsOk(c')
  {
    forall n | 0 <= n < |c'.sent| && |c'.sent| - c.size <= n
      ensures c'.tbl[SlotOf(n, c.size)].word == c'.sent[n].cmd + ParityOf(n, c.size)
    {
      if n < |c.sent| {
        SameSlot(n, |c.sent|, c.size);
      }
    }
    forall j | |c'.sent| <= j < c.size
      ensures c'.tbl[j].word < PARITY
    {
      Unique(|c.sent|, c.size, 0, |c.sent|);
    }
  }

  lemma PublishKeeps(c: Chan)
    requires Inv(c) && (c.sender.FastPublish? || c.sender.SlowPublish?)
    ensures TargetSlot(c) < |c.tbl| && Inv(Publish(c))
  {
    TargetIsNext(c);
    WrappedPosition(|c.sent|, c.size);
    WrappedIncrement(|c.sent|);
    var c' := Publish(c);
    assert c'.sent == c.sent + [c.sender.msg];
    PublishWords(c, c');
    forall n | |c'.delivered| <= n < |c'.sent|
      ensures c'.tbl[SlotOf(n, c.size)].payload == c'.sent[n].payload
    {
      if n < |c.sent| {
        NeverOverwritesUnread(c, n);
      }
    }
    assert c'.delivered == c'.sent[..|c'.delivered|];
  }

  lemma PollKeeps(c: Chan)
    requires Inv(c) && c.sender.Ready?
    ensures Inv(PollTail(c))
  {
  }

  lemma LoadKeeps(c: Chan)
    requires Inv(c) && c.receiver.Waiting?
    ensures SlotOf(c.recvHead, c.size) < |c.tbl| && Inv(LoadCmd(c))
  {
    ParityExact(c);
    WrappedIncrement(|c.delivered|);
    if HasMessage(c) {
      LoadedCmd(c);
    }
  }

  lemma LoadedCmd(c: Chan)
    requires ShapeOk(c) && c.size > 0 && HeadsOk(c) && WordsOk(c) && HistoryOk(c) && |c.delivered| < |c.sent|
    ensures WordCmd(c.tbl[SlotOf(|c.delivered|, c.size)].word) == c.sent[|c.delivered|].cmd
  {
    var n := |c.delivered|;
    assert c.tbl[SlotOf(n, c.size)].word == c.sent[n].cmd + ParityOf(n, c.size);
    StripParity(c.sent[n].cmd);
  }

  lemma StripParity(cmd: nat)
    requires cmd < PARITY
    ensures WordCmd(cmd) == cmd && WordCmd(cmd + PARITY) == cmd
  {
  }

  lemma ReadKeeps(c: Chan)
    requires Inv(c) && c.receiver.Loaded?
    ensures c.receiver.slot < |c.tbl| && Inv(ReadPayload(c))
  {
  }

  lemma WriteBackKeeps(c: Chan)
    requires Inv(c) && c.receiver.Copied?
    ensures Inv(WriteBack(c))
  {
  }

  /** Every enabled micro-step is sound and keeps the invariant. */
  lemma StepKeeps(c: Chan, a: Step)
    requires Inv(c) && Enabled(c, a)
    ensures Sound(c, a) && Inv(Apply(c, a))
  {
    match a
    case DoStart(m) => StartKeeps(c, m);
    case DoRefresh => RefreshKeeps(c);
    case DoPayload => PayloadKeeps(c);
    case DoPublish => PublishKeeps(c);
    case DoPoll => PollKeeps(c);
    case DoLoad => LoadKeeps(c);
    case DoRead => ReadKeeps(c);
    case DoWriteBack => WriteBackKeeps(c);
  }

  /* Runs. */

  /** chans[i] is the channel after the first i micro-steps, in whatever order the two sides took them. */
  ghost predicate Run(chans: seq<Chan>, steps: seq<Step>) {
    && |chans| == |steps| + 1
    && (forall i :: 0 <= i < |steps| ==>
          Enabled(chans[i], steps[i]) && (Sound(chans[i], steps[i]) ==> chans[i + 1] == Apply(chans[i], steps[i])))
  }

  /** The memory the channel is created on: every parity bit clear and the write-back word zero. */
  ghost predicate Clean(tbl: seq<Slot>, writeBack: nat) {
    writeBack == 0 && forall j :: 0 <= j < |tbl| ==> tbl[j].word < PARITY
  }

  /** The init functions do not clear the memory: the invariant holds at the start exactly if it was clean. */
  lemma InitExact(size: nat, tbl: seq<Slot>, writeBack: nat)
    requires IsPow2(size) && size < WRAP && |tbl| == size && writeBack < WRAP
    ensures Inv(Init(size, tbl, writeBack)) <==> Clean(tbl, writeBack)
  {
  }

  /**
   * Refinement: in every run from clean memory the messages delivered so far are a prefix of those
   * sent, in order and unaltered, and no step ever leaves its defined behaviour.
   */
  lemma {:induction false} RunRefinesFifo(chans: seq<Chan>, steps: seq<Step>, n: nat)
    requires Run(chans, steps) && n < |chans|
    requires IsPow2(chans[0].size) && chans[0].size < WRAP && |chans[0].tbl| == chans[0].size
    requires Clean(chans[0].tbl, chans[0].writeBack) && chans[0] == Init(chans[0].size, chans[0].tbl, chans[0].writeBack)
    ensures Inv(chans[n])
    ensures chans[n].delivered <= chans[n].sent
    ensures n < |steps| ==> Sound(chans[n], steps[n])
  {
    if n == 0 {
      InitExact(chans[0].size, chans[0].tbl, chans[0].writeBack);
    } else {
      RunRefinesFifo(chans, steps, n - 1);
      StepKeeps(chans[n - 1], steps[n - 1]);
    }
    if n < |steps| {
      StepKeeps(chans[n], steps[n]);
    }
  }

  /** After a poll, a cached length of zero means that everything sent has been consumed, and conversely. */
  lemma PolledLengthExact(c: Chan)
    requires Inv(c) && c.sender.Ready?
    ensures CachedLength(PollTail(c)) == |c.sent| - |c.delivered|
    ensures CachedLength(PollTail(c)) == 0 <==> c.delivered == c.sent
  {
    WrappedDistance(|c.sent|, |c.delivered|);
  }

  /** Without a poll the cached values err on the safe side: length is never too small, window never too large. */
  lemma CachedValuesSafe(c: Chan)
    requires Inv(c) && c.sender.Ready?
    ensures |c.sent| - |c.delivered| <= CachedLength(c) <= c.size
    ensures CachedWindow(c) == c.size - CachedLength(c)
  {
    WrappedDistance(|c.sent|, c.seen);
    var d := |c.sent| - c.seen;
    var k := c.seen / WRAP - |c.sent| / WRAP;
    assert c.size - c.sendHead + c.sendTail == (-k) * WRAP + (c.size - d);
    ShiftDivMod(c.size - d, WRAP, -k);
  }

  /* Whole calls, when nobody interferes. */

  /** The messages in the channel: what a FIFO would hold. */
  ghost function Queue(c: Chan): seq<Msg>
    requires HistoryOk(c)
  {
    c.sent[|c.delivered|..]
  }
}
