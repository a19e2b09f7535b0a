/**
 * The shared-memory message channel (inc/base/lrpc.h, base/lrpc.c): a single-producer
 * single-consumer ring with a parity bit in each command word, a cached tail, and 32-bit positions
 * that wrap. Sender and receiver are split into the micro-steps between which the other side may run.
 */
module Lrpc {
  import opened Wrapping

  const PARITY: nat := 0x8000_0000_0000_0000

  /** A message; lrpc_send asserts that the command leaves the parity bit clear. */
  datatype Msg = Msg(cmd: nat, payload: nat)

  /** One table entry: the 64-bit command word, parity bit included, and the payload. */
  datatype Slot = Slot(word: nat, payload: nat)

  /** Where the sender is; the fast path has already advanced send_head, the slow path has not. */
  datatype Sender =
    | Ready
    | Full(msg: Msg)
    | FastFill(msg: Msg, slot: nat, word: nat)
    | FastPublish(msg: Msg, slot: nat, word: nat)
    | SlowFill(msg: Msg)
    | SlowPublish(msg: Msg)

  datatype Receiver =
    | Waiting
    | Loaded(slot: nat, cmd: nat)
    | Copied(msg: Msg)

  /**
   * Both endpoints and the memory they share. `sent`, `delivered` and `seen` record history: the
   * messages published, the messages returned by lrpc_recv, and how many deliveries the cached tail
   * reflects.
   */
  datatype Chan = Chan(
    size: nat,
    tbl: seq<Slot>,
    writeBack: nat,
    sendHead: nat,
    sendTail: nat,
    recvHead: nat,
    sender: Sender,
    receiver: Receiver,
    sent: seq<Msg>,
    delivered: seq<Msg>,
    seen: nat)

  /** `pos & (size - 1)` for a power of two. */
  function SlotOf(pos: nat, size: nat): nat
    requires size > 0
  {
    pos % size
  }

  /** The parity bit of position pos: `(pos & size) ? 0 : LRPC_DONE_PARITY`. */
  function ParityOf(pos: nat, size: nat): nat
    requires size > 0
  {
    if (pos / size) % 2 == 1 then 0 else PARITY
  }

  function WordParity(word: nat): nat {
    if word >= PARITY then PARITY else 0
  }

  function WordCmd(word: nat): nat {
    word % PARITY
  }

  /* The sender's micro-steps. */

  /** lrpc_send up to the window test; the fast path reserves the slot and builds the word. */
  function StartSend(c: Chan, m: Msg): Chan
    requires c.size > 0
  {
    if Sub32(c.sendHead, c.sendTail) >= c.size then c.(sender := Full(m))
    else
      c.(sender := FastFill(m, SlotOf(c.sendHead, c.size), m.cmd + ParityOf(c.sendHead, c.size)),
         sendHead := Inc32(c.sendHead))
  }

  /** __lrpc_send up to the second test, with the assertion it starts from as a precondition. */
  function RefreshTail(c: Chan): Chan
    requires c.sender.Full?
    requires Sub32(c.sendHead, c.sendTail) == c.size
  {
    var c1 := c.(sendTail := c.writeBack, seen := |c.delivered|);
    if Sub32(c1.sendHead, c1.sendTail) == c1.size then c1.(sender := Ready)
    else c1.(sender := SlowFill(c.sender.msg))
  }

  /** The plain store of the payload. */
  function WritePayload(c: Chan): Chan
    requires c.size > 0
    requires c.sender.FastFill? || c.sender.SlowFill?
    requires TargetSlot(c) < |c.tbl|
  {
    var i := TargetSlot(c);
    c.(tbl := c.tbl[i := c.tbl[i].(payload := c.sender.msg.payload)],
       sender := if c.sender.FastFill? then FastPublish(c.sender.msg, c.sender.slot, c.sender.word) else SlowPublish(c.sender.msg))
  }

  /** The slot the message in flight goes to. */
  function TargetSlot(c: Chan): nat
    requires c.size > 0
  {
    match c.sender
    case FastFill(m, slot, word) => slot
    case FastPublish(m, slot, word) => slot
    case _ => SlotOf(c.sendHead, c.size)
  }

  /** The release store of the command word. */
  function Publish(c: Chan): Chan
    requires c.size > 0
    requires c.sender.FastPublish? || c.sender.SlowPublish?
    requires TargetSlot(c) < |c.tbl|
  {
    var i := TargetSlot(c);
    var word := if c.sender.FastPublish? then c.sender.word else c.sender.msg.cmd + ParityOf(c.sendHead, c.size);
    c.(tbl := c.tbl[i := c.tbl[i].(word := word)],
       sendHead := if c.sender.FastPublish? then c.sendHead else Inc32(c.sendHead),
       sender := Ready,
       sent := c.sent + [c.sender.msg])
  }

  /** lrpc_poll_send_tail */
  function PollTail(c: Chan): Chan {
    c.(sendTail := c.writeBack, seen := |c.delivered|)
  }

  /** lrpc_get_cached_length */
  function CachedLength(c: Chan): nat {
    Sub32(c.sendHead, c.sendTail)
  }

  /** lrpc_get_cached_send_window */
  function CachedWindow(c: Chan): nat {
    (c.size - c.sendHead + c.sendTail) % WRAP
  }

  /* The receiver's micro-steps. */

  /** The parity test of lrpc_recv and lrpc_empty. */
  predicate HasMessage(c: Chan)
    requires c.size > 0 && SlotOf(c.recvHead, c.size) < |c.tbl|
  {
    WordParity(c.tbl[SlotOf(c.recvHead, c.size)].word) == ParityOf(c.recvHead, c.size)
  }

  /** lrpc_recv up to the test; on a match the head advances. */
  function LoadCmd(c: Chan): Chan
    requires c.size > 0 && SlotOf(c.recvHead, c.size) < |c.tbl|
  {
    var i := SlotOf(c.recvHead, c.size);
    if !HasMessage(c) then c
    else c.(receiver := Loaded(i, WordCmd(c.tbl[i].word)), recvHead := Inc32(c.recvHead))
  }

  function ReadPayload(c: Chan): Chan
    requires c.receiver.Loaded? && c.receiver.slot < |c.tbl|
  {
    c.(receiver := Copied(Msg(c.receiver.cmd, c.tbl[c.receiver.slot].payload)))
  }

  /** The release store of the new head, and the return. */
  function WriteBack(c: Chan): Chan
    requires c.receiver.Copied?
  {
    c.(writeBack := c.recvHead, delivered := c.delivered + [c.receiver.msg], receiver := Waiting)
  }

  /* Any interleaving. */

  datatype Step =
    | DoStart(msg: Msg)
    | DoRefresh
    | DoPayload
    | DoPublish
    | DoPoll
    | DoLoad
    | DoRead
    | DoWriteBack

  /** Each side runs its own program; the two interleave freely. Only lrpc_send's own assert restricts a step. */
  predicate Enabled(c: Chan, a: Step) {
    match a
    case DoStart(m) => c.sender.Ready? && m.cmd < PARITY
    case DoRefresh => c.sender.Full?
    case DoPayload => c.sender.FastFill? || c.sender.SlowFill?
    case DoPublish => c.sender.FastPublish? || c.sender.SlowPublish?
    case DoPoll => c.sender.Ready?
    case DoLoad => c.receiver.Waiting?
    case DoRead => c.receiver.Loaded?
    case DoWriteBack => c.receiver.Copied?
  }

  /** The accesses a step makes are defined: its slot exists, and the slow path's assertion holds. */
  predicate Sound(c: Chan, a: Step) {
    && c.size > 0
    && match a
       case DoRefresh => c.sender.Full? ==> Sub32(c.sendHead, c.sendTail) == c.size
       case DoPayload => TargetSlot(c) < |c.tbl|
       case DoPublish => TargetSlot(c) < |c.tbl|
       case DoLoad => SlotOf(c.recvHead, c.size) < |c.tbl|
       case DoRead => c.receiver.Loaded? ==> c.receiver.slot < |c.tbl|
       case _ => true
  }

  function Apply(c: Chan, a: Step): Chan
    requires Enabled(c, a) && Sound(c, a)
  {
    match a
    case DoStart(m) => StartSend(c, m)
    case DoRefresh => RefreshTail(c)
    case DoPayload => WritePayload(c)
    case DoPublish => Publish(c)
    case DoPoll => PollTail(c)
    case DoLoad => LoadCmd(c)
    case DoRead => ReadPayload(c)
    case DoWriteBack => WriteBack(c)
  }

  /** lrpc_init_out and lrpc_init_in on a table and a write-back word as they are found in memory. */
  function Init(size: nat, tbl: seq<Slot>, writeBack: nat): Chan {
    Chan(size, tbl, writeBack, 0, 0, 0, Ready, Waiting, [], [], 0)
  }
}
