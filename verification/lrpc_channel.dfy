/** The channel's functions as the imperative code they are, each call seen as one step of a FIFO. */
module LrpcChannel {
  import opened Wrapping
  import opened Lrpc
  import opened LrpcProof

  class Channel {
    const size: nat
    const tbl: array<Slot>
    var writeBack: nat
    var sendHead: nat
    var sendTail: nat
    var recvHead: nat
    ghost var sent: seq<Msg>
    ghost var delivered: seq<Msg>
    ghost var seen: nat

    /** The channel between calls: both sides idle. */
    ghost function View(): Chan
      reads this, tbl
    {
      Chan(size, tbl[..], writeBack, sendHead, sendTail, recvHead, Ready, Waiting, sent, delivered, seen)
    }

    ghost predicate Valid()
      reads this, tbl
    {
      Inv(View())
    }

    /** The messages waiting in the channel, oldest first. */
    ghost function Messages(): seq<Msg>
      reads this, tbl
      requires Valid()
    {
      Queue(View())
    }

    /** lrpc_init_out and lrpc_init_in; ok is false, for -EINVAL, unless size is a power of two. */
    static method Create(size: nat, tbl: array<Slot>, writeBack: nat) returns (c: Channel?)
      requires tbl.Length == size && size < WRAP && Clean(tbl[..], writeBack)
      ensures c != null <==> IsPow2(size)
      ensures c != null ==> fresh(c) && c.tbl == tbl && c.size == size && c.Valid() && c.Messages() == []
    {
      if !IsPow2(size) {
        return null;
      }
      c := new Channel(size, tbl, writeBack);
      InitExact(size, tbl[..], writeBack);
    }

    constructor (size: nat, tbl: array<Slot>, writeBack: nat)
      ensures this.size == size && this.tbl == tbl
      ensures View() == Init(size, tbl[..], writeBack)
    {
      this.size, this.tbl := size, tbl;
      this.writeBack := writeBack;
      sendHead, sendTail, recvHead := 0, 0, 0;
      sent, delivered, seen := [], [], 0;
    }

    /** lrpc_send: appends the message, unless the channel is full. */
    method Send(m: Msg) returns (ok: bool)
      requires Valid() && m.cmd < PARITY
      modifies this, tbl
      ensures Valid()
      ensures ok <==> |old(Messages())| < size
      ensures Messages() == if ok then old(Messages()) + [m] else old(Messages())
      ensures delivered == old(delivered)
    {
      SendWindow(View());
      if Sub32(sendHead, sendTail) >= size {
        ok := SendSlow(m);
        return;
      }
      FastSend(View(), m);
      ghost var after := Stored(View(), m);
      var i := SlotOf(sendHead, size);
      var word := m.cmd + ParityOf(sendHead, size);
      sendHead := Inc32(sendHead);
      tbl[i] := tbl[i].(payload := m.payload);
      tbl[i] := tbl[i].(word := word);
      sent := sent + [m];
      assert View() == after;
      return true;
    }

    /** __lrpc_send: refresh the tail and look again. */
    method SendSlow(m: Msg) returns (ok: bool)
      requires Valid() && m.cmd < PARITY && Sub32(sendHead, sendTail) >= size
      modifies this, tbl
      ensures Valid()
      ensures ok <==> |old(Messages())| < size
      ensures Messages() == if ok then old(Messages()) + [m] else old(Messages())
      ensures delivered == old(delivered)
    {
      SlowSend(View(), m);
      assert Sub32(sendHead, sendTail) == size;
      sendTail := writeBack;
      seen := |delivered|;
      if Sub32(sendHead, sendTail) == size {
        return false;
      }
      ghost var after := Stored(View(), m);
      var i := SlotOf(sendHead, size);
      tbl[i] := tbl[i].(payload := m.payload);
      var word := m.cmd + ParityOf(sendHead, size);
      sendHead := Inc32(sendHead);
      tbl[i] := tbl[i].(word := word);
      sent := sent + [m];
      assert View() == after;
      return true;
    }

    /** lrpc_recv: takes the oldest message, if there is one. */
    method Recv() returns (ok: bool, m: Msg)
      requires Valid()
      modifies this
      ensures Valid()
      ensures ok <==> old(Messages()) != []
      ensures ok ==> m == old(Messages())[0] && Messages() == old(Messages())[1..]
      ensures !ok ==> Messages() == old(Messages())
      ensures sent == old(sent)
    {
      m := Msg(0, 0);
      ghost var c := LoadCmd(View());
      ParityExact(View());
      LoadKeeps(View());
      var i := SlotOf(recvHead, size);
      var word := tbl[i].word;
      if WordParity(word) != ParityOf(recvHead, size) {
        return false, m;
      }
      ReadKeeps(c);
      WriteBackKeeps(ReadPayload(c));
      recvHead := Inc32(recvHead);
      m := Msg(WordCmd(word), tbl[i].payload);
      writeBack := recvHead;
      delivered := delivered + [m];
      assert View() == WriteBack(ReadPayload(c));
      return true, m;
    }

    /** lrpc_empty */
    method Empty() returns (empty: bool)
      requires Valid()
      ensures empty <==> Messages() == []
    {
      ParityExact(View());
      var i := SlotOf(recvHead, size);
      empty := WordParity(tbl[i].word) != ParityOf(recvHead, size);
    }

    /** lrpc_poll_send_tail followed by lrpc_get_cached_length: the exact number of queued messages. */
    method PolledLength() returns (n: nat)
      requires Valid()
      modifies this
      ensures Valid() && Messages() == old(Messages()) && n == |Messages()|
    {
      PolledLengthExact(View());
      PollKeeps(View());
      sendTail := writeBack;
      seen := |delivered|;
      n := Sub32(sendHead, sendTail);
    }
  }

  /** The fast path's window test is conservative: a cached window with room means real room. */
  lemma SendWindow(c: Chan)
    requires Inv(c) && c.sender.Ready?
    ensures Sub32(c.sendHead, c.sendTail) < c.size ==> |c.sent| - |c.delivered| < c.size
  {
    CachedValuesSafe(c);
  }

  /** The channel after the message has been stored in the sender's slot and the head advanced. */
  ghost function Stored(c: Chan, m: Msg): Chan
    requires c.size > 0 && SlotOf(c.sendHead, c.size) < |c.tbl|
  {
    c.(tbl := c.tbl[SlotOf(c.sendHead, c.size) := Slot(m.cmd + ParityOf(c.sendHead, c.size), m.payload)],
       sendHead := Inc32(c.sendHead),
       sent := c.sent + [m])
  }

  /** The fast path, taken without interference, is one append. */
  lemma FastSend(c: Chan, m: Msg)
    requires Inv(c) && c.sender.Ready? && m.cmd < PARITY && Sub32(c.sendHead, c.sendTail) < c.size
    ensures SlotOf(c.sendHead, c.size) < |c.tbl|
    ensures Inv(Stored(c, m))
  {
    StartKeeps(c, m);
    var c1 := StartSend(c, m);
    TargetIsNext(c1);
    PayloadKeeps(c1);
    PublishKeeps(WritePayload(c1));
    StoredForm(c, m);
  }

  lemma StoredForm(c: Chan, m: Msg)
    requires c.size > 0 && c.sender.Ready? && Sub32(c.sendHead, c.sendTail) < c.size && SlotOf(c.sendHead, c.size) < |c.tbl|
    ensures Publish(WritePayload(StartSend(c, m))) == Stored(c, m)
  {
  }

  lemma SlowStoredForm(c: Chan, m: Msg)
    requires c.size > 0 && c.sender == SlowFill(m) && SlotOf(c.sendHead, c.size) < |c.tbl|
    ensures Publish(WritePayload(c)) == Stored(c.(sender := Ready), m)
  {
  }

  /** The slow path, taken without interference: the assertion holds, and it fails exactly on a full channel. */
  lemma SlowSend(c: Chan, m: Msg)
    requires Inv(c) && c.sender.Ready? && m.cmd < PARITY && Sub32(c.sendHead, c.sendTail) >= c.size
    ensures Sub32(c.sendHead, c.sendTail) == c.size
    ensures var p := PollTail(c);
            && Inv(p) && Sub32(p.sendHead, p.sendTail) == |c.sent| - |c.delivered|
            && SlotOf(p.sendHead, p.size) < |p.tbl|
            && (Sub32(p.sendHead, p.sendTail) != p.size ==> Inv(Stored(p, m)))
  {
    StartKeeps(c, m);
    var c1 := StartSend(c, m);
    RefreshKeeps(c1);
    PolledLengthExact(c);
    PollKeeps(c);
    WrappedPosition(|c.sent|, c.size);
    var p := PollTail(c);
    if Sub32(p.sendHead, p.sendTail) != p.size {
      var c2 := RefreshTail(c1);
      PayloadKeeps(c2);
      PublishKeeps(WritePayload(c2));
      SlowStoredForm(c2, m);
      assert c2.(sender := Ready) == p;
    }
  }
}
