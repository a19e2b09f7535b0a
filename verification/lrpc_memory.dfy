/**
 * What the channel does on the memory it is created on, which the init functions do not clear (base/lrpc.c): it is a
 * FIFO in every run exactly if every parity bit and the write-back word were clear.
 */
module LrpcMemory {
  import opened Wrapping
  import opened Lrpc
  import opened LrpcProof

  /** Some run leads from c0 to c. */
  ghost predicate Reaches(c0: Chan, c: Chan) {
    exists chans, steps :: RunTo(chans, steps, c0, c)
  }

  ghost predicate RunTo(chans: seq<Chan>, steps: seq<Step>, c0: Chan, c: Chan) {
    Run(chans, steps) && chans[0] == c0 && chans[|steps|] == c
  }

  lemma Start(c: Chan)
    ensures Reaches(c, c)
  {
    assert RunTo([c], [], c, c);
  }

  lemma Extend(c0: Chan, c: Chan, a: Step)
    requires Reaches(c0, c) && Enabled(c, a) && Sound(c, a)
    ensures Reaches(c0, Apply(c, a))
  {
    var chans, steps :| RunTo(chans, steps, c0, c);
    var c' := Apply(c, a);
    forall i | 0 <= i < |steps + [a]|
      ensures Enabled((chans + [c'])[i], (steps + [a])[i])
      ensures Sound((chans + [c'])[i], (steps + [a])[i]) ==> (chans + [c'])[i + 1] == Apply((chans + [c'])[i], (steps + [a])[i])
    {
      if i < |steps| {
        assert (chans + [c'])[i] == chans[i] && (chans + [c'])[i + 1] == chans[i + 1] && (steps + [a])[i] == steps[i];
      } else {
        assert (chans + [c'])[i] == c && (chans + [c'])[i + 1] == c' && (steps + [a])[i] == a;
      }
    }
    assert RunTo(chans + [c'], steps + [a], c0, c');
  }

  /* A run that only sends: the first n messages go through the fast path whatever the memory held. */

  ghost predicate Filled(c: Chan, size: nat, tbl: seq<Slot>, writeBack: nat, n: nat) {
    && 0 < size < WRAP && |tbl| == size && n <= size
    && c == Chan(size, c.tbl, writeBack, n, 0, 0, Ready, Waiting, c.sent, [], 0)
    && |c.tbl| == size && |c.sent| == n
    && (forall j :: 0 <= j < n ==> c.tbl[j] == Slot(PARITY, 0) && c.sent[j] == Msg(0, 0))
    && (forall j :: n <= j < size ==> c.tbl[j] == tbl[j])
  }

  lemma SendOne(c: Chan, size: nat, tbl: seq<Slot>, writeBack: nat, n: nat) returns (c3: Chan)
    requires Filled(c, size, tbl, writeBack, n) && n < size
    ensures Reaches(c, c3) && Filled(c3, size, tbl, writeBack, n + 1)
  {
    Unique(n, size, 0, n);
    Start(c);
    var c1 := StartSend(c, Msg(0, 0));
    assert c1 == c.(sender := FastFill(Msg(0, 0), n, PARITY), sendHead := n + 1);
    Extend(c, c, DoStart(Msg(0, 0)));
    var c2 := WritePayload(c1);
    Extend(c, c1, DoPayload);
    c3 := Publish(c2);
    Extend(c, c2, DoPublish);
    assert c3.tbl == c.tbl[n := Slot(PARITY, 0)];
  }

  lemma Through(a: Chan, b: Chan, c: Chan)
    requires Reaches(a, b) && Reaches(b, c)
    ensures Reaches(a, c)
  {
    var xs, us :| RunTo(xs, us, a, b);
    var ys, vs :| RunTo(ys, vs, b, c);
    var zs, ws := xs + ys[1..], us + vs;
    forall i | 0 <= i < |ws|
      ensures Enabled(zs[i], ws[i]) && (Sound(zs[i], ws[i]) ==> zs[i + 1] == Apply(zs[i], ws[i]))
    {
      if i < |us| {
        assert zs[i] == xs[i] && zs[i + 1] == xs[i + 1] && ws[i] == us[i];
      } else {
        assert zs[i] == ys[i - |us|] && zs[i + 1] == ys[i - |us| + 1] && ws[i] == vs[i - |us|];
      }
    }
    assert RunTo(zs, ws, a, c);
  }

  lemma {:induction false} SendMany(size: nat, tbl: seq<Slot>, writeBack: nat, n: nat) returns (c: Chan)
    requires 0 < size < WRAP && |tbl| == size && n <= size
    ensures Reaches(Init(size, tbl, writeBack), c) && Filled(c, size, tbl, writeBack, n)
  {
    if n == 0 {
      c := Init(size, tbl, writeBack);
      Start(c);
    } else {
      var b := SendMany(size, tbl, writeBack, n - 1);
      c := SendOne(b, size, tbl, writeBack, n - 1);
      Through(Init(size, tbl, writeBack), b, c);
    }
  }

  /* A dirty parity bit: the receiver takes the slot for a message. */

  /** r messages were received from a table whose first m slots have the parity bit of the first lap. */
  ghost predicate Drained(c: Chan, size: nat, sent: seq<Msg>, m: nat, r: nat) {
    && 0 < size < WRAP && |c.tbl| == c.size == size && r <= m <= size && c.sent == sent
    && c.receiver.Waiting? && c.recvHead == r && |c.delivered| == r
    && forall j :: 0 <= j < m ==> c.tbl[j].word >= PARITY
  }

  lemma ReceiveOne(c: Chan, size: nat, sent: seq<Msg>, m: nat, r: nat) returns (c3: Chan)
    requires Drained(c, size, sent, m, r) && r < m
    ensures Reaches(c, c3) && Drained(c3, size, sent, m, r + 1)
  {
    Unique(r, size, 0, r);
    Start(c);
    var c1 := LoadCmd(c);
    assert c1.receiver.Loaded? && c1.receiver.slot == r && c1.recvHead == r + 1;
    Extend(c, c, DoLoad);
    var c2 := ReadPayload(c1);
    Extend(c, c1, DoRead);
    c3 := WriteBack(c2);
    Extend(c, c2, DoWriteBack);
  }

  lemma {:induction false} ReceiveMany(c: Chan, size: nat, sent: seq<Msg>, m: nat, r: nat) returns (c': Chan)
    requires Drained(c, size, sent, m, 0) && r <= m
    ensures Reaches(c, c') && Drained(c', size, sent, m, r)
  {
    if r == 0 {
      c' := c;
      Start(c);
    } else {
      var b := ReceiveMany(c, size, sent, m, r - 1);
      c' := ReceiveOne(b, size, sent, m, r - 1);
      Through(c, b, c');
    }
  }

  /** If any slot's parity bit was set, some run delivers more messages than were sent. */
  lemma DirtySlotDelivers(size: nat, tbl: seq<Slot>, writeBack: nat, j: nat) returns (c: Chan)
    requires 0 < size < WRAP && |tbl| == size && j < size && tbl[j].word >= PARITY
    ensures Reaches(Init(size, tbl, writeBack), c) && |c.delivered| > |c.sent|
  {
    var b := SendMany(size, tbl, writeBack, j);
    assert Drained(b, size, b.sent, j + 1, 0);
    c := ReceiveMany(b, size, b.sent, j + 1, j + 1);
    Through(Init(size, tbl, writeBack), b, c);
  }

  /* A non-zero write-back word: the sender takes a full table for one with room. */

  lemma WrongRoom(size: nat, writeBack: nat)
    requires 0 < size < WRAP && 0 < writeBack < WRAP
    ensures Sub32(size, writeBack) != size && Sub32(size, 0) == size
  {
    if size < writeBack {
      Unique(size - writeBack, WRAP, -1, size - writeBack + WRAP);
    } else {
      Unique(size - writeBack, WRAP, 0, size - writeBack);
    }
    Unique(size, WRAP, 0, size);
  }

  /** If the write-back word was not zero, some run overwrites an unread message and delivers it altered. */
  lemma DirtyWriteBackDelivers(size: nat, tbl: seq<Slot>, writeBack: nat) returns (c: Chan)
    requires 0 < size < WRAP && |tbl| == size && 0 < writeBack < WRAP
    ensures Reaches(Init(size, tbl, writeBack), c) && |c.sent| > 0 && c.delivered == [Msg(0, 1)] && c.sent[0] == Msg(0, 0)
  {
    var b := SendMany(size, tbl, writeBack, size);
    Unique(0, size, 0, 0);
    Unique(size, size, 1, 0);
    WrongRoom(size, writeBack);
    Start(b);
    var c1 := LoadCmd(b);
    assert c1 == b.(receiver := Loaded(0, 0), recvHead := 1);
    Extend(b, b, DoLoad);
    c := OverwriteThenRead(c1, size);
    Through(b, c1, c);
    Through(Init(size, tbl, writeBack), b, c);
  }

  lemma OverwriteThenRead(c1: Chan, size: nat) returns (c: Chan)
    requires c1.size == size > 0 && |c1.tbl| == size && SlotOf(size, size) == 0
    requires c1.sendHead == size && c1.sendTail == 0 && c1.sender.Ready? && c1.receiver == Loaded(0, 0) && c1.delivered == []
    requires Sub32(size, c1.writeBack) != size && Sub32(size, 0) == size
    ensures Reaches(c1, c) && c.sent == c1.sent && c.delivered == [Msg(0, 1)]
  {
    Start(c1);
    var c2 := StartSend(c1, Msg(0, 1));
    Extend(c1, c1, DoStart(Msg(0, 1)));
    var c3 := RefreshTail(c2);
    Extend(c1, c2, DoRefresh);
    var c4 := WritePayload(c3);
    Extend(c1, c3, DoPayload);
    var c5 := ReadPayload(c4);
    Extend(c1, c4, DoRead);
    c := WriteBack(c5);
    Extend(c1, c5, DoWriteBack);
  }

  /* The exact condition. */

  /** The run delivers a prefix of what was sent at every moment, and every step is defined. */
  ghost predicate Fifo(chans: seq<Chan>, steps: seq<Step>)
    requires |chans| == |steps| + 1
  {
    && (forall n :: 0 <= n < |chans| ==> chans[n].delivered <= chans[n].sent)
    && (forall n :: 0 <= n < |steps| ==> Sound(chans[n], steps[n]))
  }

  /** Every run from c0 is a FIFO. */
  ghost predicate AlwaysFifo(c0: Chan) {
    forall chans, steps :: Run(chans, steps) && chans[0] == c0 ==> Fifo(chans, steps)
  }

  lemma NotFifo(c0: Chan, c: Chan)
    requires Reaches(c0, c) && !(c.delivered <= c.sent)
    ensures !AlwaysFifo(c0)
  {
    var chans, steps :| RunTo(chans, steps, c0, c);
    assert Run(chans, steps) && chans[0] == c0 && !Fifo(chans, steps);
  }

  /**
   * A channel on memory as it is found behaves as a FIFO in every run if and only if all parity bits and the
   * write-back word were clear.
   */
  lemma InitialMemoryExact(size: nat, tbl: seq<Slot>, writeBack: nat)
    requires IsPow2(size) && size < WRAP && |tbl| == size && writeBack < WRAP
    ensures AlwaysFifo(Init(size, tbl, writeBack)) <==> Clean(tbl, writeBack)
  {
    var c0 := Init(size, tbl, writeBack);
    if Clean(tbl, writeBack) {
      forall chans: seq<Chan>, steps: seq<Step> | Run(chans, steps) && chans[0] == c0
        ensures Fifo(chans, steps)
      {
        forall n | 0 <= n < |chans|
          ensures chans[n].delivered <= chans[n].sent && (n < |steps| ==> Sound(chans[n], steps[n]))
        {
          RunRefinesFifo(chans, steps, n);
        }
      }
    } else if writeBack != 0 {
      var c := DirtyWriteBackDelivers(size, tbl, writeBack);
      NotFifo(c0, c);
    } else {
      var j :| 0 <= j < |tbl| && tbl[j].word >= PARITY;
      var c := DirtySlotDelivers(size, tbl, writeBack, j);
      NotFifo(c0, c);
    }
  }
}
