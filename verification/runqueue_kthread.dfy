/** A kthread's run queue as the runtime updates it in place, each operation running without interruption. */
module RunQueueKthread {
  import opened Wrapping
  import opened RunQueue
  import opened RunQueueProof

  /** thread_ready from start to end. */
  function Push(r: Ring, th: nat): Ring
    requires |r.rq| == RQ_SIZE
  {
    var r1 := StartPush(r, th);
    if r1.owner.Spilling? then Spill(r1) else CountPush(PublishHead(Fill(r1)))
  }

  function CopyRest(r: Ring): Ring
    requires |r.rq| == RQ_SIZE && r.thief.Copying?
    ensures CopyRest(r).thief.Copying?
    decreases r.thief.n - |r.thief.got|
  {
    if |r.thief.got| < r.thief.n then CopyRest(CopyOne(r)) else r
  }

  /** The victim's side of steal_work from start to end. */
  function Robbed(r: Ring): Ring
    requires |r.rq| == RQ_SIZE
  {
    var r1 := LoadHead(Lock(r));
    if r1.thief.Copying? then FinishSteal(CommitTail(CopyRest(r1))) else TakeOverflow(r1)
  }

  /** What the thief brings home. */
  ghost function Loot(r: Ring): seq<nat>
    requires r.taken <= |r.log|
  {
    if Window(r) != [] then Window(r)[..DivUp2(|Window(r)|)]
    else if r.overflow != [] then [r.overflow[0]]
    else []
  }

  lemma {:induction false} CopyRestReads(r: Ring)
    requires Inv(r) && r.thief.Copying?
    ensures Inv(CopyRest(r))
    ensures CopyRest(r) == r.(thief := Copying(r.thief.avail, r.thief.n, r.log[r.taken..r.taken + r.thief.n]))
    decreases r.thief.n - |r.thief.got|
  {
    if |r.thief.got| < r.thief.n {
      CopyKeeps(r);
      CopyRestReads(CopyOne(r));
    }
  }

  /** The victim after the oldest n threads left its ring. */
  ghost function Shorter(r: Ring, n: nat): Ring {
    r.(tail := (r.tail + n) % WRAP, qTail := (r.qTail + n) % WRAP, taken := r.taken + n)
  }

  lemma CommittedShorter(r: Ring, r2: Ring, n: nat)
    requires r.thief.Away? && r2.thief.Copying? && r2.thief.n == n && r == r2.(thief := Away)
    ensures FinishSteal(CommitTail(r2)) == Shorter(r, n)
  {
  }

  lemma CommitFinishKeeps(r2: Ring)
    requires Inv(r2) && r2.thief.Copying? && |r2.thief.got| == r2.thief.n
    ensures Inv(FinishSteal(CommitTail(r2)))
  {
    CommitKeeps(r2);
    FinishKeeps(CommitTail(r2));
  }

  lemma RobbedRing(r: Ring, r1: Ring)
    requires Inv(r) && r.thief.Away? && Window(r) != []
    requires r1 == r.(thief := Copying(|Window(r)|, DivUp2(|Window(r)|), []))
    ensures FinishSteal(CommitTail(CopyRest(r1))) == Shorter(r, DivUp2(|Window(r)|))
    ensures Inv(Shorter(r, DivUp2(|Window(r)|)))
  {
    CopyRestReads(r1);
    CommittedShorter(r, CopyRest(r1), r1.thief.n);
    CommitFinishKeeps(CopyRest(r1));
  }

  /** An undisturbed steal removes exactly the loot: the oldest half of the ring, or one overflow thread. */
  lemma RobbedExact(r: Ring)
    requires Inv(r) && r.thief.Away?
    ensures Inv(Robbed(r))
    ensures Window(r) != [] ==> Robbed(r) == Shorter(r, DivUp2(|Window(r)|))
    ensures Window(r) == [] && r.overflow != [] ==> Robbed(r) == r.(overflow := r.overflow[1..])
    ensures Window(r) == [] && r.overflow == [] ==> Robbed(r) == r
    ensures Loot(r) + Window(Robbed(r)) + Robbed(r).overflow == Window(r) + r.overflow
    ensures Window(r) != [] ==> |Window(r)| <= 2 * |Loot(r)| <= |Window(r)| + 1
  {
    LengthExact(r);
    if Window(r) != [] {
      RobbedRing(r, LoadHead(Lock(r)));
    }
  }

  class RunQueueObject {
    const rq: array<nat>
    var head: nat
    var tail: nat
    var overflow: seq<nat>
    var qHead: nat
    var qTail: nat
    ghost var log: seq<nat>
    ghost var taken: nat
    ghost var base: nat

    ghost function View(): Ring
      reads this, rq
    {
      Ring(rq[..], head, tail, overflow, qHead, qTail, Free, Away, log, taken, base)
    }

    ghost predicate Valid()
      reads this, rq
    {
      Inv(View())
    }

    constructor ()
      ensures Valid() && fresh(rq) && Window(View()) == [] && overflow == []
    {
      rq := new nat[RQ_SIZE];
      head, tail, overflow, qHead, qTail := 0, 0, [], 0, 0;
      log, taken, base := [], 0, 0;
    }

    /** thread_ready: append to the ring, or to the overflow list when the ring is full. */
    method Ready(th: nat)
      requires Valid()
      modifies this, rq
      ensures Valid() && View() == Push(old(View()), th)
      ensures if |old(Window(View()))| < RQ_SIZE
              then Window(View()) == old(Window(View())) + [th] && overflow == old(overflow)
              else Window(View()) == old(Window(View())) && overflow == old(overflow) + [th]
    {
      ghost var r := View();
      LengthExact(r);
      StartKeeps(r, th);
      if Sub32(head, tail) >= RQ_SIZE {
        overflow := overflow + [th];
      } else {
        ghost var r1 := StartPush(r, th);
        FillKeeps(r1);
        PublishKeeps(Fill(r1));
        CountKeeps(PublishHead(Fill(r1)));
        rq[head % RQ_SIZE] := th;
        head := Inc32(head);
        log := log + [th];
        qHead := Inc32(qHead);
      }
    }

    /** The pop of schedule and of enter_schedule. */
    method TakeNext() returns (th: nat)
      requires Valid() && head != tail
      modifies this
      ensures Valid() && View() == Pop(old(View()))
      ensures old(Window(View())) == [th] + Window(View())
    {
      PopKeeps(View());
      th := rq[tail % RQ_SIZE];
      tail := Inc32(tail);
      qTail := Inc32(qTail);
      taken := taken + 1;
    }

    method DrainOverflow()
      requires Valid()
      modifies this, rq
      ensures Valid() && View() == Drain(old(View()))
      ensures Window(View()) + overflow == old(Window(View()) + overflow)
      ensures overflow == [] || |Window(View())| == RQ_SIZE
    {
      DrainKeeps(View());
      while Sub32(head, tail) < RQ_SIZE && overflow != []
        invariant Valid() && Drain(View()) == Drain(old(View()))
        decreases |overflow|
      {
        ghost var r := View();
        DrainOneKeeps(r);
        rq[head % RQ_SIZE] := overflow[0];
        head := Inc32(head);
        qHead := Inc32(qHead);
        log := log + [overflow[0]];
        overflow := overflow[1..];
        assert View() == DrainOne(r);
      }
    }

    /** The copy loop of steal_work: the oldest n threads of the victim go to the front of this ring's slots. */
    method CopyFrom(victim: RunQueueObject, n: nat)
      requires victim.Valid() && rq.Length == RQ_SIZE && n <= |Window(victim.View())|
      requires victim.rq != rq
      modifies rq
      ensures rq[..] == old(Window(victim.View()))[..n] + old(rq[..])[n..]
    {
      ghost var v := victim.View();
      var pos := victim.tail;
      var i := 0;
      while i < n
        invariant i <= n && victim.View() == v
        invariant pos == (victim.tail + i) % WRAP
        invariant forall k :: 0 <= k < i ==> rq[k] == Window(v)[k]
        invariant forall k :: i <= k < RQ_SIZE ==> rq[k] == old(rq[..])[k]
      {
        ReadSlot(v, i);
        WrappedIncrement(victim.tail + i);
        rq[i] := victim.rq[pos % RQ_SIZE];
        pos := Inc32(pos);
        i := i + 1;
      }
    }

    /** Keep the loot: the new threads of a ring that was empty and reset. */
    method Keep(ghost loot: seq<nat>, n: nat)
      requires View().base <= taken == |log| && head == tail == 0 && n == |loot| <= RQ_SIZE / 2
      requires rq.Length == RQ_SIZE && loot <= rq[..]
      modifies this
      ensures View() == Accept(old(View()), loot)
    {
      head := n;
      qHead := (qHead + n) % WRAP;
      log := log + loot;
      assert rq[..] == loot + rq[..][n..];
    }

    /** Drop the n oldest threads, which a thief has copied. */
    method GiveUp(n: nat)
      modifies this
      ensures View() == Shorter(old(View()), n)
    {
      tail := (tail + n) % WRAP;
      qTail := (qTail + n) % WRAP;
      taken := taken + n;
    }

    /** steal_work with the victim's lock held: half its ring rounded up, else one overflow thread. */
    method StealFrom(victim: RunQueueObject) returns (ok: bool)
      requires Valid() && victim.Valid() && head == tail == 0
      requires victim != this && victim.rq != rq
      modifies this, rq, victim
      ensures Valid() && victim.Valid()
      ensures victim.View() == Robbed(old(victim.View()))
      ensures Window(View()) == Loot(old(victim.View())) && ok == (Window(View()) != [])
      ensures Window(View()) + Window(victim.View()) + victim.overflow == old(Window(victim.View()) + victim.overflow)
      ensures overflow == old(overflow)
    {
      ghost var r, v := View(), victim.View();
      ghost var loot := Loot(v);
      LengthExact(v);
      RobbedExact(v);
      AcceptKeeps(r, loot);
      var avail := Sub32(victim.head, victim.tail);
      if avail != 0 {
        var n := DivUp2(avail);
        CopyFrom(victim, n);
        AcceptIgnores(r, View(), loot);
        Keep(loot, n);
        victim.GiveUp(n);
        return true;
      }
      if victim.overflow == [] {
        return false;
      }
      rq[head] := victim.overflow[0];
      AcceptIgnores(r, View(), loot);
      Keep(loot, 1);
      victim.overflow := victim.overflow[1..];
      return true;
    }

    /** The drain loop of join_kthread, with its plain comparison. */
    method CollectRing() returns (ths: seq<nat>)
      requires rq.Length == RQ_SIZE && qTail < WRAP
      modifies this`tail, this`qTail
      ensures ths == JoinTakes(old(View())) && qTail == (old(qTail) + |ths|) % WRAP
    {
      ghost var r := View();
      ths := [];
      while tail < head
        invariant tail == r.tail + |ths| && (tail <= head || ths == [])
        invariant forall i :: 0 <= i < |ths| ==> ths[i] == r.rq[Slot(r.tail + i)]
        invariant qTail == (r.qTail + |ths|) % WRAP
      {
        WrappedIncrement(r.qTail + |ths|);
        ths := ths + [rq[tail % RQ_SIZE]];
        tail := tail + 1;
        qTail := Inc32(qTail);
      }
      assert ths == JoinTakes(r);
    }

    /** join_kthread's draining: it collects everything unless the head has wrapped past the tail. */
    method Surrender() returns (ths: seq<nat>)
      requires Valid()
      modifies this
      ensures View() == Join(old(View()))
      ensures old(tail <= head) ==> Valid() && ths == old(Window(View()) + overflow)
      ensures old(tail > head) ==> ths == old(overflow) && old(Window(View())) != []
    {
      ghost var r := View();
      Surrendered(r);
      ths := CollectRing();
      head, tail := 0, 0;
      taken := taken + |ths|;
      base := |log|;
      ths := ths + overflow;
      overflow := [];
    }
  }

  lemma Surrendered(r: Ring)
    requires Inv(r) && r.owner.Free? && r.thief.Away?
    ensures r.qTail < WRAP
    ensures r.tail <= r.head ==> Inv(Join(r)) && JoinTakes(r) == Window(r)
    ensures r.tail > r.head ==> JoinTakes(r) == [] && Window(r) != []
  {
    LengthExact(r);
    if r.tail <= r.head {
      JoinKeeps(r);
    }
  }

  /** The slots a ring had before it keeps its loot do not matter where the loot overwrites them. */
  lemma AcceptIgnores(r: Ring, q: Ring, loot: seq<nat>)
    requires |loot| <= |r.rq| && q == r.(rq := loot + r.rq[|loot|..])
    ensures Accept(q, loot) == Accept(r, loot)
  {
    assert q.rq[|loot|..] == r.rq[|loot|..];
  }
}
