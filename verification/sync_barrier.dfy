/** Barriers (runtime/sync.c). */
module Barriers {
  import opened Collections

  datatype Barrier = Barrier(count: int, waiting: int, waiters: seq<nat>, arrivals: seq<nat>, rounds: seq<seq<nat>>)

  function Fresh(count: int): Barrier {
    Barrier(count, 0, [], [], [])
  }

  /** barrier_wait: true for the caller that releases the barrier; the others park. */
  function Wait(b: Barrier, t: nat): (Barrier, bool) {
    var b1 := b.(arrivals := b.arrivals + [t], waiting := b.waiting + 1);
    if b1.waiting >= b.count then
      (b1.(waiting := 0, waiters := [], rounds := b.rounds + [b.waiters + [t]]), true)
    else (b1.(waiters := b.waiters + [t]), false)
  }

  /** How many threads a round takes. */
  function Party(b: Barrier): nat {
    if b.count > 1 then b.count else 1
  }

  /** The rounds so far, then those waiting, are the threads in order of arrival, and every round is a full one. */
  ghost predicate Inv(b: Barrier) {
    && b.waiting == |b.waiters| < Party(b)
    && Concat(b.rounds) + b.waiters == b.arrivals
    && forall r :: r in b.rounds ==> |r| == Party(b)
  }

  lemma WaitKeeps(b: Barrier, t: nat)
    requires Inv(b)
    ensures Inv(Wait(b, t).0) && Wait(b, t).0.count == b.count
    ensures Wait(b, t).1 <==> |b.waiters| + 1 == Party(b)
    ensures Wait(b, t).1 <==> |Wait(b, t).0.rounds| == |b.rounds| + 1
  {
    var b' := Wait(b, t).0;
    if Wait(b, t).1 {
      var last := b.waiters + [t];
      ConcatSnoc(b.rounds, last);
      assert Concat(b.rounds) + last + [] == (Concat(b.rounds) + b.waiters) + [t];
    } else {
      assert Concat(b.rounds) + (b.waiters + [t]) == (Concat(b.rounds) + b.waiters) + [t];
    }
  }

  function After(b: Barrier, ts: seq<nat>): Barrier {
    if ts == [] then b else Wait(After(b, ts[..|ts| - 1]), ts[|ts| - 1]).0
  }

  lemma {:induction false} ConcatLength(rounds: seq<seq<nat>>, n: nat)
    requires forall r :: r in rounds ==> |r| == n
    ensures |Concat(rounds)| == |rounds| * n
  {
    if rounds != [] {
      ConcatLength(rounds[1..], n);
      assert rounds[0] in rounds;
      assert (|rounds| - 1) * n + n == |rounds| * n;
    }
  }

  /**
   * However many threads arrive, each round releases exactly the party, in order of arrival, and the number of rounds
   * is the number of full parties among the arrivals.
   */
  lemma {:induction false} RoundsExact(count: int, ts: seq<nat>)
    ensures var b := After(Fresh(count), ts);
            Inv(b) && b.arrivals == ts && b.count == count && |b.rounds| * Party(b) + |b.waiters| == |ts|
  {
    if ts != [] {
      var n := |ts| - 1;
      RoundsExact(count, ts[..n]);
      WaitKeeps(After(Fresh(count), ts[..n]), ts[n]);
      assert ts == ts[..n] + [ts[n]];
    }
    var b := After(Fresh(count), ts);
    ConcatLength(b.rounds, Party(b));
  }
}
