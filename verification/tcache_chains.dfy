/**
 * The item cache as it is in memory: magazines are chains threaded through the cached items' own headers, which
 * belong to the client while an item is outstanding.
 */
module TcacheChains {
  import opened Chains
  import opened Collections
  import opened Tcache

  /** The depot is a chain of magazines, linked through the second word of their first items. */
  function Heads(shared: seq<seq<nat>>): seq<nat>
    requires forall k :: 0 <= k < |shared| ==> shared[k] != []
  {
    seq(|shared|, k requires 0 <= k < |shared| => shared[k][0])
  }

  ghost predicate Depot(nextItem: seq<nat>, nextMag: seq<nat>, head: nat, shared: seq<seq<nat>>) {
    && (forall k :: 0 <= k < |shared| ==> shared[k] != [])
    && Chain(nextMag, head, Heads(shared))
    && forall k :: 0 <= k < |shared| ==> Chain(nextItem, shared[k][0], shared[k])
  }

  ghost predicate Handle(nextItem: seq<nat>, rounds: nat, loaded: nat, previous: nat, l: Local) {
    rounds == |l.loaded| && Chain(nextItem, loaded, l.loaded) && Chain(nextItem, previous, l.previous)
  }

  /* Where an item is, by the single-place invariant. */

  lemma {:induction false} DepotCounts(shared: seq<seq<nat>>, k: nat, x: nat)
    requires k < |shared|
    ensures Count(shared[k], x) <= InDepot(shared, x)
    decreases k
  {
    if k > 0 {
      DepotCounts(shared[1..], k - 1, x);
    }
  }

  ghost predicate Elsewhere(t: Cache, x: nat) {
    && (forall i :: 0 <= i < |t.locals| ==> x !in t.locals[i].loaded && x !in t.locals[i].previous)
    && (forall k :: 0 <= k < |t.shared| ==> x !in t.shared[k])
  }

  /** An item that is outstanding, or nowhere at all, is in no chain. */
  lemma OutsideChains(t: Cache, x: nat)
    requires Total(t, x) <= Count(t.live, x)
    ensures Elsewhere(t, x)
  {
    forall i | 0 <= i < |t.locals|
      ensures x !in t.locals[i].loaded && x !in t.locals[i].previous
    {
      SumPart(Weights(t, x), i);
      CountPositive(t.locals[i].loaded, x);
      CountPositive(t.locals[i].previous, x);
    }
    forall k | 0 <= k < |t.shared|
      ensures x !in t.shared[k]
    {
      DepotCounts(t.shared, k, x);
      CountPositive(t.shared[k], x);
    }
  }

  lemma LiveElsewhere(t: Cache, x: nat)
    requires Single(t) && x in t.live
    ensures Elsewhere(t, x) && x != 0
  {
    CountPositive(t.live, x);
    assert Total(t, x) <= 1 && Total(t, 0) == 0;
    OutsideChains(t, x);
  }

  /** An item of handle i's previous magazine is in no shared one. */
  lemma PreviousNotShared(t: Cache, i: nat, x: nat)
    requires Single(t) && i < |t.locals| && x in t.locals[i].previous
    ensures forall k :: 0 <= k < |t.shared| ==> x !in t.shared[k]
  {
    SumPart(Weights(t, x), i);
    CountPositive(t.locals[i].previous, x);
    assert Total(t, x) <= 1;
    forall k | 0 <= k < |t.shared|
      ensures x !in t.shared[k]
    {
      DepotCounts(t.shared, k, x);
      CountPositive(t.shared[k], x);
    }
  }

  lemma DepotPop(nextItem: seq<nat>, nextMag: seq<nat>, head: nat, shared: seq<seq<nat>>)
    requires Depot(nextItem, nextMag, head, shared) && shared != []
    ensures 0 < head < |nextMag| && Depot(nextItem, nextMag, nextMag[head], shared[1..])
    ensures Chain(nextItem, head, shared[0])
  {
    ChainPop(nextMag, head, Heads(shared));
    assert Heads(shared)[1..] == Heads(shared[1..]);
  }

  lemma DepotPush(nextItem: seq<nat>, nextMag: seq<nat>, head: nat, shared: seq<seq<nat>>, mag: seq<nat>)
    requires Depot(nextItem, nextMag, head, shared) && mag != [] && Chain(nextItem, mag[0], mag) && mag[0] < |nextMag|
    requires forall k :: 0 <= k < |shared| ==> mag[0] !in shared[k]
    ensures Depot(nextItem, nextMag[mag[0] := head], mag[0], [mag] + shared)
  {
    ChainPush(nextMag, head, Heads(shared), mag[0]);
    assert Heads([mag] + shared) == [mag[0]] + Heads(shared);
  }

  lemma DepotFrame(nextItem: seq<nat>, next': seq<nat>, nextMag: seq<nat>, mag': seq<nat>, head: nat, shared: seq<seq<nat>>)
    requires Depot(nextItem, nextMag, head, shared) && |next'| == |nextItem| && |mag'| == |nextMag|
    requires forall k, x :: 0 <= k < |shared| && x in shared[k] && x < |nextItem| ==> next'[x] == nextItem[x]
    requires forall k :: 0 <= k < |shared| && shared[k][0] < |nextMag| ==> mag'[shared[k][0]] == nextMag[shared[k][0]]
    ensures Depot(next', mag', head, shared)
  {
    forall k | 0 <= k < |shared|
      ensures Chain(next', shared[k][0], shared[k])
    {
      ChainFrame(nextItem, next', shared[k][0], shared[k]);
    }
  }

  /* The whole memory: headers, handles and the depot's head represent the abstract cache. */

  datatype Memory = Memory(
    nextItem: seq<nat>,
    nextMag: seq<nat>,
    rounds: seq<nat>,
    loaded: seq<nat>,
    previous: seq<nat>,
    shared: nat)

  ghost predicate Represents(m: Memory, t: Cache) {
    && |m.rounds| == |m.loaded| == |m.previous| == |t.locals| && |m.nextMag| == |m.nextItem|
    && (forall i :: 0 <= i < |t.locals| ==> Handle(m.nextItem, m.rounds[i], m.loaded[i], m.previous[i], t.locals[i]))
    && Depot(m.nextItem, m.nextMag, m.shared, t.shared)
  }

  /** The common end of allocation: hand out the head of a chain. */
  function Popped(m: Memory, i: nat, head: nat, previous: nat, n: nat): Memory
    requires i < |m.rounds| && i < |m.loaded| && i < |m.previous| && head < |m.nextItem|
  {
    m.(rounds := m.rounds[i := n], loaded := m.loaded[i := m.nextItem[head]], previous := m.previous[i := previous])
  }

  lemma TakeRepresents(m: Memory, t: Cache, i: nat, head: nat, mag: seq<nat>, ph: nat, previous: seq<nat>)
    requires Represents(m, t) && i < |t.locals|
    requires mag != [] && Chain(m.nextItem, head, mag) && Chain(m.nextItem, ph, previous)
    ensures 0 < head < |m.nextItem|
    ensures Represents(Popped(m, i, head, ph, |mag| - 1), Take(t, i, mag, previous).0)
  {
    ChainPop(m.nextItem, head, mag);
  }

  lemma SharedRepresents(m: Memory, t: Cache)
    requires Represents(m, t) && t.shared != []
    ensures 0 < m.shared < |m.nextMag| && Chain(m.nextItem, m.shared, t.shared[0])
    ensures Represents(m.(shared := m.nextMag[m.shared]), t.(shared := t.shared[1..]))
  {
    DepotPop(m.nextItem, m.nextMag, m.shared, t.shared);
  }

  /** Headers of items that are in no chain may change freely. */
  lemma HeadersFrame(m: Memory, t: Cache, next': seq<nat>, mag': seq<nat>)
    requires Represents(m, t) && |next'| == |m.nextItem| && |mag'| == |m.nextMag|
    requires forall x :: 0 <= x < |m.nextItem| && !Elsewhere(t, x) ==> next'[x] == m.nextItem[x] && mag'[x] == m.nextMag[x]
    ensures Represents(m.(nextItem := next', nextMag := mag'), t)
  {
    forall i | 0 <= i < |t.locals|
      ensures Handle(next', m.rounds[i], m.loaded[i], m.previous[i], t.locals[i])
    {
      var l := t.locals[i];
      forall k | 0 <= k < |l.loaded|
        ensures next'[l.loaded[k]] == m.nextItem[l.loaded[k]]
      {
        assert !Elsewhere(t, l.loaded[k]);
      }
      forall k | 0 <= k < |l.previous|
        ensures next'[l.previous[k]] == m.nextItem[l.previous[k]]
      {
        assert !Elsewhere(t, l.previous[k]);
      }
      ChainFrame(m.nextItem, next', m.loaded[i], l.loaded);
      ChainFrame(m.nextItem, next', m.previous[i], l.previous);
    }
    forall k, x | 0 <= k < |t.shared| && x in t.shared[k] && x < |m.nextItem|
      ensures next'[x] == m.nextItem[x] && mag'[x] == m.nextMag[x]
    {
      assert !Elsewhere(t, x);
    }
    DepotFrame(m.nextItem, next', m.nextMag, mag', m.shared, t.shared);
  }

  /** The common end of freeing: item x becomes the head of handle i's loaded chain. */
  function Pushed(m: Memory, i: nat, x: nat, head: nat, previous: nat, n: nat): Memory
    requires i < |m.rounds| && i < |m.loaded| && i < |m.previous| && x < |m.nextItem|
  {
    m.(nextItem := m.nextItem[x := head], rounds := m.rounds[i := n], loaded := m.loaded[i := x],
       previous := m.previous[i := previous])
  }

  lemma PutRepresents(m: Memory, t: Cache, i: nat, x: nat, head: nat, tail: seq<nat>, ph: nat, previous: seq<nat>)
    requires Represents(m, t) && i < |t.locals| && 0 < x < |m.nextItem| && Elsewhere(t, x)
    requires Chain(m.nextItem, head, tail) && Chain(m.nextItem, ph, previous) && x !in tail && x !in previous
    ensures Represents(Pushed(m, i, x, head, ph, |tail| + 1), Put(t, i, Local([x] + tail, previous)))
  {
    var next' := m.nextItem[x := head];
    HeadersFrame(m, t, next', m.nextMag);
    ChainPush(m.nextItem, head, tail, x);
    ChainFrame(m.nextItem, next', ph, previous);
  }

  /** A full previous magazine joins the depot. */
  lemma ReturnRepresents(m: Memory, t: Cache, i: nat)
    requires Represents(m, t) && Single(t) && i < |t.locals| && t.locals[i].previous != []
    ensures var mag := t.locals[i].previous;
            m.previous[i] == mag[0] < |m.nextMag|
            && Represents(m.(nextMag := m.nextMag[mag[0] := m.shared], shared := mag[0]), t.(shared := [mag] + t.shared))
  {
    var mag := t.locals[i].previous;
    PreviousNotShared(t, i, mag[0]);
    DepotPush(m.nextItem, m.nextMag, m.shared, t.shared, mag);
  }
}
