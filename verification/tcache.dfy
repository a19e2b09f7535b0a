/**
 * The per-thread item cache (base/tcache.c, inc/base/tcache.h): magazines of `cap` items, two per handle and a shared
 * depot of full ones, over a backing store. Here a magazine is the sequence of its items.
 */
module Tcache {
  import opened Collections

  datatype Local = Local(loaded: seq<nat>, previous: seq<nat>)

  datatype Cache = Cache(
    cap: nat,
    locals: seq<Local>,
    shared: seq<seq<nat>>,
    live: seq<nat>,
    mags: nat)

  /** tcache_alloc on handle i; `supply` is what the backing store would hand out. */
  function Alloc(t: Cache, i: nat, supply: Option<seq<nat>>): (Cache, Option<nat>)
    requires i < |t.locals|
    requires t.cap > 0 && (supply.Some? ==> |supply.value| == t.cap)
    requires t.shared != [] ==> t.shared[0] != []
  {
    var l := t.locals[i];
    if l.loaded != [] then Take(t, i, l.loaded, l.previous)
    else if l.previous != [] then Take(t, i, l.previous, [])
    else if t.shared != [] then Take(t.(shared := t.shared[1..]), i, t.shared[0], [])
    else if supply.Some? then Take(t.(mags := t.mags + 1), i, supply.value, [])
    else (t, None)
  }

  /** Hand out the first item of a magazine and keep the rest loaded. */
  function Take(t: Cache, i: nat, mag: seq<nat>, previous: seq<nat>): (Cache, Option<nat>)
    requires i < |t.locals| && mag != []
  {
    (t.(locals := t.locals[i := Local(mag[1..], previous)], live := t.live + [mag[0]]), Some(mag[0]))
  }

  /** tcache_free of the k-th outstanding item to handle i. */
  function Free(t: Cache, i: nat, k: nat): Cache
    requires i < |t.locals| && k < |t.live|
  {
    var l := t.locals[i];
    var t1 := t.(live := t.live[..k] + t.live[k + 1..]);
    if |l.loaded| < t.cap then Put(t1, i, Local([t.live[k]] + l.loaded, l.previous))
    else if l.previous == [] then Put(t1, i, Local([t.live[k]], l.loaded))
    else Put(t1.(shared := [l.previous] + t.shared), i, Local([t.live[k]], l.loaded))
  }

  function Put(t: Cache, i: nat, l: Local): Cache
    requires i < |t.locals|
  {
    t.(locals := t.locals[i := l])
  }

  /** tcache_reclaim: the depot's magazines go back to the backing store. */
  function Reclaim(t: Cache): Cache {
    t.(shared := [], mags := if |t.shared| <= t.mags then t.mags - |t.shared| else 0)
  }

  /* What every operation keeps. */

  ghost predicate Shaped(t: Cache) {
    && t.cap > 0
    && (forall i :: 0 <= i < |t.locals| ==> |t.locals[i].loaded| <= t.cap)
    && (forall i :: 0 <= i < |t.locals| ==> t.locals[i].previous == [] || |t.locals[i].previous| == t.cap)
    && (forall m :: m in t.shared ==> |m| == t.cap)
  }

  /** How often item x occurs in the cache and outside it. */
  function Weight(l: Local, x: nat): nat {
    Count(l.loaded, x) + Count(l.previous, x)
  }

  function Weights(t: Cache, x: nat): seq<nat> {
    seq(|t.locals|, i requires 0 <= i < |t.locals| => Weight(t.locals[i], x))
  }

  function InDepot(shared: seq<seq<nat>>, x: nat): nat {
    if shared == [] then 0 else Count(shared[0], x) + InDepot(shared[1..], x)
  }

  function Total(t: Cache, x: nat): nat {
    SumOf(Weights(t, x)) + InDepot(t.shared, x) + Count(t.live, x)
  }

  /** No item is null and none is in two places or twice in one: all chains are disjoint and without repetition. */
  ghost predicate Single(t: Cache) {
    Total(t, 0) == 0 && forall x :: Total(t, x) <= 1
  }

  function Sizes(t: Cache): seq<nat> {
    seq(|t.locals|, i requires 0 <= i < |t.locals| => |t.locals[i].loaded| + |t.locals[i].previous|)
  }

  function Cached(t: Cache): nat {
    SumOf(Sizes(t)) + |t.shared| * t.cap
  }

  /** Outstanding plus cached items make up exactly the magazines taken from the backing store. */
  ghost predicate Balanced(t: Cache) {
    |t.live| + Cached(t) == t.mags * t.cap
  }

  ghost predicate Inv(t: Cache) {
    Shaped(t) && Single(t) && Balanced(t)
  }

  /** The backing store hands out items that are nowhere in the cache, each once. */
  ghost predicate FreshSupply(t: Cache, supply: Option<seq<nat>>) {
    supply.Some? ==>
      && |supply.value| == t.cap
      && forall x :: Count(supply.value, x) > 0 ==> x != 0 && Count(supply.value, x) == 1 && Total(t, x) == 0
  }

  /* Replacing one handle. */

  lemma PutTotals(t: Cache, i: nat, l: Local, x: nat)
    requires i < |t.locals|
    ensures Total(Put(t, i, l), x) + Weight(t.locals[i], x) == Total(t, x) + Weight(l, x)
    ensures SumOf(Sizes(Put(t, i, l))) + |t.locals[i].loaded| + |t.locals[i].previous|
            == SumOf(Sizes(t)) + |l.loaded| + |l.previous|
  {
    SumUpdate(Weights(t, x), i, Weight(l, x));
    assert Weights(Put(t, i, l), x) == Weights(t, x)[i := Weight(l, x)];
    SumUpdate(Sizes(t), i, |l.loaded| + |l.previous|);
    assert Sizes(Put(t, i, l)) == Sizes(t)[i := |l.loaded| + |l.previous|];
  }

  /** Changing depot, outstanding items or magazine count leaves the handles' sums alone. */
  lemma SameHandles(t: Cache, t': Cache, x: nat)
    requires t.locals == t'.locals
    ensures SumOf(Weights(t', x)) == SumOf(Weights(t, x)) && SumOf(Sizes(t')) == SumOf(Sizes(t))
  {
    assert Weights(t', x) == Weights(t, x);
    assert Sizes(t') == Sizes(t);
  }

  lemma HeadCount(mag: seq<nat>, x: nat)
    requires mag != []
    ensures Count([mag[0]], x) + Count(mag[1..], x) == Count(mag, x)
  {
    CountAppend([mag[0]], mag[1..], x);
    assert mag == [mag[0]] + mag[1..];
  }

  lemma TakeTotals(t: Cache, i: nat, mag: seq<nat>, previous: seq<nat>, x: nat)
    requires i < |t.locals| && mag != []
    ensures Total(Take(t, i, mag, previous).0, x) + Weight(t.locals[i], x) == Total(t, x) + Count(mag, x) + Count(previous, x)
    ensures SumOf(Sizes(Take(t, i, mag, previous).0)) + 1 + |t.locals[i].loaded| + |t.locals[i].previous|
            == SumOf(Sizes(t)) + |mag| + |previous|
  {
    var l := Local(mag[1..], previous);
    PutTotals(t, i, l, x);
    SameHandles(Put(t, i, l), Take(t, i, mag, previous).0, x);
    CountAppend(t.live, [mag[0]], x);
    HeadCount(mag, x);
  }

  /** Allocation conserves every item; one from the backing store adds exactly its supply. */
  lemma AllocTotals(t: Cache, i: nat, supply: Option<seq<nat>>, x: nat)
    requires Shaped(t) && i < |t.locals| && (supply.Some? ==> |supply.value| == t.cap)
    ensures var (t', item) := Alloc(t, i, supply);
            Total(t', x) == Total(t, x) + (if t'.mags > t.mags then Count(supply.value, x) else 0)
  {
    var l := t.locals[i];
    if l.loaded != [] {
      TakeTotals(t, i, l.loaded, l.previous, x);
    } else if l.previous != [] {
      TakeTotals(t, i, l.previous, [], x);
    } else if t.shared != [] {
      SameHandles(t, t.(shared := t.shared[1..]), x);
      TakeTotals(t.(shared := t.shared[1..]), i, t.shared[0], [], x);
    } else if supply.Some? {
      SameHandles(t, t.(mags := t.mags + 1), x);
      TakeTotals(t.(mags := t.mags + 1), i, supply.value, [], x);
    }
  }

  /** Handing out an item from a magazine of size n accounted for elsewhere keeps the balance. */
  lemma TakeBalanced(t: Cache, i: nat, mag: seq<nat>, previous: seq<nat>)
    requires Shaped(t) && i < |t.locals| && 0 < |mag| <= t.cap && (previous == [] || |previous| == t.cap)
    requires |t.live| + Cached(t) + |mag| + |previous| == t.mags * t.cap + |t.locals[i].loaded| + |t.locals[i].previous|
    ensures Shaped(Take(t, i, mag, previous).0) && Balanced(Take(t, i, mag, previous).0)
  {
    TakeTotals(t, i, mag, previous, 0);
  }

  lemma AllocBalanced(t: Cache, i: nat, supply: Option<seq<nat>>)
    requires Shaped(t) && Balanced(t) && i < |t.locals| && (supply.Some? ==> |supply.value| == t.cap)
    ensures Shaped(Alloc(t, i, supply).0) && Balanced(Alloc(t, i, supply).0)
  {
    var l := t.locals[i];
    if l.loaded != [] {
      TakeBalanced(t, i, l.loaded, l.previous);
    } else if l.previous != [] {
      TakeBalanced(t, i, l.previous, []);
    } else if t.shared != [] {
      SameHandles(t, t.(shared := t.shared[1..]), 0);
      Less(|t.shared|, t.cap);
      TakeBalanced(t.(shared := t.shared[1..]), i, t.shared[0], []);
    } else if supply.Some? {
      SameHandles(t, t.(mags := t.mags + 1), 0);
      Less(t.mags + 1, t.cap);
      TakeBalanced(t.(mags := t.mags + 1), i, supply.value, []);
    }
  }

  lemma Less(n: nat, c: nat)
    requires n > 0
    ensures (n - 1) * c + c == n * c
  {
  }

  /** Allocation keeps the invariant, and the item handed out was in the cache or fresh, and is now outstanding. */
  lemma AllocKeeps(t: Cache, i: nat, supply: Option<seq<nat>>)
    requires Inv(t) && i < |t.locals| && FreshSupply(t, supply)
    ensures Inv(Alloc(t, i, supply).0)
    ensures var item := Alloc(t, i, supply).1;
            if item.None? then Alloc(t, i, supply).0 == t && Sizes(t)[i] == 0 && t.shared == [] && supply.None?
            else item.value != 0 && item.value !in t.live && item.value in Alloc(t, i, supply).0.live
  {
    var (t', item) := Alloc(t, i, supply);
    AllocBalanced(t, i, supply);
    forall x
      ensures Total(t', x) <= 1 && (x == 0 ==> Total(t', x) == 0)
    {
      AllocTotals(t, i, supply, x);
    }
    if item.Some? {
      var x := item.value;
      AllocLives(t, i, supply);
      CountPositive(t'.live, x);
      CountPositive(t.live, x);
      CountAppend(t.live, [x], x);
      assert Total(t', x) <= 1;
    }
  }

  /* Where items come from and go to: seen from one handle, the cache is a stack. */

  /** The items within reach of handle i, nearest first: its loaded magazine, its previous one, the depot's magazines. */
  function Reach(t: Cache, i: nat): seq<nat>
    requires i < |t.locals|
  {
    t.locals[i].loaded + t.locals[i].previous + Concat(t.shared)
  }

  /** Nothing that belongs to other handles differs. */
  ghost predicate OthersSame(t: Cache, t': Cache, i: nat) {
    && |t'.locals| == |t.locals| && t'.cap == t.cap
    && forall j :: 0 <= j < |t.locals| && j != i ==> t'.locals[j] == t.locals[j]
  }

  lemma ConcatEmpty(shared: seq<seq<nat>>, cap: nat)
    requires cap > 0 && forall m :: m in shared ==> |m| == cap
    ensures Concat(shared) == [] <==> shared == []
  {
    if shared != [] {
      assert shared[0] in shared;
    }
  }

  /**
   * Allocation takes the nearest item within reach; only when there is none does it take a new magazine from the backing
   * store, whose first item it hands out; only when there is no supply either does it fail.
   */
  lemma AllocNearest(t: Cache, i: nat, supply: Option<seq<nat>>)
    requires Shaped(t) && i < |t.locals| && (supply.Some? ==> |supply.value| == t.cap)
    ensures var (t', item), near := Alloc(t, i, supply), Reach(t, i);
            && OthersSame(t, t', i)
            && (near != [] ==> item == Some(near[0]) && Reach(t', i) == near[1..] && t'.mags == t.mags)
            && (near == [] && supply.Some? ==>
                  item == Some(supply.value[0]) && Reach(t', i) == supply.value[1..] && t'.mags == t.mags + 1)
            && (near == [] && supply.None? ==> item.None? && t' == t)
  {
    ConcatEmpty(t.shared, t.cap);
  }

  /** So the backing store is asked only when the handle's magazines and the depot are empty. */
  lemma NewMagazineLast(t: Cache, i: nat, supply: Option<seq<nat>>)
    requires Shaped(t) && i < |t.locals| && (supply.Some? ==> |supply.value| == t.cap)
    ensures Alloc(t, i, supply).0.mags > t.mags <==> Sizes(t)[i] == 0 && t.shared == [] && supply.Some?
  {
    AllocNearest(t, i, supply);
    ConcatEmpty(t.shared, t.cap);
  }

  /** A freed item becomes the nearest. */
  lemma FreeNearest(t: Cache, i: nat, k: nat)
    requires Shaped(t) && i < |t.locals| && k < |t.live|
    ensures var t' := Free(t, i, k);
            && OthersSame(t, t', i) && t'.mags == t.mags
            && Reach(t', i) == [t.live[k]] + Reach(t, i)
            && (t'.shared != t.shared <==> |t.locals[i].loaded| == t.cap && t.locals[i].previous != [])
  {
    var l, t' := t.locals[i], Free(t, i, k);
    if |l.loaded| >= t.cap && l.previous != [] {
      assert t'.shared[0] == l.previous && t'.shared[1..] == t.shared;
      assert |t'.shared| != |t.shared|;
      assert Reach(t', i) == [t.live[k]] + l.loaded + (l.previous + Concat(t.shared));
    }
  }

  /** Allocating right after a free gives the same item back, and leaves within reach what was there before. */
  lemma FreeThenAlloc(t: Cache, i: nat, k: nat, supply: Option<seq<nat>>)
    requires Shaped(t) && i < |t.locals| && k < |t.live| && (supply.Some? ==> |supply.value| == t.cap)
    ensures Shaped(Free(t, i, k))
    ensures var (t', item) := Alloc(Free(t, i, k), i, supply);
            item == Some(t.live[k]) && Reach(t', i) == Reach(t, i) && OthersSame(t, t', i) && t'.mags == t.mags
  {
    FreeNearest(t, i, k);
    AllocNearest(Free(t, i, k), i, supply);
  }

  lemma AllocLives(t: Cache, i: nat, supply: Option<seq<nat>>)
    requires Shaped(t) && i < |t.locals| && (supply.Some? ==> |supply.value| == t.cap)
    ensures var (t', item) := Alloc(t, i, supply); item.Some? ==> t'.live == t.live + [item.value]
  {
  }

  lemma FreeTotals(t: Cache, i: nat, k: nat, x: nat)
    requires Shaped(t) && i < |t.locals| && k < |t.live|
    ensures Total(Free(t, i, k), x) == Total(t, x)
  {
    var l := t.locals[i];
    var t1 := t.(live := t.live[..k] + t.live[k + 1..]);
    CountRemove(t.live, k, x);
    SameHandles(t, t1, x);
    if |l.loaded| < t.cap {
      PutTotals(t1, i, Local([t.live[k]] + l.loaded, l.previous), x);
      CountAppend([t.live[k]], l.loaded, x);
    } else if l.previous == [] {
      PutTotals(t1, i, Local([t.live[k]], l.loaded), x);
    } else {
      var t2 := t1.(shared := [l.previous] + t.shared);
      SameHandles(t1, t2, x);
      PutTotals(t2, i, Local([t.live[k]], l.loaded), x);
    }
  }

  lemma FreeBalanced(t: Cache, i: nat, k: nat)
    requires Shaped(t) && Balanced(t) && i < |t.locals| && k < |t.live|
    ensures Shaped(Free(t, i, k)) && Balanced(Free(t, i, k))
  {
    var l := t.locals[i];
    var t1 := t.(live := t.live[..k] + t.live[k + 1..]);
    SameHandles(t, t1, 0);
    if |l.loaded| < t.cap {
      PutTotals(t1, i, Local([t.live[k]] + l.loaded, l.previous), 0);
    } else if l.previous == [] {
      PutTotals(t1, i, Local([t.live[k]], l.loaded), 0);
    } else {
      var t2 := t1.(shared := [l.previous] + t.shared);
      SameHandles(t1, t2, 0);
      PutTotals(t2, i, Local([t.live[k]], l.loaded), 0);
      Less(|t2.shared|, t.cap);
    }
  }

  lemma FreeKeeps(t: Cache, i: nat, k: nat)
    requires Inv(t) && i < |t.locals| && k < |t.live|
    ensures Inv(Free(t, i, k))
  {
    FreeBalanced(t, i, k);
    forall x
      ensures Total(Free(t, i, k), x) == Total(t, x)
    {
      FreeTotals(t, i, k, x);
    }
  }

  lemma {:induction false} ConcatTotals(shared: seq<seq<nat>>, x: nat)
    ensures Count(Concat(shared), x) == InDepot(shared, x)
  {
    if shared != [] {
      CountAppend(shared[0], Concat(shared[1..]), x);
      ConcatTotals(shared[1..], x);
    }
  }

  lemma MagsCover(t: Cache)
    requires Shaped(t) && Balanced(t)
    ensures |t.shared| <= t.mags
  {
    if t.mags < |t.shared| {
      MulLess(t.mags, |t.shared|, t.cap);
    }
  }

  lemma Distribute(a: nat, b: nat, c: nat)
    requires b <= a
    ensures (a - b) * c == a * c - b * c
    ensures 0 * c == 0
  {
  }

  lemma MulLess(a: nat, b: nat, c: nat)
    requires a < b && c > 0
    ensures a * c < b * c
  {
  }

  lemma ReclaimBalanced(t: Cache)
    requires Shaped(t) && Balanced(t)
    ensures Shaped(Reclaim(t)) && Balanced(Reclaim(t))
    ensures |t.shared| <= t.mags && Reclaim(t).mags == t.mags - |t.shared|
    ensures Cached(Reclaim(t)) + |t.shared| * t.cap == Cached(t)
  {
    MagsCover(t);
    SameHandles(t, Reclaim(t), 0);
    Distribute(t.mags, |t.shared|, t.cap);
  }

  lemma ReclaimTotals(t: Cache, x: nat)
    ensures Total(Reclaim(t), x) + Count(Concat(t.shared), x) == Total(t, x)
  {
    SameHandles(t, Reclaim(t), x);
    ConcatTotals(t.shared, x);
  }

  /** Reclaiming returns exactly the depot's items, and the rest stays accounted for. */
  lemma ReclaimKeeps(t: Cache)
    requires Inv(t)
    ensures Inv(Reclaim(t)) && |t.shared| <= t.mags && Reclaim(t).mags == t.mags - |t.shared|
    ensures forall x :: Total(Reclaim(t), x) + Count(Concat(t.shared), x) == Total(t, x)
    ensures Cached(Reclaim(t)) + |t.shared| * t.cap == Cached(t)
  {
    ReclaimBalanced(t);
    forall x
      ensures Total(Reclaim(t), x) + Count(Concat(t.shared), x) == Total(t, x)
    {
      ReclaimTotals(t, x);
    }
  }

  /* Runs. */

  datatype Event = AllocEv(i: nat, supply: Option<seq<nat>>) | FreeEv(i: nat, k: nat) | ReclaimEv

  ghost predicate Enabled(t: Cache, e: Event) {
    match e
    case AllocEv(i, supply) => i < |t.locals| && FreshSupply(t, supply)
    case FreeEv(i, k) => i < |t.locals| && k < |t.live|
    case ReclaimEv => true
  }

  function Apply(t: Cache, e: Event): Cache
    requires Shaped(t) && Enabled(t, e)
  {
    match e
    case AllocEv(i, supply) => Alloc(t, i, supply).0
    case FreeEv(i, k) => Free(t, i, k)
    case ReclaimEv => Reclaim(t)
  }

  lemma StepKeeps(t: Cache, e: Event)
    requires Inv(t) && Enabled(t, e)
    ensures Inv(Apply(t, e))
  {
    match e
    case AllocEv(i, supply) => AllocKeeps(t, i, supply);
    case FreeEv(i, k) => FreeKeeps(t, i, k);
    case ReclaimEv => ReclaimKeeps(t);
  }

  ghost predicate Fresh(t: Cache) {
    t.cap > 0 && t.shared == [] && t.live == [] && t.mags == 0
    && forall i :: 0 <= i < |t.locals| ==> t.locals[i] == Local([], [])
  }

  lemma FreshInv(t: Cache)
    requires Fresh(t)
    ensures Inv(t)
  {
    ZeroSum(Sizes(t));
    forall x
      ensures Total(t, x) == 0
    {
      ZeroSum(Weights(t, x));
    }
  }

  ghost predicate Run(ts: seq<Cache>, es: seq<Event>) {
    && |ts| == |es| + 1 && Fresh(ts[0])
    && forall n :: 0 <= n < |es| && Shaped(ts[n]) ==> Enabled(ts[n], es[n]) && ts[n + 1] == Apply(ts[n], es[n])
  }

  /** At every moment of every run no item is lost, duplicated or cached while outstanding. */
  lemma {:induction false} RunKeeps(ts: seq<Cache>, es: seq<Event>, n: nat)
    requires Run(ts, es) && n <= |es|
    ensures Inv(ts[n])
  {
    if n == 0 {
      FreshInv(ts[0]);
    } else {
      RunKeeps(ts, es, n - 1);
      StepKeeps(ts[n - 1], es[n - 1]);
    }
  }
}
