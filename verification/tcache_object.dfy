/** The item cache's operations on memory, proved to do what the magazines of Tcache do. */
module TcacheObject {
  import opened Chains
  import opened Collections
  import opened Tcache
  import opened TcacheChains

  class CacheObject {
    const cap: nat
    const nextItem: array<nat>
    const nextMag: array<nat>
    const rounds: array<nat>
    const loaded: array<nat>
    const previous: array<nat>
    var shared: nat
    var mags: nat
    ghost var view: Cache

    ghost predicate Shape()
      reads this
    {
      && nextItem != nextMag && nextItem != rounds && nextItem != loaded && nextItem != previous
      && nextMag != rounds && nextMag != loaded && nextMag != previous
      && rounds != loaded && rounds != previous && loaded != previous
      && view.cap == cap && view.mags == mags
    }

    ghost function Mem(): Memory
      reads this, nextItem, nextMag, rounds, loaded, previous
    {
      Memory(nextItem[..], nextMag[..], rounds[..], loaded[..], previous[..], shared)
    }

    ghost predicate Valid()
      reads this, nextItem, nextMag, rounds, loaded, previous
    {
      Shape() && Inv(view) && Represents(Mem(), view)
    }

    /** tcache_create for `handles` threads over `space` item addresses, each handle initialised. */
    constructor (cap: nat, handles: nat, space: nat)
      requires cap > 0
      ensures Valid() && Fresh(view) && this.cap == cap && |view.locals| == handles && nextItem.Length == space
      ensures fresh(nextItem) && fresh(nextMag) && fresh(rounds) && fresh(loaded) && fresh(previous)
    {
      this.cap := cap;
      nextItem, nextMag := new nat[space], new nat[space];
      rounds := new nat[handles](_ => 0);
      loaded := new nat[handles](_ => 0);
      previous := new nat[handles](_ => 0);
      shared, mags := 0, 0;
      view := Cache(cap, seq(handles, _ => Local([], [])), [], [], 0);
      new;
      FreshInv(view);
      FreshRepresents(Mem(), view);
    }

    /** The client writes the header words of an item it holds. */
    method Scribble(x: nat, a: nat, b: nat)
      requires Valid() && x in view.live && x < nextItem.Length
      modifies nextItem, nextMag
      ensures Valid()
    {
      LiveElsewhere(view, x);
      HeadersFrame(Mem(), view, nextItem[..][x := a], nextMag[..][x := b]);
      nextItem[x] := a;
      nextMag[x] := b;
      assert nextItem[..] == old(nextItem[..])[x := a] && nextMag[..] == old(nextMag[..])[x := b];
    }

    /** The common end of allocation. */
    method PopChain(i: nat, n: nat, previousHead: nat)
      requires i < rounds.Length && i < loaded.Length && i < previous.Length && loaded[i] < nextItem.Length && Shape()
      modifies rounds, loaded, previous
      ensures Mem() == Popped(old(Mem()), i, old(loaded[i]), previousHead, n)
    {
      rounds[i] := n;
      loaded[i] := nextItem[loaded[i]];
      previous[i] := previousHead;
    }

    /** tcache_alloc_mag: thread the supplied items into a chain. */
    method BuildChain(items: seq<nat>) returns (head: nat)
      requires items != [] && Distinct(items) && forall k :: 0 <= k < |items| ==> 0 < items[k] < nextItem.Length
      modifies nextItem
      ensures Chain(nextItem[..], head, items)
      ensures forall x :: 0 <= x < nextItem.Length && x !in items ==> nextItem[x] == old(nextItem[x])
    {
      head := items[0];
      var pos := head;
      for i := 1 to |items|
        invariant pos == items[i - 1]
        invariant forall k :: 0 <= k < i - 1 ==> nextItem[items[k]] == items[k + 1]
        invariant forall x :: 0 <= x < nextItem.Length && x !in items ==> nextItem[x] == old(nextItem[x])
      {
        nextItem[pos] := items[i];
        pos := items[i];
      }
      nextItem[pos] := 0;
    }

    /** tcache_free_mag's walk: collect the items of a chain. */
    method CollectChain(head: nat, ghost mag: seq<nat>) returns (items: seq<nat>)
      requires mag != [] && Chain(nextItem[..], head, mag)
      ensures items == mag
    {
      items := [];
      var hdr := head;
      while true
        invariant |items| < |mag| && items == mag[..|items|] && hdr == mag[|items|]
        decreases |mag| - |items|
      {
        assert nextItem[..][mag[|items|]] == After(mag, |items|);
        items := items + [hdr];
        hdr := nextItem[hdr];
        if hdr == 0 {
          break;
        }
      }
    }

    /** The cache without its counting invariant. */
    ghost predicate Laid()
      reads this, nextItem, nextMag, rounds, loaded, previous
    {
      Shape() && Represents(Mem(), view)
    }

    /** The fast path: the loaded chain is not empty. */
    method FromLoaded(i: nat) returns (item: nat)
      requires Laid() && i < |view.locals| && rounds[i] != 0
      modifies this, rounds, loaded, previous
      ensures Laid() && (view, Some(item)) == Take(old(view), i, old(view).locals[i].loaded, old(view).locals[i].previous)
    {
      ghost var t, l := view, view.locals[i];
      TakeRepresents(Mem(), t, i, loaded[i], l.loaded, previous[i], l.previous);
      item := loaded[i];
      PopChain(i, rounds[i] - 1, previous[i]);
      view := Take(t, i, l.loaded, l.previous).0;
    }

    /** Load a full magazine's chain and hand out its first item. */
    method LoadAndPop(i: nat, head: nat, ghost mag: seq<nat>) returns (item: nat)
      requires Laid() && i < |view.locals| && |mag| == cap > 0 && Chain(nextItem[..], head, mag)
      modifies this`view, rounds, loaded, previous
      ensures Laid() && (view, Some(item)) == Take(old(view), i, mag, [])
    {
      ghost var t, m := view, Mem();
      TakeRepresents(m, t, i, head, mag, 0, []);
      loaded[i] := head;
      item := loaded[i];
      PopChain(i, cap - 1, 0);
      assert Mem() == Popped(m, i, head, 0, cap - 1);
      view := Take(t, i, mag, []).0;
    }

    /** The next magazine of the depot leaves it. */
    method DetachMagazine() returns (head: nat)
      requires Laid() && shared != 0
      modifies this`view, this`shared
      ensures Laid() && old(view).shared != [] && Chain(nextItem[..], head, old(view).shared[0])
      ensures view == old(view).(shared := old(view).shared[1..])
    {
      SharedRepresents(Mem(), view);
      head := shared;
      shared := nextMag[shared];
      view := view.(shared := view.shared[1..]);
    }

    /** The items a backing store may supply. */
    ghost predicate Supplied(items: seq<nat>)
      reads this
    {
      && |items| == cap > 0 && Distinct(items)
      && forall k :: 0 <= k < |items| ==> 0 < items[k] < nextItem.Length && Elsewhere(view, items[k])
    }

    /** tcache_alloc_mag: a new magazine from the backing store. */
    method NewMagazine(items: seq<nat>) returns (head: nat)
      requires Laid() && Supplied(items)
      modifies this`view, this`mags, nextItem
      ensures Laid() && Chain(nextItem[..], head, items)
      ensures view == old(view).(mags := old(view).mags + 1)
    {
      ghost var m := Mem();
      head := BuildChain(items);
      HeadersFrame(m, view, nextItem[..], nextMag[..]);
      mags := mags + 1;
      view := view.(mags := mags);
    }

    method AllocAny(i: nat, supply: Option<seq<nat>>) returns (item: nat)
      requires Laid() && Shaped(view) && i < |view.locals| && (supply.Some? ==> Supplied(supply.value))
      modifies this, nextItem, rounds, loaded, previous
      ensures Laid() && view == Tcache.Alloc(old(view), i, supply).0
      ensures item == var r := Tcache.Alloc(old(view), i, supply).1; if r.Some? then r.value else 0
    {
      assert Handle(nextItem[..], rounds[i], loaded[i], previous[i], view.locals[i]);
      if rounds[i] != 0 {
        item := FromLoaded(i);
      } else if previous[i] != 0 {
        item := LoadAndPop(i, previous[i], view.locals[i].previous);
      } else if shared != 0 {
        ghost var mag := if view.shared == [] then [] else view.shared[0];
        var head := DetachMagazine();
        item := LoadAndPop(i, head, mag);
      } else if supply.Some? {
        var head := NewMagazine(supply.value);
        item := LoadAndPop(i, head, supply.value);
      } else {
        item := 0;
      }
    }

    /** tcache_alloc: zero is the null pointer of a failed allocation. */
    method Alloc(i: nat, supply: Option<seq<nat>>) returns (item: nat)
      requires Valid() && i < |view.locals| && FreshSupply(view, supply)
      requires supply.Some? ==> forall k :: 0 <= k < |supply.value| ==> supply.value[k] < nextItem.Length
      modifies this, nextItem, rounds, loaded, previous
      ensures Valid() && view == Tcache.Alloc(old(view), i, supply).0
      ensures item == var r := Tcache.Alloc(old(view), i, supply).1; if r.Some? then r.value else 0
    {
      AllocKeeps(view, i, supply);
      if supply.Some? {
        SupplyOutside(view, supply.value);
      }
      item := AllocAny(i, supply);
    }

    /** The common end of freeing. */
    method PushChain(i: nat, x: nat, head: nat, previousHead: nat, n: nat)
      requires i < rounds.Length && i < loaded.Length && i < previous.Length && x < nextItem.Length && Shape()
      modifies nextItem, rounds, loaded, previous
      ensures Mem() == Pushed(old(Mem()), i, x, head, previousHead, n)
    {
      previous[i] := previousHead;
      rounds[i] := n;
      loaded[i] := x;
      nextItem[x] := head;
    }

    /** The fast path: room in the loaded magazine. */
    method ToLoaded(i: nat, item: nat, ghost live: seq<nat>)
      requires Laid() && i < |view.locals| && 0 < item < nextItem.Length && Elsewhere(view, item)
      modifies this, nextItem, rounds, loaded, previous
      ensures Laid()
      ensures var l := old(view).locals[i]; view == Put(old(view).(live := live), i, Local([item] + l.loaded, l.previous))
    {
      ghost var l := view.locals[i];
      PutRepresents(Mem(), view, i, item, loaded[i], l.loaded, previous[i], l.previous);
      PushChain(i, item, loaded[i], previous[i], rounds[i] + 1);
      view := Put(view.(live := live), i, Local([item] + l.loaded, l.previous));
    }

    /** __tcache_free: the loaded magazine becomes the previous one, and the item starts a new magazine. */
    method StartMagazine(i: nat, item: nat, ghost live: seq<nat>)
      requires Laid() && i < |view.locals| && 0 < item < nextItem.Length && Elsewhere(view, item)
      modifies this, nextItem, rounds, loaded, previous
      ensures Laid()
      ensures view == Put(old(view).(live := live), i, Local([item], old(view).locals[i].loaded))
    {
      ghost var l := view.locals[i];
      assert [item] + [] == [item];
      PutRepresents(Mem(), view, i, item, 0, [], loaded[i], l.loaded);
      PushChain(i, item, 0, loaded[i], 1);
      view := Put(view.(live := live), i, Local([item], l.loaded));
    }

    /** __tcache_free, case 2: the full previous magazine joins the depot. */
    method ReturnPrevious(i: nat)
      requires Laid() && Single(view) && i < |view.locals| && previous[i] != 0
      modifies this, nextMag
      ensures Laid() && view == old(view).(shared := [old(view).locals[i].previous] + old(view).shared)
    {
      ghost var t, m := view, Mem();
      ReturnRepresents(m, t, i);
      nextMag[previous[i]] := shared;
      shared := previous[i];
      assert Mem() == m.(nextMag := m.nextMag[m.previous[i] := m.shared], shared := m.previous[i]);
      view := t.(shared := [t.locals[i].previous] + t.shared);
    }

    method FreeAny(i: nat, item: nat, ghost k: nat)
      requires Laid() && Shaped(view) && Single(view) && i < |view.locals| && k < |view.live| && view.live[k] == item
      requires 0 < item < nextItem.Length && Elsewhere(view, item)
      modifies this, nextItem, nextMag, rounds, loaded, previous
      ensures Laid() && view == Tcache.Free(old(view), i, k)
    {
      ghost var t := view;
      ghost var live := t.live[..k] + t.live[k + 1..];
      assert Handle(nextItem[..], rounds[i], loaded[i], previous[i], t.locals[i]);
      if rounds[i] < cap {
        ToLoaded(i, item, live);
      } else {
        if previous[i] != 0 {
          ReturnPrevious(i);
          StillElsewhere(t, i, item);
        }
        StartMagazine(i, item, live);
      }
    }

    /** tcache_free of an outstanding item. */
    method Free(i: nat, item: nat, ghost k: nat)
      requires Valid() && i < |view.locals| && k < |view.live| && view.live[k] == item && item < nextItem.Length
      modifies this, nextItem, nextMag, rounds, loaded, previous
      ensures Valid() && view == Tcache.Free(old(view), i, k)
    {
      FreeKeeps(view, i, k);
      LiveElsewhere(view, item);
      FreeAny(i, item, k);
    }

    /** The loop of tcache_reclaim over the detached magazines. */
    method ReturnAll(head: nat, ghost all: seq<seq<nat>>) returns (returned: seq<nat>)
      requires Depot(nextItem[..], nextMag[..], head, all) && mags >= |all|
      modifies this`mags
      ensures returned == Concat(all) && mags == old(mags) - |all|
    {
      var hdr := head;
      returned := [];
      ghost var left := all;
      while hdr != 0
        invariant Depot(nextItem[..], nextMag[..], hdr, left) && mags == old(mags) - |all| + |left|
        invariant returned + Concat(left) == Concat(all)
        decreases |left|
      {
        DepotPop(nextItem[..], nextMag[..], hdr, left);
        var next := nextMag[hdr];
        var items := CollectChain(hdr, left[0]);
        returned := returned + items;
        mags := mags - 1;
        hdr := next;
        left := left[1..];
      }
    }

    /** tcache_reclaim: every magazine of the depot, and nothing else, goes back to the backing store. */
    method Reclaim() returns (returned: seq<nat>)
      requires Valid()
      modifies this
      ensures Valid() && view == Tcache.Reclaim(old(view))
      ensures returned == Concat(old(view).shared)
    {
      ReclaimKeeps(view);
      ReclaimRepresents(Mem(), view);
      var hdr := shared;
      shared := 0;
      returned := ReturnAll(hdr, view.shared);
      view := Tcache.Reclaim(view);
    }
  }

  lemma StillElsewhere(t: Cache, i: nat, x: nat)
    requires Elsewhere(t, x) && i < |t.locals|
    ensures Elsewhere(t.(shared := [t.locals[i].previous] + t.shared), x)
  {
  }

  lemma ReclaimRepresents(m: Memory, t: Cache)
    requires Represents(m, t)
    ensures Represents(m.(shared := 0), Tcache.Reclaim(t))
  {
    assert Heads([]) == [];
  }

  lemma FreshRepresents(m: Memory, t: Cache)
    requires Fresh(t) && |m.rounds| == |m.loaded| == |m.previous| == |t.locals| && |m.nextMag| == |m.nextItem| && m.shared == 0
    requires forall i :: 0 <= i < |t.locals| ==> m.rounds[i] == m.loaded[i] == m.previous[i] == 0
    ensures Represents(m, t)
  {
    assert Heads([]) == [];
  }

  lemma SupplyOutside(t: Cache, items: seq<nat>)
    requires Shaped(t) && FreshSupply(t, Some(items))
    ensures items != [] && Distinct(items)
    ensures forall k :: 0 <= k < |items| ==> items[k] != 0 && Elsewhere(t, items[k])
  {
    forall k | 0 <= k < |items|
      ensures items[k] != 0 && Elsewhere(t, items[k])
    {
      CountPositive(items, items[k]);
      OutsideChains(t, items[k]);
    }
    forall j, k | 0 <= j < k < |items|
      ensures items[j] != items[k]
    {
      if items[j] == items[k] {
        CountTwice(items, j, k);
      }
    }
  }

  lemma CountTwice(s: seq<nat>, j: nat, k: nat)
    requires j < k < |s| && s[j] == s[k]
    ensures Count(s, s[j]) >= 2
  {
    CountSplit(s, k, s[j]);
    CountPositive(s[..k], s[j]);
    CountPositive(s[k..], s[j]);
    assert s[..k][j] == s[j] && s[k..][0] == s[j];
  }
}
