/** The slab node's operations on memory (base/slab.c), proved to do what the pages of Slab do. */
module SlabNode {
  import opened Chains
  import opened Collections
  import opened Slab
  import opened SlabMemory
  import opened SlabObject

  function AsOption(g: nat): Option<nat> {
    if g == 0 then None else Some(g)
  }

  method Write<T>(a: array<T>, k: nat, v: T)
    requires k < a.Length
    modifies a
    ensures a[..] == old(a[..])[k := v]
  {
    a[k] := v;
  }

  class NodeObject {
    const size: nat
    const offset: nat
    const nr: nat
    const pgsize: nat
    const mem: array<nat>     // the first word of the item at each address
    const next: array<nat>    // page structs, by page number
    const count: array<int>
    var cur: nat
    var full: seq<nat>
    var partial: seq<nat>
    var pgOff: nat
    ghost var view: Node

    ghost predicate Fields()
      reads this
    {
      && mem != next && (count as object) != mem && (count as object) != next
      && view.size == size && view.offset == offset && view.nr == nr && view.pgsize == pgsize
      && view.cur == AsOption(cur) && view.full == full && view.partial == partial && view.pgOff == pgOff
    }

    ghost predicate Laid()
      reads this, mem, next, count
    {
      Fields() && PagesLaid(mem[..], next[..], count[..], view)
    }

    ghost predicate Valid()
      reads this, mem, next, count
    {
      Laid() && Inv(view)
    }

    constructor (size: nat, offset: nat, nr: nat, pgsize: nat, pages: nat)
      requires Fits(Empty(size, offset, nr, pgsize))
      ensures Valid() && view == Empty(size, offset, nr, pgsize)
      ensures mem.Length == pages * pgsize && next.Length == count.Length == pages
      ensures fresh(mem) && fresh(next) && fresh(count)
    {
      this.size, this.offset, this.nr, this.pgsize := size, offset, nr, pgsize;
      mem, next, count := new nat[pages * pgsize], new nat[pages], new int[pages];
      cur, full, partial, pgOff := 0, [], [], 0;
      view := Empty(size, offset, nr, pgsize);
      new;
      EmptyInv(view);
    }

    /** Memory a new page may occupy. */
    ghost predicate PageRoom(g: nat)
      reads this
    {
      g > 0 ==> g !in view.pages && g < next.Length && g < count.Length && Mul(g, pgsize) + pgsize <= mem.Length
    }

    /** The client writes to an item it holds. */
    method Scribble(ghost item: Item, a: nat, v: nat)
      requires Valid() && Live(view, item) && a == Address(view, item) && a < mem.Length
      modifies mem
      ensures Valid()
    {
      assert PageOk(view, view.pages[item.page]);
      WriteElsewhere(mem[..], next[..], count[..], view, item, a, v);
      Write(mem, a, v);
    }

    method GetPage(newPage: nat)
      requires Laid() && PageRoom(newPage) && (forall g :: g in partial ==> g in view.pages)
      modifies this, next, count
      ensures Laid() && view == Slab.GetPage(old(view), AsOption(newPage))
    {
      ghost var n := view;
      if partial != [] {
        assert PageLaid(mem[..], next[..], count[..], n, partial[0]);
        cur := partial[0];
        partial := partial[1..];
        view := n.(cur := Some(cur), partial := partial);
        SameLaid(mem[..], next[..], count[..], n, view);
        return;
      }
      cur := newPage;
      if newPage == 0 {
        view := n.(cur := None);
        SameLaid(mem[..], next[..], count[..], n, view);
        return;
      }
      pgOff := offset;
      Write(count, newPage, nr);
      Write(next, newPage, 0);
      view := n.(cur := Some(newPage), pages := n.pages[newPage := Page([], 0)], pgOff := offset);
      OthersLaid(mem[..], old(next[..]), old(count[..]), n, view, newPage, next[..], count[..]);
    }

    method Refill(newPage: nat)
      requires Valid() && PageRoom(newPage)
      modifies this, next, count
      ensures Laid() && view == Slab.Refill(old(view), AsOption(newPage))
    {
      ghost var n := view;
      if cur != 0 {
        assert PageLaid(mem[..], next[..], count[..], n, cur);
        if count[cur] != 0 {
          return;
        }
        full := [cur] + full;
      }
      assert full == InUse(n.cur) + n.full;
      view := n.(full := full);
      SameLaid(mem[..], next[..], count[..], n, view);
      GetPage(newPage);
    }

    /** Pop the current page's free list. */
    method PopFree() returns (a: nat)
      requires Laid() && cur in view.pages && view.pages[cur].free != []
      modifies this, next, count
      ensures Laid() && view == PoppedFree(old(view), old(cur))
      ensures old(cur) < next.Length && a == old(next[..])[old(cur)]
    {
      ghost var p := view.pages[cur];
      PopLaid(mem[..], next[..], count[..], view, cur);
      a := next[cur];
      Write(next, cur, mem[a]);
      Write(count, cur, count[cur] - 1);
      view := SetPage(view, cur, p.(free := p.free[1..]));
    }

    /** Count the next slot the current page never handed out as taken. */
    method Bump()
      requires Laid() && cur in view.pages
      modifies this, count
      ensures Laid() && view == Bumped(old(view), old(cur))
    {
      ghost var m, x, c := mem[..], next[..], count[..];
      ghost var n' := Bumped(view, cur);
      BumpLaid(m, x, c, view, cur);
      Write(count, cur, count[cur] - 1);
      pgOff, view := pgOff + size, n';
      assert mem[..] == m && next[..] == x;
    }

    /** Take from the free list, else bump. */
    method TakeItem() returns (a: nat)
      requires Laid() && cur in view.pages && view.cur == Some(cur)
      modifies this, next, count
      ensures Laid() && view == Slab.TakeItem(old(view)).0
      ensures old(cur) < next.Length && a == GivenAt(old(next[..]), old(cur), pgsize, old(pgOff))
    {
      HeadTells(mem[..], next[..], count[..], view, cur);
      TakeForms(view);
      if next[cur] != 0 {
        a := PopFree();
      } else {
        a := PageAddress(cur, pgsize) + pgOff;
        Bump();
      }
    }

    /** __slab_node_alloc: zero is the null pointer of a failed allocation. */
    method Alloc(newPage: nat) returns (a: nat)
      requires Valid() && PageRoom(newPage)
      modifies this, next, count
      ensures Valid() && view == Slab.Alloc(old(view), AsOption(newPage)).0
      ensures var item := Slab.Alloc(old(view), AsOption(newPage)).1;
              if item.Some? then a == Address(old(view), item.value) > 0 else a == 0
    {
      AllocKeeps(view, AsOption(newPage));
      RefillKeeps(view, AsOption(newPage));
      Refill(newPage);
      if cur == 0 {
        return 0;
      }
      TakenAt(mem[..], next[..], count[..], view);
      a := TakeItem();
    }

    /** Put an item on its page's free list. */
    method PushFree(a: nat, g: nat, ghost item: Item)
      requires Laid() && Fits(view) && PagesOk(view) && Live(view, item) && a == Address(view, item) && g == item.page
      requires item.slot < nr
      modifies this, mem, next, count
      ensures Laid() && view == SetPage(old(view), g, Refilled(old(view), item))
    {
      PushLaid(mem[..], next[..], count[..], view, item, a);
      Write(mem, a, next[g]);
      Write(next, g, a);
      Write(count, g, count[g] + 1);
      view := SetPage(view, g, Refilled(view, item));
    }

    /** Move the page to the list its count calls for, or give it back. */
    method Relist(g: nat)
      requires Laid() && g in view.pages
      modifies this
      ensures Laid() && view == Slab.Relist(old(view), g)
    {
      ghost var n := view;
      assert PageLaid(mem[..], next[..], count[..], n, g);
      if g == cur {
        return;
      }
      if count[g] == PARTIAL_THRESH {
        full := Without(full, g);
        partial := [g] + Without(partial, g);
        view := n.(full := full, partial := partial);
        SameLaid(mem[..], next[..], count[..], n, view);
      } else if count[g] == nr {
        full := Without(full, g);
        partial := Without(partial, g);
        view := n.(full := full, partial := partial, pages := n.pages - {g});
        DropLaid(mem[..], next[..], count[..], n, g);
        SameLaid(mem[..], next[..], count[..], n.(pages := n.pages - {g}), view);
      }
    }

    /** slab_node_free: the page is found from the address. */
    method Free(a: nat, ghost item: Item)
      requires Valid() && Live(view, item) && a == Address(view, item)
      modifies this, mem, next, count
      ensures Valid() && view == Slab.Free(old(view), item)
    {
      FreeKeeps(view, item);
      assert PageOk(view, view.pages[item.page]);
      InsidePage(view, item);
      var g := a / pgsize;
      PushFree(a, g, item);
      Relist(g);
    }

    /** Free the last of the items held. */
    method FreeLast(a: nat, ghost items: seq<nat>, ghost got: seq<Item>)
      requires Valid() && got != [] && Holding(view, got, items) && a == items[|got| - 1]
      modifies this, mem, next, count
      ensures Valid() && Holding(view, got[..|got| - 1], items[..|got| - 1])
      ensures LiveLess(old(view), view, [got[|got| - 1]])
    {
      ghost var n, m := view, |got| - 1;
      HoldingLast(n, got, items);
      FreeLive(n, got[m]);
      Free(a, got[m]);
      HoldingAfterFree(n, view, got[..m], items[..m], got[m]);
    }

    /** The fail path of slab_tcache_alloc: free what was allocated, last first. */
    method FreeAll(items: seq<nat>, ghost got: seq<Item>)
      requires Valid() && Holding(view, got, items)
      modifies this, mem, next, count
      ensures Valid() && LiveLess(old(view), view, got)
    {
      var left := items;
      ghost var held, n := got, view;
      assert got[|got|..] == [];
      while left != []
        invariant |held| == |left| <= |got| && held == got[..|held|] && Valid() && Holding(view, held, left)
        invariant LiveLess(n, view, got[|held|..])
        decreases |left|
      {
        var i := |left| - 1;
        ghost var before := view;
        FreeLast(left[i], left, held);
        LessMore(n, before, view, got, i);
        held := held[..i];
        left := left[..i];
      }
      assert got[0..] == got;
    }

    /** One more item, or null with the live items unchanged. */
    method AllocOne(newPage: nat, ghost items: seq<nat>, ghost got: seq<Item>) returns (a: nat, ghost item: Item)
      requires Valid() && PageRoom(newPage) && Holding(view, got, items)
      modifies this, next, count
      ensures Valid() && (forall g :: g in view.pages ==> g in old(view).pages || AsOption(newPage) == Some(g))
      ensures Grown(old(view), view, got, items, item, a)
    {
      ghost var taken := Slab.Alloc(view, AsOption(newPage)).1;
      item := if taken.Some? then taken.value else Item(0, 0);
      AllocPages(view, AsOption(newPage));
      AllocGrows(view, AsOption(newPage), got, items);
      a := Alloc(newPage);
    }

    /** slab_tcache_alloc: all the items wanted or, when memory runs out part way, none. */
    method AllocMany(want: nat, newPages: seq<nat>) returns (ok: bool, items: seq<nat>, ghost got: seq<Item>)
      requires Valid() && |newPages| == want
      requires forall k :: 0 <= k < want ==> PageRoom(newPages[k])
      requires forall j, k :: 0 <= j < k < want && newPages[k] != 0 ==> newPages[j] != newPages[k]
      modifies this, mem, next, count
      ensures Valid() && Holding(view, got, items) && LiveMore(old(view), view, got)
      ensures |got| == if ok then want else 0
    {
      items, got := [], [];
      ghost var n := view;
      for i := 0 to want
        invariant Valid() && |items| == i && Holding(view, got, items) && LiveMore(n, view, got)
        invariant forall g :: g in view.pages ==> g in n.pages || g in newPages[..i]
      {
        ghost var before := view;
        NotUsed(n.pages.Keys, view.pages.Keys, newPages, i);
        var a;
        ghost var item;
        a, item := AllocOne(newPages[i], items, got);
        MoreMore(n, before, view, got, if a == 0 then [] else [item]);
        if a == 0 {
          assert got + [] == got;
          before := view;
          FreeAll(items, got);
          MoreLess(n, before, view, got);
          return false, [], [];
        }
        items, got := items + [a], got + [item];
        assert newPages[..i + 1] == newPages[..i] + [newPages[i]];
      }
      ok := true;
    }
  }

  /** Exactly the given items stopped being live. */
  ghost predicate LiveLess(n: Node, n': Node, gone: seq<Item>) {
    forall i :: Live(n', i) <==> Live(n, i) && i !in gone
  }

  /** Exactly the given items, none of them live before, became live. */
  ghost predicate LiveMore(n: Node, n': Node, got: seq<Item>) {
    && (forall i :: Live(n', i) <==> Live(n, i) || i in got)
    && (forall i :: i in got ==> !Live(n, i))
  }

  lemma LessMore(n: Node, n1: Node, n2: Node, got: seq<Item>, i: nat)
    requires i < |got| && LiveLess(n, n1, got[i + 1..]) && LiveLess(n1, n2, [got[i]])
    ensures LiveLess(n, n2, got[i..])
  {
    assert got[i..] == [got[i]] + got[i + 1..];
  }

  lemma MoreMore(n: Node, n1: Node, n2: Node, got: seq<Item>, more: seq<Item>)
    requires LiveMore(n, n1, got) && LiveMore(n1, n2, more)
    ensures LiveMore(n, n2, got + more)
  {
  }

  lemma MoreLess(n: Node, n1: Node, n2: Node, got: seq<Item>)
    requires LiveMore(n, n1, got) && LiveLess(n1, n2, got)
    ensures LiveMore(n, n2, [])
  {
  }

  lemma NotUsed(pages: set<nat>, now: set<nat>, newPages: seq<nat>, i: nat)
    requires i < |newPages| && (newPages[i] != 0 ==> newPages[i] !in pages)
    requires forall j :: 0 <= j < i && newPages[i] != 0 ==> newPages[j] != newPages[i]
    requires forall g :: g in now ==> g in pages || g in newPages[..i]
    ensures newPages[i] != 0 ==> newPages[i] !in now
  {
  }

  /** Either a new item at `a` joined those held, or `a` is null and nothing changed hands. */
  ghost predicate Grown(n: Node, n': Node, got: seq<Item>, items: seq<nat>, item: Item, a: nat) {
    if a == 0 then Holding(n', got, items) && LiveMore(n, n', [])
    else Holding(n', got + [item], items + [a]) && LiveMore(n, n', [item])
  }

  lemma AllocGrows(n: Node, newPage: Option<nat>, got: seq<Item>, items: seq<nat>)
    requires Inv(n) && NewPageOk(n, newPage) && Holding(n, got, items)
    ensures var (n', taken) := Slab.Alloc(n, newPage);
            if taken.None? then Grown(n, n', got, items, Item(0, 0), 0)
            else Address(n, taken.value) > 0 ==> Grown(n, n', got, items, taken.value, Address(n, taken.value))
  {
    AllocKeeps(n, newPage);
    var (n', taken) := Slab.Alloc(n, newPage);
    if taken.None? {
      HoldingSame(n, n', got, items);
    } else {
      HoldingAfterAlloc(n, n', got, items, taken.value, Address(n, taken.value));
    }
  }

  lemma HoldingSame(n: Node, n': Node, got: seq<Item>, items: seq<nat>)
    requires Holding(n, got, items) && n'.size == n.size && n'.offset == n.offset && n'.pgsize == n.pgsize
    requires forall i :: Live(n, i) ==> Live(n', i)
    ensures Holding(n', got, items)
  {
    forall k | 0 <= k < |got|
      ensures Live(n', got[k]) && items[k] == Address(n', got[k])
    {
      assert Live(n, got[k]);
    }
  }

  /** The items are live, distinct, and at the given addresses. */
  ghost predicate Holding(n: Node, got: seq<Item>, items: seq<nat>) {
    && |got| == |items| && Distinct(got)
    && forall k :: 0 <= k < |got| ==> Live(n, got[k]) && items[k] == Address(n, got[k])
  }

  lemma HoldingLast(n: Node, got: seq<Item>, items: seq<nat>)
    requires Holding(n, got, items) && got != []
    ensures var m := |got| - 1; Holding(n, got[..m], items[..m]) && got[m] !in got[..m]
  {
  }

  lemma HoldingAfterFree(n: Node, n': Node, got: seq<Item>, items: seq<nat>, item: Item)
    requires Holding(n, got, items) && item !in got
    requires n'.size == n.size && n'.offset == n.offset && n'.pgsize == n.pgsize
    requires forall i :: Live(n', i) <==> Live(n, i) && i != item
    ensures Holding(n', got, items)
  {
    forall k | 0 <= k < |got|
      ensures Live(n', got[k]) && items[k] == Address(n', got[k])
    {
      assert Live(n, got[k]);
    }
  }

  lemma HoldingAfterAlloc(n: Node, n': Node, got: seq<Item>, items: seq<nat>, item: Item, a: nat)
    requires Holding(n, got, items) && !Live(n, item) && a == Address(n, item)
    requires n'.size == n.size && n'.offset == n.offset && n'.pgsize == n.pgsize
    requires forall i :: Live(n', i) <==> Live(n, i) || i == item
    ensures Holding(n', got + [item], items + [a])
  {
    forall k | 0 <= k < |got|
      ensures Live(n', got[k]) && items[k] == Address(n', got[k]) && got[k] != item
    {
      assert Live(n, got[k]);
    }
  }

  lemma AllocPages(n: Node, newPage: Option<nat>)
    requires Inv(n) && NewPageOk(n, newPage)
    ensures forall g :: g in Slab.Alloc(n, newPage).0.pages ==> g in n.pages || newPage == Some(g)
  {
  }

  /** The page struct's head pointer is null exactly when the free list is empty. */
  lemma HeadTells(mem: seq<nat>, next: seq<nat>, count: seq<int>, n: Node, g: nat)
    requires PagesLaid(mem, next, count, n) && g in n.pages
    ensures 0 < g < |next| && g < |count| && (next[g] == 0 <==> n.pages[g].free == [])
  {
    assert PageLaid(mem, next, count, n, g);
  }

  /** The address page g gives next: the head of its free list, else the bump offset. */
  function GivenAt(next: seq<nat>, g: nat, pgsize: nat, pgOff: nat): nat
    requires g < |next|
  {
    if next[g] != 0 then next[g] else Mul(g, pgsize) + pgOff
  }

  /** page_to_addr, relative to the start of page memory. */
  function PageAddress(g: nat, pgsize: nat): (a: nat)
    ensures a == Mul(g, pgsize)
  {
    MulIs(g, pgsize);
    g * pgsize
  }

  lemma TakenAt(mem: seq<nat>, next: seq<nat>, count: seq<int>, n: Node)
    requires Inv(n) && n.cur.Some? && Available(n, n.pages[n.cur.value]) > 0 && PagesLaid(mem, next, count, n)
    ensures n.cur.value < |next|
    ensures GivenAt(next, n.cur.value, n.pgsize, n.pgOff) == Address(n, Slab.TakeItem(n).1) > 0
  {
    var g := n.cur.value;
    HeadTells(mem, next, count, n, g);
    TakeKeeps(n);
    if next[g] != 0 {
      PopLaid(mem, next, count, n, g);
    } else {
      PagePositive(n, g);
      MulIs(n.pages[g].bumped, n.size);
    }
  }

  /** One more slot of page g was handed out for the first time. */
  ghost function Bumped(n: Node, g: nat): Node
    requires g in n.pages
  {
    SetPage(n, g, n.pages[g].(bumped := n.pages[g].bumped + 1)).(pgOff := n.pgOff + n.size)
  }

  /** The head of page g's free list was handed out. */
  ghost function PoppedFree(n: Node, g: nat): Node
    requires g in n.pages && n.pages[g].free != []
  {
    SetPage(n, g, n.pages[g].(free := n.pages[g].free[1..]))
  }

  lemma TakeForms(n: Node)
    requires n.cur.Some? && n.cur.value in n.pages
    ensures var g := n.cur.value;
            Slab.TakeItem(n).0 == if n.pages[g].free == [] then Bumped(n, g) else PoppedFree(n, g)
  {
  }

  lemma BumpLaid(mem: seq<nat>, next: seq<nat>, count: seq<int>, n: Node, g: nat)
    requires PagesLaid(mem, next, count, n) && g in n.pages
    ensures g < |next| && g < |count|
    ensures PagesLaid(mem, next, count[g := count[g] - 1], Bumped(n, g))
  {
    var n' := Bumped(n, g);
    assert PageLaid(mem, next, count, n, g);
    SameAddresses(n, n', g, n.pages[g].free);
    assert next == next[g := next[g]];
    OthersLaid(mem, next, count, n, n', g, next, count[g := count[g] - 1]);
  }
}
