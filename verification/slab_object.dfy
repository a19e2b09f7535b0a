/** A slab node as it is in memory: page structs, and free lists threaded through the free items themselves. */
module SlabObject {
  import opened Chains
  import opened Collections
  import opened Slab
  import opened SlabMemory

  function Addresses(n: Node, g: nat, slots: seq<nat>): seq<nat> {
    seq(|slots|, k requires 0 <= k < |slots| => Address(n, Item(g, slots[k])))
  }

  lemma SameAddresses(n: Node, n': Node, g: nat, slots: seq<nat>)
    requires n'.size == n.size && n'.offset == n.offset && n'.pgsize == n.pgsize
    ensures Addresses(n', g, slots) == Addresses(n, g, slots)
  {
  }

  lemma AddressesTail(n: Node, n': Node, g: nat, slots: seq<nat>)
    requires n'.size == n.size && n'.offset == n.offset && n'.pgsize == n.pgsize && slots != []
    ensures Addresses(n', g, slots[1..]) == Addresses(n, g, slots)[1..]
  {
  }

  /** Page g's struct and free list represent its state. */
  ghost predicate PageLaid(mem: seq<nat>, next: seq<nat>, count: seq<int>, n: Node, g: nat)
    requires g in n.pages
  {
    && 0 < g < |next| && g < |count| && Mul(g, n.pgsize) + n.pgsize <= |mem|
    && count[g] == Available(n, n.pages[g])
    && Chain(mem, next[g], Addresses(n, g, n.pages[g].free))
  }

  ghost predicate PagesLaid(mem: seq<nat>, next: seq<nat>, count: seq<int>, n: Node) {
    forall g :: g in n.pages ==> PageLaid(mem, next, count, n, g)
  }

  lemma Differ(n: Node, i: Item, j: Item)
    requires Fits(n) && i.slot < n.nr && j.slot < n.nr && i != j
    ensures Address(n, i) != Address(n, j)
  {
    ItemsApart(n, i, j);
  }

  lemma AddressAt(n: Node, g: nat, slots: seq<nat>, k: nat)
    requires k < |slots|
    ensures Addresses(n, g, slots)[k] == Address(n, Item(g, slots[k]))
  {
  }

  /** A slot's address is not among those of other slots. */
  lemma Misses(n: Node, g: nat, slots: seq<nat>, i: Item, items: seq<nat>, a: nat)
    requires Fits(n) && i.slot < n.nr && (i.page != g || i.slot !in slots) && forall k :: k in slots ==> k < n.nr
    requires items == Addresses(n, g, slots) && a == Address(n, i)
    ensures a !in items
  {
    if a in items {
      var k :| 0 <= k < |items| && items[k] == a;
      AddressAt(n, g, slots, k);
      assert slots[k] in slots;
      Differ(n, Item(g, slots[k]), i);
    }
  }

  lemma AddressInside(mem: seq<nat>, next: seq<nat>, count: seq<int>, n: Node, i: Item)
    requires Fits(n) && i.page in n.pages && PageLaid(mem, next, count, n, i.page) && i.slot < n.nr
    ensures 0 < Address(n, i) < |mem|
  {
    InsidePage(n, i);
    PagePositive(n, i.page);
  }

  lemma PagePositive(n: Node, g: nat)
    requires Fits(n) && g > 0
    ensures Mul(g, n.pgsize) > 0
  {
    MulIs(g, n.pgsize);
  }

  /** Writing a word off a page's free list. */
  lemma PageWritten(mem: seq<nat>, next: seq<nat>, count: seq<int>, n: Node, g: nat, a: nat, v: nat)
    requires g in n.pages && PageLaid(mem, next, count, n, g) && a < |mem|
    requires a !in Addresses(n, g, n.pages[g].free)
    ensures PageLaid(mem[a := v], next, count, n, g)
  {
    ChainFrame(mem, mem[a := v], next[g], Addresses(n, g, n.pages[g].free));
  }

  /** Writing the first word of a slot that is not on its page's free list disturbs no free list. */
  lemma WriteElsewhere(mem: seq<nat>, next: seq<nat>, count: seq<int>, n: Node, i: Item, a: nat, v: nat)
    requires Fits(n) && PagesOk(n) && PagesLaid(mem, next, count, n) && i.page in n.pages && i.slot < n.nr
    requires i.slot !in n.pages[i.page].free && a == Address(n, i) && a < |mem|
    ensures PagesLaid(mem[a := v], next, count, n)
  {
    forall g | g in n.pages
      ensures PageLaid(mem[a := v], next, count, n, g)
    {
      assert PageOk(n, n.pages[g]);
      Misses(n, g, n.pages[g].free, i, Addresses(n, g, n.pages[g].free), a);
      PageWritten(mem, next, count, n, g, a, v);
    }
  }

  /** Popping a page's free list. */
  lemma PopLaid(mem: seq<nat>, next: seq<nat>, count: seq<int>, n: Node, g: nat)
    requires PagesLaid(mem, next, count, n) && g in n.pages && n.pages[g].free != []
    ensures PageLaid(mem, next, count, n, g)
    ensures next[g] == Address(n, Item(g, n.pages[g].free[0])) && 0 < next[g] < |mem|
    ensures PagesLaid(mem, next[g := mem[next[g]]], count[g := count[g] - 1],
                      SetPage(n, g, n.pages[g].(free := n.pages[g].free[1..])))
  {
    var p := n.pages[g];
    var n' := SetPage(n, g, p.(free := p.free[1..]));
    assert PageLaid(mem, next, count, n, g);
    ChainPop(mem, next[g], Addresses(n, g, p.free));
    AddressesTail(n, n', g, p.free);
    OthersLaid(mem, next, count, n, n', g, next[g := mem[next[g]]], count[g := count[g] - 1]);
  }

  /** Changing page g's struct leaves the other pages laid out as before. */
  lemma OthersLaid(mem: seq<nat>, next: seq<nat>, count: seq<int>, n: Node, n': Node, g: nat, next': seq<nat>, count': seq<int>)
    requires PagesLaid(mem, next, count, n) && g < |next| && g < |count|
    requires next' == next[g := if g < |next'| then next'[g] else 0] && count' == count[g := if g < |count'| then count'[g] else 0]
    requires g in n'.pages && n'.pages == n.pages[g := n'.pages[g]]
    requires n'.size == n.size && n'.offset == n.offset && n'.nr == n.nr && n'.pgsize == n.pgsize
    requires PageLaid(mem, next', count', n', g)
    ensures PagesLaid(mem, next', count', n')
  {
    forall h | h in n'.pages && h != g
      ensures PageLaid(mem, next', count', n', h)
    {
      assert PageLaid(mem, next, count, n, h);
      SameAddresses(n, n', h, n.pages[h].free);
    }
  }

  lemma AddressesCons(n: Node, n': Node, g: nat, slot: nat, slots: seq<nat>)
    requires n'.size == n.size && n'.offset == n.offset && n'.pgsize == n.pgsize
    ensures Addresses(n', g, [slot] + slots) == [Address(n, Item(g, slot))] + Addresses(n, g, slots)
  {
  }

  lemma PagePushed(mem: seq<nat>, next: seq<nat>, count: seq<int>, n: Node, i: Item, a: nat)
    requires i.page in n.pages && PageLaid(mem, next, count, n, i.page) && a == Address(n, i) && 0 < a < |mem|
    requires a !in Addresses(n, i.page, n.pages[i.page].free)
    ensures PageLaid(mem[a := next[i.page]], next[i.page := a], count[i.page := count[i.page] + 1],
                     SetPage(n, i.page, Refilled(n, i)), i.page)
  {
    var g, n' := i.page, SetPage(n, i.page, Refilled(n, i));
    ChainPush(mem, next[g], Addresses(n, g, n.pages[g].free), a);
    AddressesCons(n, n', g, i.slot, n.pages[g].free);
  }

  /** Pushing a slot on its page's free list. */
  lemma PushLaid(mem: seq<nat>, next: seq<nat>, count: seq<int>, n: Node, i: Item, a: nat)
    requires Fits(n) && PagesOk(n) && PagesLaid(mem, next, count, n) && i.page in n.pages && i.slot < n.nr
    requires i.slot !in n.pages[i.page].free && a == Address(n, i)
    ensures PageLaid(mem, next, count, n, i.page) && 0 < a < |mem|
    ensures PagesLaid(mem[a := next[i.page]], next[i.page := a], count[i.page := count[i.page] + 1],
                      SetPage(n, i.page, Refilled(n, i)))
  {
    var g := i.page;
    assert PageLaid(mem, next, count, n, g) && PageOk(n, n.pages[g]);
    AddressInside(mem, next, count, n, i);
    WriteElsewhere(mem, next, count, n, i, a, next[g]);
    Misses(n, g, n.pages[g].free, i, Addresses(n, g, n.pages[g].free), a);
    PagePushed(mem, next, count, n, i, a);
    OthersLaid(mem[a := next[g]], next, count, n, SetPage(n, g, Refilled(n, i)), g, next[g := a], count[g := count[g] + 1]);
  }

  /** A page given up no longer matters. */
  lemma DropLaid(mem: seq<nat>, next: seq<nat>, count: seq<int>, n: Node, g: nat)
    requires PagesLaid(mem, next, count, n)
    ensures PagesLaid(mem, next, count, n.(pages := n.pages - {g}))
  {
    var n' := n.(pages := n.pages - {g});
    forall h | h in n'.pages
      ensures PageLaid(mem, next, count, n', h)
    {
      assert PageLaid(mem, next, count, n, h);
      SameAddresses(n, n', h, n.pages[h].free);
    }
  }

  /** Layout depends on the pages and the sizes only. */
  lemma SameLaid(mem: seq<nat>, next: seq<nat>, count: seq<int>, n: Node, n': Node)
    requires PagesLaid(mem, next, count, n) && n'.pages == n.pages
    requires n'.size == n.size && n'.offset == n.offset && n'.nr == n.nr && n'.pgsize == n.pgsize
    ensures PagesLaid(mem, next, count, n')
  {
    forall h | h in n'.pages
      ensures PageLaid(mem, next, count, n', h)
    {
      assert PageLaid(mem, next, count, n, h);
      SameAddresses(n, n', h, n.pages[h].free);
    }
  }
}
