/**
 * A slab allocator node (base/slab.c): pages cut into nr items of one size, a current page that is bumped and then
 * refilled through its free list, a list of full pages and a list of partial ones. Items are (page, slot) pairs here;
 * their addresses and the in-band free lists come with SlabMemory.
 */
module Slab {
  import opened Collections

  const PARTIAL_THRESH: nat := 4

  /** `free` is the page's free list, head first; slots from `bumped` on were never handed out. */
  datatype Page = Page(free: seq<nat>, bumped: nat)

  datatype Node = Node(
    size: nat,
    offset: nat,
    nr: nat,
    pgsize: nat,
    pages: map<nat, Page>,
    cur: Option<nat>,
    full: seq<nat>,
    partial: seq<nat>,
    pgOff: nat)

  datatype Item = Item(page: nat, slot: nat)

  /** item_count */
  function Available(n: Node, p: Page): int {
    |p.free| + n.nr - p.bumped
  }

  function InUse(cur: Option<nat>): seq<nat> {
    if cur.Some? then [cur.value] else []
  }

  /** __slab_node_get_page: a partial page, or a new one. */
  function GetPage(n: Node, newPage: Option<nat>): Node {
    if n.partial != [] then n.(cur := Some(n.partial[0]), partial := n.partial[1..])
    else if newPage.Some? then
      n.(cur := newPage, pages := n.pages[newPage.value := Page([], 0)], pgOff := n.offset)
    else n.(cur := None)
  }

  /** The start of __slab_node_alloc: make sure the current page has something to give. */
  function Refill(n: Node, newPage: Option<nat>): Node
    requires n.cur.Some? ==> n.cur.value in n.pages
  {
    if n.cur.Some? && Available(n, n.pages[n.cur.value]) != 0 then n
    else GetPage(n.(full := InUse(n.cur) + n.full), newPage)
  }

  /** The end of __slab_node_alloc: take from the free list, else bump. */
  function TakeItem(n: Node): (Node, Item)
    requires n.cur.Some? && n.cur.value in n.pages
  {
    var g := n.cur.value;
    var p := n.pages[g];
    if p.free != [] then (n.(pages := n.pages[g := p.(free := p.free[1..])]), Item(g, p.free[0]))
    else (n.(pages := n.pages[g := p.(bumped := p.bumped + 1)], pgOff := n.pgOff + n.size), Item(g, p.bumped))
  }

  function Alloc(n: Node, newPage: Option<nat>): (Node, Option<Item>)
    requires n.cur.Some? ==> n.cur.value in n.pages
    requires n.partial != [] ==> n.partial[0] in n.pages
  {
    var n1 := Refill(n, newPage);
    if n1.cur.None? then (n1, None)
    else var (n2, item) := TakeItem(n1); (n2, Some(item))
  }

  /** The node with another page state for g. */
  function SetPage(n: Node, g: nat, p: Page): Node {
    n.(pages := n.pages[g := p])
  }

  /** The page an item was freed to. */
  function Refilled(n: Node, item: Item): Page
    requires item.page in n.pages
  {
    n.pages[item.page].(free := [item.slot] + n.pages[item.page].free)
  }

  /** Move page g to the list its count calls for, or give it back. */
  function Relist(n: Node, g: nat): Node
    requires g in n.pages
  {
    if n.cur == Some(g) then n
    else if Available(n, n.pages[g]) == PARTIAL_THRESH then
      n.(full := Without(n.full, g), partial := [g] + Without(n.partial, g))
    else if Available(n, n.pages[g]) == n.nr then
      n.(full := Without(n.full, g), partial := Without(n.partial, g), pages := n.pages - {g})
    else n
  }

  /** slab_node_free */
  function Free(n: Node, item: Item): Node
    requires item.page in n.pages
  {
    Relist(SetPage(n, item.page, Refilled(n, item)), item.page)
  }

  /* What every operation keeps. */

  /** The items fit the page. */
  predicate Fits(n: Node) {
    n.size > 0 && n.nr >= 2 * PARTIAL_THRESH && n.offset + n.nr * n.size <= n.pgsize
  }

  ghost predicate PageOk(n: Node, p: Page) {
    p.bumped <= n.nr && Distinct(p.free) && forall k :: k in p.free ==> k < p.bumped
  }

  ghost predicate PagesOk(n: Node) {
    forall g :: g in n.pages ==> PageOk(n, n.pages[g])
  }

  /** Every page is in exactly one place: current, full list or partial list. */
  ghost predicate PlacesOk(n: Node) {
    && Distinct(n.full) && Distinct(n.partial)
    && (forall g :: g in n.pages <==> n.cur == Some(g) || g in n.full || g in n.partial)
    && (forall g :: g in n.full ==> g !in n.partial && n.cur != Some(g))
    && (forall g :: g in n.partial ==> n.cur != Some(g))
  }

  /** Page classes are exact: 0..3 free items on the full list, 4..nr-1 on the partial list, all of them once bumped. */
  ghost predicate ClassesOk(n: Node)
    requires PlacesOk(n)
  {
    && (forall g :: g in n.full ==> n.pages[g].bumped == n.nr && |n.pages[g].free| < PARTIAL_THRESH)
    && (forall g :: g in n.partial ==> n.pages[g].bumped == n.nr && PARTIAL_THRESH <= |n.pages[g].free| < n.nr)
  }

  /** The one bump offset belongs to the current page whenever that page has unbumped slots. */
  ghost predicate BumpOk(n: Node)
    requires PlacesOk(n)
  {
    n.cur.Some? && n.pages[n.cur.value].bumped < n.nr ==>
      n.pgOff == n.offset + n.pages[n.cur.value].bumped * n.size
  }

  ghost predicate Inv(n: Node) {
    Fits(n) && PagesOk(n) && PlacesOk(n) && ClassesOk(n) && BumpOk(n)
  }

  /** The item is in the hands of a client. */
  ghost predicate Live(n: Node, i: Item) {
    i.page in n.pages && i.slot < n.pages[i.page].bumped && i.slot !in n.pages[i.page].free
  }

  ghost predicate NewPageOk(n: Node, newPage: Option<nat>) {
    newPage.Some? ==> newPage.value !in n.pages
  }

  /* Refilling: the exhausted page retires to the full list, then a page is adopted or added. */

  function Retire(n: Node): Node {
    n.(full := InUse(n.cur) + n.full, cur := None)
  }

  lemma RetireKeeps(n: Node)
    requires Inv(n) && (n.cur.Some? ==> Available(n, n.pages[n.cur.value]) == 0)
    ensures Inv(Retire(n))
  {
    if n.cur.Some? {
      assert PageOk(n, n.pages[n.cur.value]);
      DistinctCons(n.full, n.cur.value);
    } else {
      assert InUse(n.cur) + n.full == n.full;
    }
  }

  lemma AdoptKeeps(n: Node)
    requires Inv(n) && n.cur.None? && n.partial != []
    ensures Inv(GetPage(n, None)) && GetPage(n, None).cur.Some?
    ensures Available(n, n.pages[n.partial[0]]) > 0
  {
    DistinctTail(n.partial);
  }

  lemma AddKeeps(n: Node, g: nat)
    requires Inv(n) && n.cur.None? && n.partial == [] && g !in n.pages
    ensures Inv(GetPage(n, Some(g)))
    ensures forall i :: Live(GetPage(n, Some(g)), i) <==> Live(n, i)
  {
  }

  /** After refilling, the current page, if there is one, has an item to give; no item changes hands. */
  lemma RefillKeeps(n: Node, newPage: Option<nat>)
    requires Inv(n) && NewPageOk(n, newPage)
    ensures Inv(Refill(n, newPage))
    ensures var n' := Refill(n, newPage); n'.cur.Some? ==> Available(n', n'.pages[n'.cur.value]) > 0
    ensures forall i :: Live(Refill(n, newPage), i) <==> Live(n, i)
    ensures Refill(n, newPage).cur.None? ==> n.partial == [] && newPage.None?
  {
    if n.cur.Some? && Available(n, n.pages[n.cur.value]) != 0 {
      assert PageOk(n, n.pages[n.cur.value]);
    } else {
      RetireKeeps(n);
      var n1 := Retire(n);
      assert Refill(n, newPage) == GetPage(n1, newPage);
      if n.partial != [] {
        AdoptKeeps(n1);
      } else if newPage.Some? {
        AddKeeps(n1, newPage.value);
      }
    }
  }

  /* Taking and freeing change one page. */

  lemma CurrentChanged(n: Node, p: Page)
    requires Inv(n) && n.cur.Some? && PageOk(n, p) && p.bumped == n.pages[n.cur.value].bumped
    ensures Inv(SetPage(n, n.cur.value, p))
  {
  }

  lemma CurrentBumped(n: Node)
    requires Inv(n) && n.cur.Some? && n.pages[n.cur.value].bumped < n.nr
    ensures var p := n.pages[n.cur.value];
            n.pgOff == n.offset + p.bumped * n.size
            && Inv(SetPage(n, n.cur.value, p.(bumped := p.bumped + 1)).(pgOff := n.pgOff + n.size))
  {
    var p := n.pages[n.cur.value];
    assert PageOk(n, p);
    assert (p.bumped + 1) * n.size == p.bumped * n.size + n.size;
  }

  /** Only page g's live items change. */
  lemma LiveChanged(n: Node, n': Node, g: nat)
    requires g in n.pages && g in n'.pages && n'.pages == n.pages[g := n'.pages[g]]
    ensures forall i: Item :: i.page != g ==> (Live(n', i) <==> Live(n, i))
  {
  }

  /** A page whose free list is empty still has unbumped slots, so the bump offset is only used when it is meaningful. */
  lemma TakeKeeps(n: Node)
    requires Inv(n) && n.cur.Some? && Available(n, n.pages[n.cur.value]) > 0
    ensures Inv(TakeItem(n).0)
    ensures n.pages[n.cur.value].free == [] ==>
              n.pages[n.cur.value].bumped < n.nr && n.pgOff == n.offset + n.pages[n.cur.value].bumped * n.size
  {
    var g := n.cur.value;
    var p := n.pages[g];
    assert PageOk(n, p);
    if p.free == [] {
      CurrentBumped(n);
    } else {
      DistinctTail(p.free);
      CurrentChanged(n, p.(free := p.free[1..]));
    }
  }

  lemma TakeLive(n: Node)
    requires Inv(n) && n.cur.Some? && Available(n, n.pages[n.cur.value]) > 0
    ensures var (n', item) := TakeItem(n);
            !Live(n, item) && item.slot < n.nr && forall i :: Live(n', i) <==> Live(n, i) || i == item
  {
    var g := n.cur.value;
    var p := n.pages[g];
    assert PageOk(n, p);
    LiveChanged(n, TakeItem(n).0, g);
    if p.free != [] {
      DistinctTail(p.free);
    }
  }

  /** Allocation makes exactly one item live, one that was not; it fails only without partial pages or new memory. */
  lemma AllocKeeps(n: Node, newPage: Option<nat>)
    requires Inv(n) && NewPageOk(n, newPage)
    ensures var (n', item) := Alloc(n, newPage);
            Inv(n')
            && (item.Some? ==> !Live(n, item.value) && item.value.slot < n.nr)
            && (item.None? ==> n.partial == [] && newPage.None?)
            && forall i :: Live(n', i) <==> Live(n, i) || item == Some(i)
  {
    RefillKeeps(n, newPage);
    var n1 := Refill(n, newPage);
    if n1.cur.Some? {
      TakeKeeps(n1);
      TakeLive(n1);
    }
  }

  /* Which item, and where a page goes. */

  /** The page allocation takes from: the current one while it has items, else the first partial one, else the new one. */
  ghost function Giver(n: Node, newPage: Option<nat>): Option<nat>
    requires Inv(n)
  {
    if n.cur.Some? && Available(n, n.pages[n.cur.value]) > 0 then n.cur
    else if n.partial != [] then Some(n.partial[0])
    else newPage
  }

  /** The giver's free list is used up, last in first out, before a slot is cut; new memory is asked for last. */
  lemma AllocNearest(n: Node, newPage: Option<nat>)
    requires Inv(n) && NewPageOk(n, newPage)
    ensures var (n', item), g := Alloc(n, newPage), Giver(n, newPage);
            && n'.cur == g && (item.None? <==> g.None?)
            && (item.Some? && g.value in n.pages ==>
                  var p := n.pages[g.value];
                  && item.value == Item(g.value, if p.free != [] then p.free[0] else p.bumped)
                  && n'.pages == n.pages[g.value :=
                       if p.free != [] then p.(free := p.free[1..]) else p.(bumped := p.bumped + 1)])
            && (item.Some? && g.value !in n.pages ==>
                  item.value == Item(g.value, 0) && n'.pages == n.pages[g.value := Page([], 1)])
  {
    if n.cur.Some? {
      assert PageOk(n, n.pages[n.cur.value]);
    }
  }

  /** A freed item is the next its page gives; a page that becomes partial is the next to be adopted. */
  lemma FreeNearest(n: Node, item: Item)
    requires Inv(n) && Live(n, item)
    ensures var n', g := Free(n, item), item.page;
            && n'.cur == n.cur
            && (g in n'.pages ==> n'.pages == n.pages[g := n.pages[g].(free := [item.slot] + n.pages[g].free)])
            && (g !in n'.pages ==> n'.pages == n.pages - {g})
            && (n.cur != Some(g) && |n.pages[g].free| + 1 == PARTIAL_THRESH ==>
                  n'.partial == [g] + n.partial && g in n.full && g !in n'.full)
  {
    var g := item.page;
    RefilledOk(n, item);
    if n.cur != Some(g) && |n.pages[g].free| + 1 == PARTIAL_THRESH {
      WithoutAbsent(n.partial, g);
      WithoutElements(n.full, g);
    }
    assert SetPage(n, g, Refilled(n, item)).pages - {g} == n.pages - {g};
  }

  lemma RefilledOk(n: Node, item: Item)
    requires PagesOk(n) && Live(n, item)
    ensures PageOk(n, Refilled(n, item)) && |Refilled(n, item).free| <= n.nr
    ensures forall k :: k in Refilled(n, item).free <==> k == item.slot || k in n.pages[item.page].free
  {
    var p := n.pages[item.page];
    assert PageOk(n, p);
    DistinctCons(p.free, item.slot);
    DistinctBelow(Refilled(n, item).free, p.bumped);
  }

  /** The page stays where it is: on the full list below the threshold, on the partial list until it is all free. */
  lemma StaysKeeps(n: Node, g: nat, p: Page)
    requires Inv(n) && g in n.pages && n.cur != Some(g) && PageOk(n, p) && p.bumped == n.nr
    requires |p.free| == |n.pages[g].free| + 1 && |p.free| != PARTIAL_THRESH && |p.free| < n.nr
    ensures Inv(SetPage(n, g, p))
  {
  }

  lemma MovesKeeps(n: Node, g: nat, p: Page)
    requires Inv(n) && g in n.pages && n.cur != Some(g) && PageOk(n, p) && p.bumped == n.nr
    requires |p.free| == |n.pages[g].free| + 1 == PARTIAL_THRESH
    ensures g in n.full && Inv(SetPage(n, g, p).(full := Without(n.full, g), partial := [g] + n.partial))
  {
    WithoutElements(n.full, g);
    DistinctCons(n.partial, g);
  }

  lemma LeavesKeeps(n: Node, g: nat)
    requires Inv(n) && g in n.pages && n.cur != Some(g) && |n.pages[g].free| + 1 == n.nr
    ensures g in n.partial && Inv(n.(partial := Without(n.partial, g), pages := n.pages - {g}))
  {
    WithoutElements(n.partial, g);
  }

  lemma {:induction false} WithoutAbsent(s: seq<nat>, x: nat)
    requires x !in s
    ensures Without(s, x) == s
  {
    if s != [] {
      WithoutAbsent(s[1..], x);
    }
  }

  /** Freeing keeps the invariant; a page is given back exactly when it is not current and all its items are free. */
  lemma FreeKeeps(n: Node, item: Item)
    requires Inv(n) && Live(n, item)
    ensures Inv(Free(n, item))
    ensures item.page !in Free(n, item).pages <==> n.cur != Some(item.page) && |Refilled(n, item).free| == n.nr
  {
    var g, p := item.page, Refilled(n, item);
    RefilledOk(n, item);
    if n.cur == Some(g) {
      CurrentChanged(n, p);
    } else {
      assert n.pages[g].bumped == n.nr;
      if |p.free| == PARTIAL_THRESH {
        MovesKeeps(n, g, p);
        WithoutAbsent(n.partial, g);
      } else if |p.free| == n.nr {
        LeavesKeeps(n, g);
        WithoutAbsent(n.full, g);
        assert SetPage(n, g, p).pages - {g} == n.pages - {g};
      } else {
        StaysKeeps(n, g, p);
      }
    }
  }

  /** Freeing makes exactly that item not live. */
  lemma FreeLive(n: Node, item: Item)
    requires Inv(n) && Live(n, item)
    ensures forall i :: Live(Free(n, item), i) <==> Live(n, i) && i != item
  {
    RefilledOk(n, item);
    var n' := Free(n, item);
    if item.page in n'.pages {
      LiveChanged(n, n', item.page);
    } else {
      forall i: Item | i.page == item.page && i != item
        ensures !Live(n, i)
      {
        AllFree(n.nr, Refilled(n, item).free, i.slot);
      }
    }
  }

  /** A free list of nr distinct slots below nr holds every slot. */
  lemma AllFree(nr: nat, free: seq<nat>, k: nat)
    requires Distinct(free) && |free| == nr && forall j :: j in free ==> j < nr
    ensures k < nr ==> k in free
  {
    if k < nr && k !in free {
      DistinctCons(free, k);
      DistinctBelow([k] + free, nr);
    }
  }

  /* slab_tcache_free frees through the freeing thread's node, whichever node the item's page belongs to. */

  /** The owner of the page and the node freed through, when they differ. */
  datatype Pair = Pair(owner: Node, through: Node)

  /** slab_node_free with another node's lists: the page is unlinked from wherever it is and may be linked there. */
  function FreeThrough(p: Pair, item: Item): Pair
    requires item.page in p.owner.pages
  {
    var g := item.page;
    var n := SetPage(p.owner, g, Refilled(p.owner, item));
    var unlinked := n.(full := Without(n.full, g), partial := Without(n.partial, g));
    if Available(n, n.pages[g]) == PARTIAL_THRESH then
      Pair(unlinked, p.through.(partial := [g] + p.through.partial))
    else if Available(n, n.pages[g]) == n.nr then Pair(unlinked.(pages := n.pages - {g}), p.through)
    else Pair(n, p.through)
  }

  /** The free goes wrong even when nobody disturbs it: the page would become partial, or it is the owner's current page and would be given back. */
  predicate Misfiled(n: Node, item: Item)
    requires item.page in n.pages
  {
    var available := Available(n, n.pages[item.page]) + 1;
    available == PARTIAL_THRESH || (n.cur == Some(item.page) && available == n.nr)
  }

  lemma ThroughKeeps(p: Pair, item: Item)
    requires Inv(p.owner) && Inv(p.through) && Live(p.owner, item) && !Misfiled(p.owner, item)
    ensures Inv(FreeThrough(p, item).owner) && FreeThrough(p, item).through == p.through
  {
    var n, g, q := p.owner, item.page, Refilled(p.owner, item);
    RefilledOk(n, item);
    if n.cur == Some(g) {
      CurrentChanged(n, q);
    } else {
      assert n.pages[g].bumped == n.nr;
      if |q.free| == n.nr {
        LeavesKeeps(n, g);
        WithoutAbsent(n.full, g);
        assert SetPage(n, g, q).pages - {g} == n.pages - {g};
      } else {
        StaysKeeps(n, g, q);
      }
    }
  }

  lemma ThroughBreaks(p: Pair, item: Item)
    requires Inv(p.owner) && Inv(p.through) && Live(p.owner, item) && Misfiled(p.owner, item)
    requires item.page !in p.through.pages
    ensures !PlacesOk(FreeThrough(p, item).owner) || !PlacesOk(FreeThrough(p, item).through)
  {
    var p', g := FreeThrough(p, item), item.page;
    if Available(p.owner, Refilled(p.owner, item)) == PARTIAL_THRESH {
      assert p'.through.partial[0] == g && g !in p'.through.pages;
    } else {
      assert p'.owner.cur == Some(g) && g !in p'.owner.pages;
    }
  }

  /**
   * Undisturbed, freeing an item through a node that does not own its page leaves both nodes' page lists exact if and only
   * if the page does not become partial by it and, when it is the owner's current page, does not become all free. The free
   * holds the wrong lock, though: SlabRace says when it is safe whatever the owner does meanwhile.
   */
  lemma FreeThroughExact(p: Pair, item: Item)
    requires Inv(p.owner) && Inv(p.through) && Live(p.owner, item) && item.page !in p.through.pages
    ensures Inv(FreeThrough(p, item).owner) && Inv(FreeThrough(p, item).through) <==> !Misfiled(p.owner, item)
  {
    if Misfiled(p.owner, item) {
      ThroughBreaks(p, item);
    } else {
      ThroughKeeps(p, item);
    }
  }
}
