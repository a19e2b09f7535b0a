/**
 * Freeing under the wrong lock (base/slab.c, slab_tcache_free). An item is freed through the freeing thread's node, whose
 * lock does not protect another node's pages. The page structs are modelled in memory, with free lists threaded through the
 * items, and such a free is split into its loads and stores, between which the owner's locked operations may come.
 */
module SlabRace {
  import opened Chains
  import opened Collections
  import opened Slab
  import M = SlabMemory

  /** A page: the first word of slot k at k + 1 (zero is the null pointer), head and count of its struct, slots cut so far. */
  datatype Cell = Cell(words: seq<nat>, head: nat, bumped: nat, count: int)

  datatype Memory = Memory(
    size: nat,
    offset: nat,
    nr: nat,
    pgsize: nat,
    cells: map<nat, Cell>,
    cur: Option<nat>,
    full: seq<nat>,
    partial: seq<nat>,
    pgOff: nat)

  /* The owner's operations, each under the owner's lock. */

  function WithCell(m: Memory, g: nat, c: Cell): Memory {
    m.(cells := m.cells[g := c])
  }

  function Adopt(m: Memory, newPage: Option<nat>): Memory {
    if m.partial != [] then m.(cur := Some(m.partial[0]), partial := m.partial[1..])
    else if newPage.Some? then
      WithCell(m, newPage.value, Cell(seq(m.nr + 1, _ => 0), 0, 0, m.nr)).(cur := newPage, pgOff := m.offset)
    else m.(cur := None)
  }

  function Ready(m: Memory, newPage: Option<nat>): Memory
    requires m.cur.Some? ==> m.cur.value in m.cells
  {
    if m.cur.Some? && m.cells[m.cur.value].count != 0 then m
    else Adopt(m.(full := InUse(m.cur) + m.full), newPage)
  }

  function Pop(c: Cell): Cell {
    c.(head := if c.head < |c.words| then c.words[c.head] else 0, count := c.count - 1)
  }

  function Cut(m: Memory): (Memory, Item)
    requires m.cur.Some? && m.cur.value in m.cells
  {
    var g := m.cur.value;
    var c := m.cells[g];
    if c.head != 0 then (WithCell(m, g, Pop(c)), Item(g, c.head - 1))
    else (WithCell(m, g, c.(bumped := c.bumped + 1, count := c.count - 1)).(pgOff := m.pgOff + m.size), Item(g, c.bumped))
  }

  /** __slab_node_alloc */
  function Give(m: Memory, newPage: Option<nat>): (Memory, Option<Item>)
    requires m.cur.Some? ==> m.cur.value in m.cells
    requires m.partial != [] ==> m.partial[0] in m.cells
  {
    var m1 := Ready(m, newPage);
    if m1.cur.None? then (m1, None)
    else var (m2, item) := Cut(m1); (m2, Some(item))
  }

  /** Write the first word of slot k. */
  function Scrawl(c: Cell, k: nat, v: nat): Cell {
    if k + 1 < |c.words| then c.(words := c.words[k + 1 := v]) else c
  }

  function Push(c: Cell, k: nat): Cell {
    Scrawl(c, k, c.head).(head := k + 1, count := c.count + 1)
  }

  function Relink(m: Memory, g: nat): Memory
    requires g in m.cells
  {
    if m.cur == Some(g) then m
    else if m.cells[g].count == PARTIAL_THRESH then
      m.(full := Without(m.full, g), partial := [g] + Without(m.partial, g))
    else if m.cells[g].count == m.nr then
      m.(full := Without(m.full, g), partial := Without(m.partial, g), cells := m.cells - {g})
    else m
  }

  /** slab_node_free through the owner */
  function TakeBack(m: Memory, item: Item): Memory
    requires item.page in m.cells
  {
    Relink(WithCell(m, item.page, Push(m.cells[item.page], item.slot)), item.page)
  }

  /* What the memory stands for. */

  function Up(slots: seq<nat>): seq<nat> {
    seq(|slots|, k requires 0 <= k < |slots| => slots[k] + 1)
  }

  ghost predicate CellShows(c: Cell, nr: nat, p: Page) {
    && |c.words| == nr + 1 && c.bumped == p.bumped && c.count == |p.free| + nr - p.bumped
    && Chain(c.words, c.head, Up(p.free))
  }

  ghost predicate SameLists(m: Memory, n: Node) {
    && m.size == n.size && m.offset == n.offset && m.nr == n.nr && m.pgsize == n.pgsize
    && m.cur == n.cur && m.full == n.full && m.partial == n.partial && m.pgOff == n.pgOff
  }

  ghost predicate Shows(m: Memory, n: Node) {
    && SameLists(m, n) && (forall g :: g in m.cells <==> g in n.pages)
    && forall g :: g in n.pages ==> CellShows(m.cells[g], n.nr, n.pages[g])
  }

  /* The owner's operations do to the memory what Slab's do to the pages. */

  lemma UpTail(slots: seq<nat>)
    requires slots != []
    ensures Up(slots)[1..] == Up(slots[1..])
  {
  }

  lemma UpCons(k: nat, slots: seq<nat>)
    ensures Up([k] + slots) == [k + 1] + Up(slots)
  {
  }

  lemma UpMisses(k: nat, slots: seq<nat>)
    requires k !in slots
    ensures k + 1 !in Up(slots)
  {
  }

  lemma PopShows(c: Cell, nr: nat, p: Page)
    requires CellShows(c, nr, p) && p.free != []
    ensures c.head == p.free[0] + 1 && CellShows(Pop(c), nr, p.(free := p.free[1..]))
  {
    ChainPop(c.words, c.head, Up(p.free));
    UpTail(p.free);
    assert Up(p.free)[0] == p.free[0] + 1;
  }

  lemma ScrawlShows(c: Cell, nr: nat, p: Page, k: nat, v: nat)
    requires CellShows(c, nr, p) && k !in p.free
    ensures CellShows(Scrawl(c, k, v), nr, p)
  {
    UpMisses(k, p.free);
    if k + 1 < |c.words| {
      ChainFrame(c.words, c.words[k + 1 := v], c.head, Up(p.free));
    }
  }

  lemma PushShows(c: Cell, nr: nat, p: Page, k: nat)
    requires CellShows(c, nr, p) && k !in p.free && k < nr
    ensures CellShows(Push(c, k), nr, p.(free := [k] + p.free))
  {
    UpMisses(k, p.free);
    ChainPush(c.words, c.head, Up(p.free), k + 1);
    UpCons(k, p.free);
  }

  lemma SetShows(m: Memory, n: Node, g: nat, c: Cell, p: Page)
    requires Shows(m, n) && g in n.pages && CellShows(c, n.nr, p)
    ensures Shows(WithCell(m, g, c), SetPage(n, g, p))
  {
  }

  lemma ReadyShows(m: Memory, n: Node, newPage: Option<nat>)
    requires Shows(m, n) && Inv(n)
    ensures Shows(Ready(m, newPage), Refill(n, newPage))
  {
    if !(n.cur.Some? && Available(n, n.pages[n.cur.value]) != 0) && n.partial == [] && newPage.Some? {
      assert Up([]) == [];
    }
  }

  lemma CutShows(m: Memory, n: Node)
    requires Shows(m, n) && n.cur.Some? && n.cur.value in n.pages
    ensures Shows(Cut(m).0, TakeItem(n).0) && Cut(m).1 == TakeItem(n).1
  {
    var g := n.cur.value;
    var c, p := m.cells[g], n.pages[g];
    assert CellShows(c, n.nr, p);
    if p.free != [] {
      PopShows(c, n.nr, p);
      SetShows(m, n, g, Pop(c), p.(free := p.free[1..]));
    } else {
      SetShows(m, n, g, c.(bumped := c.bumped + 1, count := c.count - 1), p.(bumped := p.bumped + 1));
    }
  }

  lemma GiveShows(m: Memory, n: Node, newPage: Option<nat>)
    requires Shows(m, n) && Inv(n) && NewPageOk(n, newPage)
    ensures Shows(Give(m, newPage).0, Alloc(n, newPage).0) && Give(m, newPage).1 == Alloc(n, newPage).1
  {
    ReadyShows(m, n, newPage);
    RefillKeeps(n, newPage);
    if Refill(n, newPage).cur.Some? {
      CutShows(Ready(m, newPage), Refill(n, newPage));
    }
  }

  lemma TakeBackShows(m: Memory, n: Node, item: Item)
    requires Shows(m, n) && Inv(n) && Live(n, item)
    ensures Shows(TakeBack(m, item), Free(n, item))
  {
    var g := item.page;
    assert PageOk(n, n.pages[g]) && CellShows(m.cells[g], n.nr, n.pages[g]);
    PushShows(m.cells[g], n.nr, n.pages[g], item.slot);
    SetShows(m, n, g, Push(m.cells[g], item.slot), Refilled(n, item));
    RelinkShows(WithCell(m, g, Push(m.cells[g], item.slot)), SetPage(n, g, Refilled(n, item)), g);
  }

  lemma RelinkShows(m: Memory, n: Node, g: nat)
    requires Shows(m, n) && g in n.pages
    ensures Shows(Relink(m, g), Relist(n, g))
  {
    assert CellShows(m.cells[g], n.nr, n.pages[g]);
  }

  /* The interleaving. */

  /** Where the freeing thread is inside slab_node_free; it holds its own node's lock from Linked on. */
  datatype Freer = Waiting | Linked | Headed | Loaded(count: int) | Counted | Done

  /**
   * `item` is being freed; `own` says that its node is the freeing thread's. `handed` are the items in clients' hands,
   * `stray` the pages put on the freeing thread's partial list.
   */
  datatype World = World(own: bool, item: Item, memory: Memory, handed: iset<Item>, freer: Freer, stray: seq<nat>)

  datatype Step =
    | OwnerAlloc(newPage: Option<nat>)
    | OwnerFree(k: Item)
    | ClientWrite(k: Item, v: nat)
    | LockedFree                        // the whole free, under the owner's lock
    | LinkItem                          // hdr->next_hdr = pg->next
    | StoreHead                         // pg->next = hdr
    | LoadCount | StoreCount            // pg->item_count++
    | MovePage                          // the page changes lists or is given back

  ghost predicate Enabled(w: World, a: Step) {
    var m, g := w.memory, w.item.page;
    match a
    case OwnerAlloc(newPage) =>
      && (m.cur.Some? ==> m.cur.value in m.cells) && (m.partial != [] ==> m.partial[0] in m.cells)
      && (newPage.Some? ==> newPage.value !in m.cells)
    case OwnerFree(k) => k in w.handed && k.page in m.cells
    case ClientWrite(k, v) => k in w.handed && k.page in m.cells
    case LockedFree => w.own && w.freer.Waiting? && g in m.cells
    case LinkItem => !w.own && w.freer.Waiting? && g in m.cells
    case StoreHead => w.freer.Linked? && g in m.cells
    case LoadCount => w.freer.Headed? && g in m.cells
    case StoreCount => w.freer.Loaded? && g in m.cells
    case MovePage => w.freer.Counted? && g in m.cells
  }

  /** The end of slab_node_free with another node's lists: the page is unlinked from wherever it is. */
  function Moved(w: World): World
    requires w.item.page in w.memory.cells
  {
    var m, g := w.memory, w.item.page;
    var unlinked := m.(full := Without(m.full, g), partial := Without(m.partial, g));
    if m.cells[g].count == PARTIAL_THRESH then w.(memory := unlinked, stray := [g] + w.stray)
    else if m.cells[g].count == m.nr then w.(memory := unlinked.(cells := m.cells - {g}))
    else w
  }

  ghost function Apply(w: World, a: Step): World
    requires Enabled(w, a)
  {
    var m, g := w.memory, w.item.page;
    match a
    case OwnerAlloc(newPage) =>
      var (m', item) := Give(m, newPage);
      w.(memory := m', handed := if item.Some? then w.handed + iset{item.value} else w.handed)
    case OwnerFree(k) => w.(memory := TakeBack(m, k), handed := w.handed - iset{k})
    case ClientWrite(k, v) => w.(memory := WithCell(m, k.page, Scrawl(m.cells[k.page], k.slot, v)))
    case LockedFree => w.(memory := TakeBack(m, w.item), freer := Done)
    case LinkItem =>
      w.(memory := WithCell(m, g, Scrawl(m.cells[g], w.item.slot, m.cells[g].head)), freer := Linked)
    case StoreHead => w.(memory := WithCell(m, g, m.cells[g].(head := w.item.slot + 1)), freer := Headed)
    case LoadCount => w.(freer := Loaded(m.cells[g].count))
    case StoreCount => w.(memory := WithCell(m, g, m.cells[g].(count := w.freer.count + 1)), freer := Counted)
    case MovePage => Moved(w).(freer := Done)
  }

  ghost predicate Run(ws: seq<World>, steps: seq<Step>) {
    && |ws| == |steps| + 1
    && forall i :: 0 <= i < |steps| ==> Enabled(ws[i], steps[i]) && ws[i + 1] == Apply(ws[i], steps[i])
  }

  /** Everything agrees, and the clients hold exactly the live items, but for the one whose free has not begun. */
  ghost predicate Agrees(w: World, n: Node) {
    && Inv(n) && Shows(w.memory, n) && w.stray == []
    && (w.freer.Waiting? ==> Live(n, w.item))
    && (forall i :: i in w.handed <==> Live(n, i) && !(w.freer.Waiting? && i == w.item))
  }

  ghost predicate Exact(w: World) {
    exists n :: Agrees(w, n)
  }

  /** However the free is interleaved with the owner's operations, everything agrees once it is over. */
  ghost predicate Safe(w: World) {
    forall ws: seq<World>, steps: seq<Step> :: Run(ws, steps) && ws[0] == w && ws[|steps|].freer.Done? ==> Exact(ws[|steps|])
  }

  /* Under the owner's lock. */

  ghost predicate Calm(w: World) {
    w.own && (w.freer.Waiting? || w.freer.Done?) && Exact(w)
  }

  lemma AllocAgrees(w: World, n: Node, newPage: Option<nat>)
    requires Agrees(w, n) && Enabled(w, OwnerAlloc(newPage))
    ensures NewPageOk(n, newPage) && Agrees(Apply(w, OwnerAlloc(newPage)), Alloc(n, newPage).0)
  {
    GiveShows(w.memory, n, newPage);
    AllocKeeps(n, newPage);
  }

  lemma FreeAgrees(w: World, n: Node, k: Item)
    requires Agrees(w, n) && Enabled(w, OwnerFree(k))
    ensures Live(n, k) && Agrees(Apply(w, OwnerFree(k)), Free(n, k))
  {
    TakeBackShows(w.memory, n, k);
    FreeKeeps(n, k);
    FreeLive(n, k);
  }

  lemma WriteAgrees(w: World, n: Node, k: Item, v: nat)
    requires Agrees(w, n) && Enabled(w, ClientWrite(k, v))
    ensures Agrees(Apply(w, ClientWrite(k, v)), n)
  {
    var c, p := w.memory.cells[k.page], n.pages[k.page];
    ScrawlShows(c, n.nr, p, k.slot, v);
    SetShows(w.memory, n, k.page, Scrawl(c, k.slot, v), p);
    assert SetPage(n, k.page, p) == n;
  }

  lemma LockedAgrees(w: World, n: Node)
    requires Agrees(w, n) && Enabled(w, LockedFree)
    ensures Agrees(Apply(w, LockedFree), Free(n, w.item))
  {
    TakeBackShows(w.memory, n, w.item);
    FreeKeeps(n, w.item);
    FreeLive(n, w.item);
  }

  lemma CalmStep(w: World, a: Step)
    requires Calm(w) && Enabled(w, a)
    ensures Calm(Apply(w, a))
  {
    var n :| Agrees(w, n);
    match a
    case OwnerAlloc(newPage) => AllocAgrees(w, n, newPage);
    case OwnerFree(k) => FreeAgrees(w, n, k);
    case ClientWrite(k, v) => WriteAgrees(w, n, k, v);
    case LockedFree => LockedAgrees(w, n);
  }

  lemma {:induction false} CalmRun(ws: seq<World>, steps: seq<Step>, i: nat)
    requires Run(ws, steps) && Calm(ws[0]) && i < |ws|
    ensures Calm(ws[i])
  {
    if i > 0 {
      CalmRun(ws, steps, i - 1);
      CalmStep(ws[i - 1], steps[i - 1]);
    }
  }

  /* Under another lock. */

  ghost predicate Reaches(w: World, w': World) {
    exists ws: seq<World>, steps: seq<Step> :: Run(ws, steps) && ws[0] == w && ws[|steps|] == w'
  }

  lemma Begin(w: World)
    ensures Reaches(w, w)
  {
    assert Run([w], []) && [w][0] == w;
  }

  lemma Extend(w: World, w': World, a: Step)
    requires Reaches(w, w') && Enabled(w', a)
    ensures Reaches(w, Apply(w', a))
  {
    var ws: seq<World>, steps: seq<Step> :| Run(ws, steps) && ws[0] == w && ws[|steps|] == w';
    var ws', steps' := ws + [Apply(w', a)], steps + [a];
    forall i | 0 <= i < |steps'|
      ensures Enabled(ws'[i], steps'[i]) && ws'[i + 1] == Apply(ws'[i], steps'[i])
    {
      if i < |steps| {
        assert ws'[i] == ws[i] && ws'[i + 1] == ws[i + 1] && steps'[i] == steps[i];
      }
    }
    assert Run(ws', steps') && ws'[0] == w && ws'[|steps'|] == Apply(w', a);
  }

  lemma Unsafe(w: World, w': World)
    requires Reaches(w, w') && w'.freer.Done? && !Exact(w')
    ensures !Safe(w)
  {
    var ws: seq<World>, steps: seq<Step> :| Run(ws, steps) && ws[0] == w && ws[|steps|] == w';
    assert ws[|steps|].freer.Done?;
  }

  /** The free through another node has not begun. */
  ghost predicate Astray(w: World, n: Node) {
    !w.own && w.freer.Waiting? && Agrees(w, n)
  }

  function Left(n: Node): nat {
    if n.cur.Some? && n.cur.value in n.pages && Available(n, n.pages[n.cur.value]) > 0
    then Available(n, n.pages[n.cur.value]) else 0
  }

  /** Allocating without new memory uses up the current page, then the partial ones. */
  lemma AllocShrinks(n: Node)
    requires Inv(n) && (Left(n) > 0 || n.partial != [])
    ensures var n' := Alloc(n, None).0;
            |n'.partial| < |n.partial| || (|n'.partial| == |n.partial| && Left(n') < Left(n))
  {
    if n.cur.Some? {
      assert PageOk(n, n.pages[n.cur.value]);
    }
  }

  /** A page with few live items is the current one or a partial one. */
  lemma FewLive(n: Node, g: nat)
    requires Inv(n) && g in n.pages && |M.LiveSlots(n.pages[g])| < 3
    ensures Left(n) > 0 || n.partial != []
  {
    M.CountExact(n, g);
  }

  /** The owner allocates until the page has two more live items than the one being freed. */
  lemma Prelude(w0: World, w: World, n: Node) returns (w': World, n': Node)
    requires Reaches(w0, w) && Astray(w, n)
    ensures Reaches(w0, w') && Astray(w', n') && w'.item == w.item && |M.LiveSlots(n'.pages[w.item.page])| >= 3
    decreases |n.partial|, Left(n)
  {
    if |M.LiveSlots(n.pages[w.item.page])| >= 3 {
      w', n' := w, n;
    } else {
      FewLive(n, w.item.page);
      AllocShrinks(n);
      AllocAgrees(w, n, None);
      Extend(w0, w, OwnerAlloc(None));
      w', n' := Prelude(w0, Apply(w, OwnerAlloc(None)), Alloc(n, None).0);
    }
  }

  lemma AnotherLive(n: Node, item: Item) returns (k: nat)
    requires PagesOk(n) && Live(n, item) && |M.LiveSlots(n.pages[item.page])| >= 3
    ensures k != item.slot && Live(n, Item(item.page, k))
    ensures n.pages[item.page].bumped - |n.pages[item.page].free| >= 3
  {
    var live := M.LiveSlots(n.pages[item.page]);
    M.CountExact(n, item.page);
    var rest := live - {item.slot};
    assert |rest| >= 2;
    k :| k in rest;
    assert Live(n, Item(item.page, k));
  }

  lemma {:induction false} ChainUnique(next: seq<nat>, head: nat, a: seq<nat>, b: seq<nat>)
    requires Chain(next, head, a) && Chain(next, head, b)
    ensures |a| == |b|
    decreases |a|
  {
    if a != [] && b != [] {
      ChainPop(next, head, a);
      ChainPop(next, head, b);
      ChainUnique(next, next[head], a[1..], b[1..]);
    }
  }

  /** Between the load and the store of the head, the owner takes back another item k. */
  ghost predicate Overtaken(w: World, h: nat, free: seq<nat>, k: nat) {
    var g := w.item.page;
    && w.freer.Linked? && g in w.memory.cells && Item(g, k) !in w.handed
    && var c := w.memory.cells[g];
       && |c.words| == w.memory.nr + 1 && w.item.slot < w.memory.nr && w.item.slot !in free
       && c.words[w.item.slot + 1] == h && Chain(c.words, h, Up(free))
       && c.count == |free| + 1 + w.memory.nr - c.bumped && c.count + 1 < w.memory.nr
  }

  lemma Overtake(w: World, n: Node, k: nat)
    requires Astray(w, n) && k != w.item.slot && Live(n, Item(w.item.page, k))
    requires n.pages[w.item.page].bumped - |n.pages[w.item.page].free| >= 3
    ensures Enabled(w, LinkItem) && Enabled(Apply(w, LinkItem), OwnerFree(Item(w.item.page, k)))
    ensures Overtaken(Apply(Apply(w, LinkItem), OwnerFree(Item(w.item.page, k))), w.memory.cells[w.item.page].head,
                      n.pages[w.item.page].free, k)
  {
    var g, m := w.item.page, w.memory;
    var c, p, i := m.cells[g], n.pages[g], Item(g, k);
    assert PageOk(n, p) && CellShows(c, n.nr, p);
    var c1 := Scrawl(c, w.item.slot, c.head);
    ScrawlShows(c, n.nr, p, w.item.slot, c.head);
    ScrawlShows(c1, n.nr, p, k, c.head);
    var c2 := Push(c1, k);
    assert c2.words == Scrawl(c1, k, c.head).words;
    assert Relink(WithCell(WithCell(m, g, c1), g, c2), g).cells[g] == c2;
  }

  /** The rest of the free loses k: it is on no list, and nobody holds it. */
  lemma Loses(w0: World, w: World, h: nat, free: seq<nat>, k: nat)
    requires Reaches(w0, w) && Overtaken(w, h, free, k)
    ensures !Safe(w0)
  {
    var g := w.item.page;
    Extend(w0, w, StoreHead);
    var w1 := Apply(w, StoreHead);
    Extend(w0, w1, LoadCount);
    var w2 := Apply(w1, LoadCount);
    Extend(w0, w2, StoreCount);
    var w3 := Apply(w2, StoreCount);
    Extend(w0, w3, MovePage);
    var w4 := Apply(w3, MovePage);
    var c := w4.memory.cells[g];
    assert c.words == w.memory.cells[g].words && c.count == |free| + 2 + w.memory.nr - c.bumped;
    LongerChain(c.words, h, free, w.item.slot);
    NotExact(w4, g, [w.item.slot] + free);
    Unsafe(w0, w4);
  }

  lemma LongerChain(words: seq<nat>, h: nat, free: seq<nat>, k: nat)
    requires Chain(words, h, Up(free)) && k + 1 < |words| && words[k + 1] == h && k !in free
    ensures Chain(words, k + 1, Up([k] + free))
  {
    UpMisses(k, free);
    ChainPush(words, h, Up(free), k + 1);
    assert words[k + 1 := h] == words;
    UpCons(k, free);
  }

  /** The count does not match the list. */
  lemma NotExact(w: World, g: nat, list: seq<nat>)
    requires g in w.memory.cells
    requires var c := w.memory.cells[g];
             Chain(c.words, c.head, Up(list)) && c.count != |list| + w.memory.nr - c.bumped
    ensures !Exact(w)
  {
    if Exact(w) {
      var n :| Agrees(w, n);
      var c := w.memory.cells[g];
      assert CellShows(c, n.nr, n.pages[g]);
      ChainUnique(c.words, c.head, Up(list), Up(n.pages[g].free));
    }
  }

  lemma AstrayUnsafe(w: World, n: Node)
    requires Astray(w, n)
    ensures !Safe(w)
  {
    Begin(w);
    var w1, n1 := Prelude(w, w, n);
    var g := w.item.page;
    var k := AnotherLive(n1, w.item);
    Overtake(w1, n1, k);
    Extend(w, w1, LinkItem);
    var w2 := Apply(w1, LinkItem);
    Extend(w, w2, OwnerFree(Item(g, k)));
    Loses(w, Apply(w2, OwnerFree(Item(g, k))), w1.memory.cells[g].head, n1.pages[g].free, k);
  }

  /**
   * In every state, a free is safe under all interleavings with the owner's operations if and only if the item's node is
   * the freeing thread's.
   */
  lemma FreeSafeExact(w: World, n: Node)
    requires w.freer.Waiting? && Agrees(w, n)
    ensures Safe(w) <==> w.own
  {
    if w.own {
      forall ws: seq<World>, steps: seq<Step> | Run(ws, steps) && ws[0] == w && ws[|steps|].freer.Done?
        ensures Exact(ws[|steps|])
      {
        CalmRun(ws, steps, |steps|);
      }
    } else {
      AstrayUnsafe(w, n);
    }
  }

  /* Handing out an item twice. */

  /** The page is current, with the given struct and words. */
  ghost predicate Current(w: World, c: Cell) {
    var m := w.memory;
    && m.cur == Some(w.item.page) && w.item.page in m.cells && m.cells[w.item.page] == c
    && (m.partial != [] ==> m.partial[0] in m.cells)
  }

  lemma AllocPops(w0: World, w: World, c: Cell)
    requires Reaches(w0, w) && Current(w, c) && c.count != 0 && c.head != 0
    ensures Enabled(w, OwnerAlloc(None)) && Give(w.memory, None).1 == Some(Item(w.item.page, c.head - 1))
    ensures var w' := Apply(w, OwnerAlloc(None));
            && Reaches(w0, w') && Current(w', Pop(c)) && w'.item == w.item && w'.freer == w.freer
            && w'.handed == w.handed + iset{Item(w.item.page, c.head - 1)}
  {
    Extend(w0, w, OwnerAlloc(None));
  }

  lemma LinkCurrent(w0: World, w: World, c: Cell)
    requires Reaches(w0, w) && Current(w, c) && !w.own && w.freer.Waiting?
    ensures Enabled(w, LinkItem)
    ensures var w' := Apply(w, LinkItem);
            && Reaches(w0, w') && Current(w', Scrawl(c, w.item.slot, c.head)) && w'.item == w.item && w'.freer.Linked?
  {
    Extend(w0, w, LinkItem);
  }

  /** The stores of the head and the count. */
  lemma StoreCurrent(w0: World, w: World, c: Cell) returns (w': World)
    requires Reaches(w0, w) && Current(w, c) && w.freer.Linked?
    ensures Reaches(w0, w') && Current(w', c.(head := w.item.slot + 1, count := c.count + 1))
    ensures w'.item == w.item && w'.handed == w.handed
  {
    Extend(w0, w, StoreHead);
    var w1 := Apply(w, StoreHead);
    Extend(w0, w1, LoadCount);
    var w2 := Apply(w1, LoadCount);
    Extend(w0, w2, StoreCount);
    w' := Apply(w2, StoreCount);
  }

  lemma AstrayCurrent(w: World, n: Node)
    requires Astray(w, n) && n.cur == Some(w.item.page)
    requires n.pages[w.item.page].free != [] && Available(n, n.pages[w.item.page]) >= 2
    ensures w.item.page in w.memory.cells && Current(w, w.memory.cells[w.item.page])
    ensures var c := w.memory.cells[w.item.page];
            0 < c.head < |c.words| && c.head != w.item.slot + 1 < |c.words| && c.count >= 2
  {
    var g := w.item.page;
    assert PageOk(n, n.pages[g]) && CellShows(w.memory.cells[g], n.nr, n.pages[g]);
    HeadOf(w.memory.cells[g], n.nr, n.pages[g], w.item.slot);
  }

  lemma HeadOf(c: Cell, nr: nat, p: Page, k: nat)
    requires CellShows(c, nr, p) && p.free != [] && k !in p.free
    ensures 0 < c.head < |c.words| && c.head != k + 1
  {
    PopShows(c, nr, p);
    assert Up(p.free)[0] == c.head && p.free[0] in p.free;
  }

  /**
   * When the page is current and has a free list: between the load and the store of the head, the owner hands out the first
   * free item, and two allocations later it hands out the same item again.
   */
  lemma HandsOutTwice(w: World, n: Node) returns (w': World, i: Item)
    requires Astray(w, n) && n.cur == Some(w.item.page)
    requires n.pages[w.item.page].free != [] && Available(n, n.pages[w.item.page]) >= 2
    ensures Reaches(w, w') && i in w'.handed
    ensures Enabled(w', OwnerAlloc(None)) && Give(w'.memory, None).1 == Some(i)
  {
    AstrayCurrent(w, n);
    var c := w.memory.cells[w.item.page];
    i := Item(w.item.page, c.head - 1);
    Begin(w);
    LinkCurrent(w, w, c);
    w' := TwiceFrom(w, Apply(w, LinkItem), Scrawl(c, w.item.slot, c.head));
  }

  lemma TwiceFrom(w0: World, w: World, c: Cell) returns (w': World)
    requires Reaches(w0, w) && Current(w, c) && w.freer.Linked? && 0 < c.head < |c.words| && c.count >= 2
    requires w.item.slot + 1 < |c.words| && c.words[w.item.slot + 1] == c.head
    ensures Reaches(w0, w') && Item(w.item.page, c.head - 1) in w'.handed
    ensures Enabled(w', OwnerAlloc(None)) && Give(w'.memory, None).1 == Some(Item(w.item.page, c.head - 1))
  {
    AllocPops(w0, w, c);
    var w2 := StoreCurrent(w0, Apply(w, OwnerAlloc(None)), Pop(c));
    var c2 := Pop(c).(head := w.item.slot + 1, count := Pop(c).count + 1);
    AllocPops(w0, w2, c2);
    w' := Apply(w2, OwnerAlloc(None));
    AllocPops(w0, w', Pop(c2));
  }

  /* Filing a page with the wrong node, undisturbed, and the run that leads to it. */

  ghost predicate Reachable(n: Node) {
    exists ns: seq<Node>, es: seq<M.Event> :: M.Run(ns, es) && ns[|es|] == n
  }

  lemma ReachableInv(n: Node)
    requires Reachable(n)
    ensures Inv(n)
  {
    var ns: seq<Node>, es: seq<M.Event> :| M.Run(ns, es) && ns[|es|] == n;
    M.RunSound(ns, es, |es|);
  }

  lemma Further(n: Node, e: M.Event, n': Node)
    requires Reachable(n) && M.Follows(n, e, n')
    ensures Reachable(n')
  {
    var ns: seq<Node>, es: seq<M.Event> :| M.Run(ns, es) && ns[|es|] == n;
    var ns', es' := ns + [n'], es + [e];
    forall m | 0 <= m < |es'|
      ensures M.Follows(ns'[m], es'[m], ns'[m + 1])
    {
      if m < |es| {
        assert ns'[m] == ns[m] && ns'[m + 1] == ns[m + 1] && es'[m] == es[m];
      }
    }
    assert M.Run(ns', es') && ns'[|es'|] == n';
  }

  lemma AllocFurther(n: Node, newPage: Option<nat>)
    requires Reachable(n) && NewPageOk(n, newPage)
    ensures Inv(n) && Reachable(Alloc(n, newPage).0)
  {
    ReachableInv(n);
    Further(n, M.AllocEv(newPage), Alloc(n, newPage).0);
  }

  lemma FreeFurther(n: Node, item: Item)
    requires Reachable(n) && Live(n, item)
    ensures Reachable(Free(n, item))
  {
    ReachableInv(n);
    Further(n, M.FreeEv(item), Free(n, item));
  }

  function OnePage(size: nat, nr: nat, pgsize: nat, p: Page, cur: Option<nat>, full: seq<nat>): Node {
    Node(size, 0, nr, pgsize, map[1 := p], cur, full, [], p.bumped * size)
  }

  lemma CutNext(size: nat, nr: nat, pgsize: nat, k: nat)
    requires k < nr
    ensures Alloc(OnePage(size, nr, pgsize, Page([], k), Some(1), []), None).0
            == OnePage(size, nr, pgsize, Page([], k + 1), Some(1), [])
  {
    assert k * size + size == (k + 1) * size;
  }

  lemma CutFirst(size: nat, nr: nat, pgsize: nat)
    requires nr > 0
    ensures Alloc(M.Empty(size, 0, nr, pgsize), Some(1)).0 == OnePage(size, nr, pgsize, Page([], 1), Some(1), [])
  {
  }

  lemma EmptyReachable(size: nat, nr: nat, pgsize: nat)
    requires size > 0 && nr >= 8 && nr * size <= pgsize
    ensures Reachable(M.Empty(size, 0, nr, pgsize))
  {
    var n := M.Empty(size, 0, nr, pgsize);
    assert M.Run([n], []) && [n][0] == n;
  }

  /** k allocations from one new page. */
  lemma {:induction false} CutMany(size: nat, nr: nat, pgsize: nat, k: nat)
    requires size > 0 && nr >= 8 && nr * size <= pgsize && 1 <= k <= nr
    ensures Reachable(OnePage(size, nr, pgsize, Page([], k), Some(1), []))
  {
    if k == 1 {
      EmptyReachable(size, nr, pgsize);
      AllocFurther(M.Empty(size, 0, nr, pgsize), Some(1));
      CutFirst(size, nr, pgsize);
    } else {
      CutMany(size, nr, pgsize, k - 1);
      AllocFurther(OnePage(size, nr, pgsize, Page([], k - 1), Some(1), []), None);
      CutNext(size, nr, pgsize, k - 1);
    }
  }

  lemma FreeFull(size: nat, nr: nat, pgsize: nat, free: seq<nat>, k: nat)
    requires |free| < 3 && k < nr && k !in free && nr >= 8
    requires Reachable(OnePage(size, nr, pgsize, Page(free, nr), None, [1]))
    ensures Reachable(OnePage(size, nr, pgsize, Page([k] + free, nr), None, [1]))
  {
    var n := OnePage(size, nr, pgsize, Page(free, nr), None, [1]);
    FreeFurther(n, Item(1, k));
    assert Free(n, Item(1, k)) == OnePage(size, nr, pgsize, Page([k] + free, nr), None, [1]);
  }

  /** A page is used up, an allocation finds no memory, and three items come back. */
  lemma FullPage(size: nat, nr: nat, pgsize: nat)
    requires size > 0 && nr >= 8 && nr * size <= pgsize
    ensures Reachable(OnePage(size, nr, pgsize, Page([0, 1, 2], nr), None, [1]))
  {
    CutMany(size, nr, pgsize, nr);
    var n := OnePage(size, nr, pgsize, Page([], nr), Some(1), []);
    AllocFurther(n, None);
    assert Alloc(n, None).0 == OnePage(size, nr, pgsize, Page([], nr), None, [1]);
    FreeFull(size, nr, pgsize, [], 2);
    FreeFull(size, nr, pgsize, [2] + [], 1);
    FreeFull(size, nr, pgsize, [1] + ([2] + []), 0);
    assert [0] + ([1] + ([2] + [])) == [0, 1, 2];
  }

  /** A run after which an undisturbed free puts an item's page on the partial list of a node that does not own it. */
  lemma FreeThroughSteals(size: nat, nr: nat, pgsize: nat) returns (p: Pair, item: Item)
    requires size > 0 && nr >= 8 && nr * size <= pgsize
    ensures Reachable(p.owner) && Reachable(p.through) && Live(p.owner, item) && item.page !in p.through.pages
    ensures FreeThrough(p, item).through.partial == [item.page] && !PlacesOk(FreeThrough(p, item).owner)
  {
    FullPage(size, nr, pgsize);
    EmptyReachable(size, nr, pgsize);
    p := Pair(OnePage(size, nr, pgsize, Page([0, 1, 2], nr), None, [1]), M.Empty(size, 0, nr, pgsize));
    item := Item(1, 3);
    assert Without([1], 1) == [];
    var n := FreeThrough(p, item).owner;
    assert 1 in n.pages && 1 !in n.full && 1 !in n.partial;
  }
}
