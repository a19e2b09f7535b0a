/** Where slab items lie in memory, and how slabs are sized (base/slab.c). */
module SlabMemory {
  import opened Collections
  import opened PageTable
  import opened Slab
  import opened Wrapping

  /** Multiplication as repeated addition; MulIs relates it to `*`. */
  function Mul(a: nat, b: nat): nat {
    if a == 0 then 0 else Mul(a - 1, b) + b
  }

  lemma {:induction false} MulIs(a: nat, b: nat)
    ensures Mul(a, b) == a * b
  {
    if a > 0 {
      MulIs(a - 1, b);
      assert (a - 1) * b + b == a * b;
    }
  }

  function Address(n: Node, i: Item): nat {
    Mul(i.page, n.pgsize) + n.offset + Mul(i.slot, n.size)
  }

  lemma SlotEnd(n: Node, k: nat)
    requires Fits(n) && k < n.nr
    ensures n.offset + k * n.size + n.size <= n.pgsize
  {
    Scaled(k + 1, n.nr, n.size);
    Distributes(k, n.size);
  }

  /** An item lies inside its page, and its address leads back to the page. */
  lemma InsidePage(n: Node, i: Item)
    requires Fits(n) && i.slot < n.nr
    ensures Mul(i.page, n.pgsize) <= Address(n, i) && Address(n, i) + n.size <= Mul(i.page, n.pgsize) + n.pgsize
    ensures Address(n, i) / n.pgsize == i.page
  {
    SlotEnd(n, i.slot);
    MulIs(i.slot, n.size);
    MulIs(i.page, n.pgsize);
    Unique(Address(n, i), n.pgsize, i.page, Address(n, i) - i.page * n.pgsize);
  }

  lemma Distributes(a: nat, c: nat)
    ensures (a + 1) * c == a * c + c
  {
  }

  lemma Scaled(a: nat, b: nat, c: nat)
    requires a <= b
    ensures a * c <= b * c
  {
  }

  ghost predicate Apart(a: nat, b: nat, size: nat) {
    a + size <= b || b + size <= a
  }

  lemma SlotsApart(n: Node, j: nat, k: nat)
    requires j < k
    ensures Mul(j, n.size) + n.size <= Mul(k, n.size)
  {
    MulIs(j, n.size);
    MulIs(k, n.size);
    Scaled(j + 1, k, n.size);
  }

  lemma PagesApart(n: Node, g: nat, h: nat)
    requires g < h
    ensures Mul(g, n.pgsize) + n.pgsize <= Mul(h, n.pgsize)
  {
    MulIs(g, n.pgsize);
    MulIs(h, n.pgsize);
    Scaled(g + 1, h, n.pgsize);
  }

  /** Different items never overlap. */
  lemma ItemsApart(n: Node, i: Item, j: Item)
    requires Fits(n) && i.slot < n.nr && j.slot < n.nr && i != j
    ensures Apart(Address(n, i), Address(n, j), n.size)
  {
    if i.page == j.page {
      if i.slot < j.slot {
        SlotsApart(n, i.slot, j.slot);
      } else {
        SlotsApart(n, j.slot, i.slot);
      }
    } else {
      InsidePage(n, i);
      InsidePage(n, j);
      if i.page < j.page {
        PagesApart(n, i.page, j.page);
      } else {
        PagesApart(n, j.page, i.page);
      }
    }
  }

  /* Runs: whatever is allocated and freed, live items stay apart and inside their pages. */

  datatype Event = AllocEv(newPage: Option<nat>) | FreeEv(item: Item)

  ghost predicate Enabled(n: Node, e: Event) {
    match e
    case AllocEv(newPage) => NewPageOk(n, newPage)
    case FreeEv(item) => Live(n, item)
  }

  ghost function Apply(n: Node, e: Event): Node
    requires Inv(n) && Enabled(n, e)
  {
    match e
    case AllocEv(newPage) => Alloc(n, newPage).0
    case FreeEv(item) => Free(n, item)
  }

  ghost predicate Run(ns: seq<Node>, es: seq<Event>) {
    && |ns| == |es| + 1
    && Fits(ns[0]) && ns[0].pages == map[] && ns[0].cur.None? && ns[0].full == [] && ns[0].partial == []
    && forall m :: 0 <= m < |es| ==> Follows(ns[m], es[m], ns[m + 1])
  }

  ghost predicate Follows(n: Node, e: Event, n': Node) {
    Inv(n) ==> Enabled(n, e) && n' == Apply(n, e)
  }

  lemma StepKeeps(n: Node, e: Event)
    requires Inv(n) && Enabled(n, e)
    ensures Inv(Apply(n, e))
  {
    match e
    case AllocEv(newPage) => AllocKeeps(n, newPage);
    case FreeEv(item) => FreeKeeps(n, item);
  }

  /** The item's bytes lie in its page, and its address leads back to the page. */
  ghost predicate Contained(n: Node, i: Item) {
    && Mul(i.page, n.pgsize) <= Address(n, i) && Address(n, i) + n.size <= Mul(i.page, n.pgsize) + n.pgsize
    && n.pgsize > 0 && Address(n, i) / n.pgsize == i.page
  }

  /** At every moment of every run, distinct live items are disjoint ranges, each inside its own page. */
  lemma {:induction false} RunSound(ns: seq<Node>, es: seq<Event>, m: nat)
    requires Run(ns, es) && m <= |es|
    ensures Inv(ns[m])
    ensures forall i, j :: Live(ns[m], i) && Live(ns[m], j) && i != j ==>
      Apart(Address(ns[m], i), Address(ns[m], j), ns[m].size)
    ensures forall i :: Live(ns[m], i) ==> Contained(ns[m], i)
  {
    if m == 0 {
      EmptyInv(ns[0]);
    } else {
      RunSound(ns, es, m - 1);
      assert Follows(ns[m - 1], es[m - 1], ns[m]);
      StepKeeps(ns[m - 1], es[m - 1]);
    }
    forall i | Live(ns[m], i)
      ensures Contained(ns[m], i)
    {
      assert PageOk(ns[m], ns[m].pages[i.page]);
      InsidePage(ns[m], i);
    }
    forall i, j | Live(ns[m], i) && Live(ns[m], j) && i != j
      ensures Apart(Address(ns[m], i), Address(ns[m], j), ns[m].size)
    {
      assert PageOk(ns[m], ns[m].pages[i.page]) && PageOk(ns[m], ns[m].pages[j.page]);
      ItemsApart(ns[m], i, j);
    }
  }

  /** item_count is exactly the number of slots of the page that are not live. */
  lemma CountExact(n: Node, g: nat)
    requires PagesOk(n) && g in n.pages
    ensures Available(n, n.pages[g]) == n.nr - |LiveSlots(n.pages[g])|
    ensures forall k: nat :: k in LiveSlots(n.pages[g]) <==> Live(n, Item(g, k))
  {
    var p := n.pages[g];
    assert PageOk(n, p);
    DistinctCount(p.free);
    BelowElements(p.bumped);
    assert Below(p.bumped) == LiveSlots(p) + Elements(p.free);
  }

  ghost function LiveSlots(p: Page): set<nat> {
    Below(p.bumped) - Elements(p.free)
  }

  /* Sizing. */

  const WORD_SIZE: nat := 8
  const CACHE_LINE_SIZE: nat := 64

  const SIZE_T: nat := 0x1_0000_0000_0000_0000

  /** The next multiple of a power of two, in the width of size_t. */
  function AlignUp(x: nat, align: nat): nat
    requires align > 0
  {
    (x + align - 1) / align * align % SIZE_T
  }

  const SLAB_4KB_LIMIT: nat := PGSIZE_4KB / (2 * PARTIAL_THRESH) / WORD_SIZE * WORD_SIZE
  const SLAB_2MB_LIMIT: nat := PGSIZE_2MB / (2 * PARTIAL_THRESH) / WORD_SIZE * WORD_SIZE

  function Empty(size: nat, offset: nat, nr: nat, pgsize: nat): Node {
    Node(size, offset, nr, pgsize, map[], None, [], [], 0)
  }

  datatype Created = TooBig | DividesByZero | Made(node: Node)

  /** slab_create */
  function Create(size: nat, falseOkay: bool, lgpage: bool): Created {
    var s := AlignUp(size, if falseOkay then WORD_SIZE else CACHE_LINE_SIZE);
    if s > SLAB_2MB_LIMIT then TooBig
    else
      var pgsize := if lgpage || s > SLAB_4KB_LIMIT then PGSIZE_2MB else PGSIZE_4KB;
      if s == 0 then DividesByZero else Made(Empty(s, 0, pgsize / s, pgsize))
  }

  /** Alignment gives zero for zero and for sizes so large that it wraps, and otherwise rounds up. */
  lemma AlignedUp(x: nat, align: nat)
    requires x < SIZE_T && (align == WORD_SIZE || align == CACHE_LINE_SIZE)
    ensures if x == 0 || x > SIZE_T - align then AlignUp(x, align) == 0
            else x <= AlignUp(x, align) < x + align && AlignUp(x, align) % align == 0
  {
    var q := (x + align - 1) / align;
    assert q * align <= x + align - 1 < q * align + align;
    MultipleMod(q, align);
    if x > SIZE_T - align {
      assert q == SIZE_T / align;
    } else {
      assert q * align < SIZE_T + align;
      assert q <= SIZE_T / align;
      Unique(q * align, SIZE_T, if q * align == SIZE_T then 1 else 0, if q * align == SIZE_T then 0 else q * align);
    }
  }

  lemma MultipleMod(q: nat, d: nat)
    requires d > 0
    ensures q * d % d == 0
  {
    Unique(q * d, d, q, 0);
  }

  /** If the page is at least eight times the item, at least eight items fit, and all that are counted fit. */
  lemma EightFit(s: nat, pgsize: nat)
    requires 0 < s && 8 * s <= pgsize
    ensures pgsize / s >= 8 && pgsize / s * s <= pgsize
  {
    var q := pgsize / s;
    assert q * s <= pgsize < q * s + s;
    if q < 8 {
      Scaled(q + 1, 8, s);
    }
  }

  lemma EmptyInv(n: Node)
    requires Fits(n) && n.pages == map[] && n.cur.None? && n.full == [] && n.partial == []
    ensures Inv(n)
  {
  }

  lemma SizedFits(s: nat, lgpage: bool)
    requires 0 < s <= SLAB_2MB_LIMIT
    ensures var pgsize := if lgpage || s > SLAB_4KB_LIMIT then PGSIZE_2MB else PGSIZE_4KB;
            Inv(Empty(s, 0, pgsize / s, pgsize))
  {
    var pgsize := if lgpage || s > SLAB_4KB_LIMIT then PGSIZE_2MB else PGSIZE_4KB;
    EightFit(s, pgsize);
    EmptyInv(Empty(s, 0, pgsize / s, pgsize));
  }

  lemma WordAligned(s: nat, falseOkay: bool)
    requires s % (if falseOkay then WORD_SIZE else CACHE_LINE_SIZE) == 0
    ensures s % WORD_SIZE == 0
  {
    if !falseOkay {
      var q := s / CACHE_LINE_SIZE;
      assert s == 8 * q * WORD_SIZE;
      MultipleMod(8 * q, WORD_SIZE);
    }
  }

  /**
   * Every slab that slab_create makes has at least eight items to the page, all inside it. It is refused exactly when the
   * aligned size is over the limit, and the division is undefined exactly for size zero and sizes whose alignment wraps.
   */
  lemma CreateFits(size: nat, falseOkay: bool, lgpage: bool)
    requires size < SIZE_T
    ensures var r, align := Create(size, falseOkay, lgpage), if falseOkay then WORD_SIZE else CACHE_LINE_SIZE;
            (r.Made? ==> Inv(r.node) && size <= r.node.size && r.node.size % WORD_SIZE == 0)
            && (r.DividesByZero? <==> size == 0 || size > SIZE_T - align)
            && (r.TooBig? <==> 262144 < AlignUp(size, align))
  {
    var align := if falseOkay then WORD_SIZE else CACHE_LINE_SIZE;
    AlignedUp(size, align);
    var s := AlignUp(size, align);
    if 0 < s <= SLAB_2MB_LIMIT {
      SizedFits(s, lgpage);
      WordAligned(s, falseOkay);
    }
  }

  /** The slab of small pages: 504 pages behind the metadata of a shattered large page. */
  lemma SmallPageSlabFits()
    ensures var n := Empty(PGSIZE_4KB, SMPAGE_META_LEN, (PGSIZE_2MB - SMPAGE_META_LEN) / PGSIZE_4KB, PGSIZE_2MB);
            Inv(n) && n.nr == 504
  {
    EmptyInv(Empty(PGSIZE_4KB, SMPAGE_META_LEN, (PGSIZE_2MB - SMPAGE_META_LEN) / PGSIZE_4KB, PGSIZE_2MB));
  }
}
