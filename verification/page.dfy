/**
 * Page addressing (inc/base/page.h) and large-page allocation per NUMA node (base/page.c). A large page struct is its
 * index in the page table; a small page struct is its address inside the large page it describes.
 */
module PageTable {
  import opened Wrapping

  const PGSIZE_4KB: nat := 0x1000
  const PGSIZE_2MB: nat := 0x20_0000
  const PAGE_STRUCT: nat := 64
  const SMPAGE_META_LEN: nat := PGSIZE_2MB / PGSIZE_4KB * PAGE_STRUCT
  const LGPAGE_META_ENTS: nat := PGSIZE_2MB / PAGE_STRUCT
  const LGPAGE_NODE_ADDR_LEN: nat := LGPAGE_META_ENTS * PGSIZE_2MB
  const PAGE_BASE_ADDR: nat := 0x1000_0000_0000
  const NNUMA: nat := 4
  const PAGE_END_ADDR: nat := PAGE_BASE_ADDR + LGPAGE_NODE_ADDR_LEN * NNUMA

  predicate IsPageAddr(a: nat) {
    PAGE_BASE_ADDR <= a < PAGE_END_ADDR
  }

  function NumaNode(a: nat): nat
    requires a >= PAGE_BASE_ADDR
  {
    (a - PAGE_BASE_ADDR) / LGPAGE_NODE_ADDR_LEN
  }

  /** The start of the 2 MB page around an address. */
  function Start2MB(a: nat): nat {
    a - a % PGSIZE_2MB
  }

  function ToLgPage(a: nat): nat
    requires a >= PAGE_BASE_ADDR
  {
    (a - PAGE_BASE_ADDR) / PGSIZE_2MB
  }

  function LgPageAddr(pg: nat): nat {
    PAGE_BASE_ADDR + pg * PGSIZE_2MB
  }

  function ToSmPage(a: nat): nat {
    Start2MB(a) + (a - Start2MB(a)) / PGSIZE_4KB * PAGE_STRUCT
  }

  function SmPageAddr(pg: nat): nat {
    Start2MB(pg) + (pg - Start2MB(pg)) / PAGE_STRUCT * PGSIZE_4KB
  }

  /** A large page struct for a page address exists, and the conversions are inverse up to rounding down to the page. */
  lemma LargeRoundTrip(a: nat)
    requires IsPageAddr(a)
    ensures LgPageAddr(ToLgPage(a)) == Start2MB(a) && ToLgPage(a) < LGPAGE_META_ENTS * NNUMA
    ensures NumaNode(a) == ToLgPage(a) / LGPAGE_META_ENTS < NNUMA
  {
    var x := a - PAGE_BASE_ADDR;
    ShiftDivMod(x, PGSIZE_2MB, 0x80_0000);
    NestedDivision(x);
    assert x / PGSIZE_2MB < LGPAGE_META_ENTS * NNUMA;
    assert x / PGSIZE_2MB / LGPAGE_META_ENTS < NNUMA;
  }

  /** A node's address range is its table entries' large pages. */
  lemma NestedDivision(x: nat)
    ensures x / PGSIZE_2MB / LGPAGE_META_ENTS == x / LGPAGE_NODE_ADDR_LEN
  {
    var q, m := x / PGSIZE_2MB, x % PGSIZE_2MB;
    var d, r := q / LGPAGE_META_ENTS, q % LGPAGE_META_ENTS;
    Unique(x, LGPAGE_NODE_ADDR_LEN, d, r * PGSIZE_2MB + m);
  }

  lemma LargeRoundTripBack(pg: nat)
    requires pg < LGPAGE_META_ENTS * NNUMA
    ensures IsPageAddr(LgPageAddr(pg)) && ToLgPage(LgPageAddr(pg)) == pg && Start2MB(LgPageAddr(pg)) == LgPageAddr(pg)
    ensures NumaNode(LgPageAddr(pg)) == pg / LGPAGE_META_ENTS
  {
    assert LgPageAddr(pg) % PGSIZE_2MB == 0;
    LargeRoundTrip(LgPageAddr(pg));
  }

  /** A position inside a large page leaves the large page's start alone. */
  lemma SameLargePage(s: nat, off: nat)
    requires s % PGSIZE_2MB == 0 && off < PGSIZE_2MB
    ensures Start2MB(s + off) == s
  {
  }

  /** Small page structs lie in the metadata at the front of their own large page, and map back to it. */
  lemma SmallStructPlace(a: nat)
    requires IsPageAddr(a)
    ensures Start2MB(a) <= ToSmPage(a) && ToSmPage(a) + PAGE_STRUCT <= Start2MB(a) + SMPAGE_META_LEN
    ensures IsPageAddr(ToSmPage(a)) && Start2MB(ToSmPage(a)) == Start2MB(a) && ToLgPage(ToSmPage(a)) == ToLgPage(a)
  {
    var k := (a - Start2MB(a)) / PGSIZE_4KB;
    assert k < 512;
    SameLargePage(Start2MB(a), k * PAGE_STRUCT);
    LargeRoundTrip(a);
  }

  /** An address is a large page, a small page within it, and an offset. */
  lemma Decompose(a: nat) returns (q: nat, k: nat, o: nat)
    ensures Start2MB(a) == q * PGSIZE_2MB && k < 512 && o < PGSIZE_4KB
    ensures a == q * PGSIZE_2MB + k * PGSIZE_4KB + o
    ensures (a - Start2MB(a)) / PGSIZE_4KB == k && a % PGSIZE_4KB == o
  {
    q := a / PGSIZE_2MB;
    var x := a % PGSIZE_2MB;
    k, o := x / PGSIZE_4KB, x % PGSIZE_4KB;
    Unique(a, PGSIZE_4KB, q * 512 + k, o);
  }

  lemma SmallRoundTrip(a: nat)
    requires IsPageAddr(a)
    ensures SmPageAddr(ToSmPage(a)) == a - a % PGSIZE_4KB
  {
    var q, k, o := Decompose(a);
    Unique(q * PGSIZE_2MB, PGSIZE_2MB, q, 0);
    SameLargePage(q * PGSIZE_2MB, k * PAGE_STRUCT);
    Unique(k * PAGE_STRUCT, PAGE_STRUCT, k, 0);
  }

  /** From the struct to the page and back, for the k-th struct of a large page's metadata. */
  lemma SmallRoundTripBack(s: nat, k: nat)
    requires s % PGSIZE_2MB == 0 && k < PGSIZE_2MB / PGSIZE_4KB
    ensures SmPageAddr(s + k * PAGE_STRUCT) == s + k * PGSIZE_4KB
    ensures ToSmPage(SmPageAddr(s + k * PAGE_STRUCT)) == s + k * PAGE_STRUCT
  {
    SameLargePage(s, k * PAGE_STRUCT);
    SameLargePage(s, k * PGSIZE_4KB);
  }

  /** The small pages handed out start behind the metadata, so no page's contents overlap any struct. */
  lemma ContentsBehindMetadata(a: nat, b: nat)
    requires IsPageAddr(a) && IsPageAddr(b) && a % PGSIZE_4KB == 0 && a - Start2MB(a) >= SMPAGE_META_LEN
    ensures ToSmPage(b) + PAGE_STRUCT <= a || a + PGSIZE_4KB <= ToSmPage(b)
  {
    var q, k, o := Decompose(a);
    var p, j, u := Decompose(b);
    Separate(q, k, p, j);
  }

  lemma Separate(q: nat, k: nat, p: nat, j: nat)
    requires k < 512 && j < 512 && k * PGSIZE_4KB >= SMPAGE_META_LEN
    ensures p * PGSIZE_2MB + j * PAGE_STRUCT + PAGE_STRUCT <= q * PGSIZE_2MB + k * PGSIZE_4KB
            || q * PGSIZE_2MB + k * PGSIZE_4KB + PGSIZE_4KB <= p * PGSIZE_2MB + j * PAGE_STRUCT
  {
    if q < p {
      assert q * PGSIZE_2MB + PGSIZE_2MB <= p * PGSIZE_2MB;
    } else if p < q {
      assert p * PGSIZE_2MB + PGSIZE_2MB <= q * PGSIZE_2MB;
    }
  }
}
