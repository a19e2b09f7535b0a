/** Large-page allocation per NUMA node (base/page.c). */
module PageNodes {
  import opened Collections
  import opened PageTable
  import opened Wrapping

  /** A large page: entry k of a node's part of the page table. */
  datatype LgPage = LgPage(node: nat, k: nat)

  /** The page's index in the whole table. */
  function Index(p: LgPage): nat {
    p.node * LGPAGE_META_ENTS + p.k
  }

  datatype Nodes = Nodes(idx: seq<nat>, free: seq<seq<LgPage>>, used: map<LgPage, nat>)

  /** lgpage_alloc_on_node; `created` is whether the memory could be mapped. A page that could not is not kept. */
  function AllocLarge(n: Nodes, node: nat, created: bool): (Nodes, Option<LgPage>)
    requires node < |n.idx| == |n.free|
  {
    if n.free[node] != [] then
      Map(n.(free := n.free[node := n.free[node][1..]]), n.free[node][0], node, created)
    else if n.idx[node] >= LGPAGE_META_ENTS then (n, None)
    else Map(n.(idx := n.idx[node := n.idx[node] + 1]), LgPage(node, n.idx[node]), node, created)
  }

  function Map(n: Nodes, p: LgPage, node: nat, created: bool): (Nodes, Option<LgPage>) {
    if created then (n.(used := n.used[p := node]), Some(p)) else (n, None)
  }

  /** The node lgpage_free finds from the page's address. */
  function HomeNode(p: LgPage): nat {
    NumaNode(LgPageAddr(Index(p)))
  }

  /** lgpage_free */
  function FreeLarge(n: Nodes, p: LgPage): Nodes
    requires HomeNode(p) < |n.free|
  {
    var node := HomeNode(p);
    n.(free := n.free[node := [p] + n.free[node]], used := n.used - {p})
  }

  ghost predicate Cut(n: Nodes, p: LgPage) {
    p.node < |n.idx| && p.k < n.idx[p.node]
  }

  ghost predicate FreeOk(n: Nodes, i: nat)
    requires i < |n.free|
  {
    Distinct(n.free[i]) && forall p :: p in n.free[i] ==> p.node == i && Cut(n, p) && p !in n.used
  }

  ghost predicate Inv(n: Nodes) {
    && |n.idx| == |n.free| <= NNUMA
    && (forall i :: 0 <= i < |n.idx| ==> n.idx[i] <= LGPAGE_META_ENTS)
    && (forall i :: 0 <= i < |n.free| ==> FreeOk(n, i))
    && (forall p :: p in n.used ==> Cut(n, p) && n.used[p] == p.node)
  }

  /** The address of a page leads back to the node whose table it was cut from. */
  lemma HomeNodeExact(p: LgPage)
    requires p.node < NNUMA && p.k < LGPAGE_META_ENTS
    ensures HomeNode(p) == p.node
  {
    Unique(Index(p), LGPAGE_META_ENTS, p.node, p.k);
    LargeRoundTripBack(Index(p));
  }

  lemma TakeFirst(n: Nodes, node: nat)
    requires Inv(n) && node < |n.idx| && n.free[node] != []
    ensures var p, n' := n.free[node][0], n.(free := n.free[node := n.free[node][1..]]);
            Inv(n') && Fresh(n', p, node)
  {
    var n' := n.(free := n.free[node := n.free[node][1..]]);
    assert FreeOk(n, node);
    DistinctTail(n.free[node]);
    forall i | 0 <= i < |n'.free|
      ensures FreeOk(n', i)
    {
      assert FreeOk(n, i);
    }
  }

  /** A page of the node that is on no list and not in use. */
  ghost predicate Fresh(n: Nodes, p: LgPage, node: nat) {
    p.node == node && Cut(n, p) && p !in n.used && (node < |n.free| ==> p !in n.free[node])
  }

  lemma CutOne(n: Nodes, node: nat)
    requires Inv(n) && node < |n.idx| && n.idx[node] < LGPAGE_META_ENTS
    ensures var n' := n.(idx := n.idx[node := n.idx[node] + 1]);
            Inv(n') && Fresh(n', LgPage(node, n.idx[node]), node)
  {
    var n' := n.(idx := n.idx[node := n.idx[node] + 1]);
    forall i | 0 <= i < |n'.free|
      ensures FreeOk(n', i) && LgPage(node, n.idx[node]) !in n.free[i]
    {
      assert FreeOk(n, i);
    }
  }

  lemma MapKeeps(n: Nodes, p: LgPage, node: nat)
    requires Inv(n) && Fresh(n, p, node)
    ensures Inv(Map(n, p, node, true).0)
  {
    var n' := Map(n, p, node, true).0;
    forall i | 0 <= i < |n'.free|
      ensures FreeOk(n', i)
    {
      assert FreeOk(n, i);
    }
  }

  /**
   * An allocation hands out a page of the node asked for, one not in use: the one freed last, and a new one only when none
   * is left; it fails only when it must.
   */
  lemma AllocLargeKeeps(n: Nodes, node: nat, created: bool)
    requires Inv(n) && node < |n.idx|
    ensures var (n', p) := AllocLarge(n, node, created);
            Inv(n')
            && (p.Some? ==> p.value !in n.used && n'.used == n.used[p.value := node] && HomeNode(p.value) == node)
            && (p.Some? && n.free[node] != [] ==>
                  p.value == n.free[node][0] && n'.idx == n.idx && n'.free == n.free[node := n.free[node][1..]])
            && (p.Some? && n.free[node] == [] ==>
                  p.value == LgPage(node, n.idx[node]) && n'.idx == n.idx[node := n.idx[node] + 1] && n'.free == n.free)
            && (p.None? ==> n'.used == n.used && (!created || (n.free[node] == [] && n.idx[node] == LGPAGE_META_ENTS)))
  {
    if n.free[node] != [] {
      TakeFirst(n, node);
      HomeNodeExact(n.free[node][0]);
      MapKeeps(n.(free := n.free[node := n.free[node][1..]]), n.free[node][0], node);
    } else if n.idx[node] < LGPAGE_META_ENTS {
      CutOne(n, node);
      HomeNodeExact(LgPage(node, n.idx[node]));
      MapKeeps(n.(idx := n.idx[node := n.idx[node] + 1]), LgPage(node, n.idx[node]), node);
    }
  }

  /** A freed large page returns to the node that allocated it. */
  lemma FreeLargeKeeps(n: Nodes, p: LgPage)
    requires Inv(n) && p in n.used
    ensures HomeNode(p) == n.used[p] < |n.free|
    ensures Inv(FreeLarge(n, p))
    ensures FreeLarge(n, p).free == n.free[n.used[p] := [p] + n.free[n.used[p]]] && FreeLarge(n, p).used == n.used - {p}
  {
    assert Cut(n, p);
    HomeNodeExact(p);
    var n' := FreeLarge(n, p);
    forall i | 0 <= i < |n'.free|
      ensures FreeOk(n', i)
    {
      assert FreeOk(n, i);
      if i == p.node {
        DistinctCons(n.free[i], p);
      }
    }
  }
}
