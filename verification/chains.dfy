/** Singly linked lists threaded through the first word of their elements, as the allocators keep them. */
module Chains {

  /** The chain from `head` through the words `next` visits exactly `items`; zero is the null pointer. */
  ghost predicate Chain(next: seq<nat>, head: nat, items: seq<nat>) {
    && head == (if items == [] then 0 else items[0])
    && forall k :: 0 <= k < |items| ==> 0 < items[k] < |next| && next[items[k]] == After(items, k)
  }

  function After(items: seq<nat>, k: nat): nat
    requires k < |items|
  {
    if k + 1 < |items| then items[k + 1] else 0
  }

  /** Writing outside a chain leaves it alone. */
  lemma ChainFrame(next: seq<nat>, next': seq<nat>, head: nat, items: seq<nat>)
    requires Chain(next, head, items) && |next'| == |next|
    requires forall k :: 0 <= k < |items| ==> next'[items[k]] == next[items[k]]
    ensures Chain(next', head, items)
  {
  }

  lemma ChainPop(next: seq<nat>, head: nat, items: seq<nat>)
    requires Chain(next, head, items) && items != []
    ensures Chain(next, next[head], items[1..])
  {
    assert next[items[0]] == After(items, 0);
    forall k | 0 <= k < |items[1..]|
      ensures next[items[1..][k]] == After(items[1..], k)
    {
      assert next[items[k + 1]] == After(items, k + 1);
    }
  }

  lemma ChainPush(next: seq<nat>, head: nat, items: seq<nat>, x: nat)
    requires Chain(next, head, items) && 0 < x < |next| && x !in items
    ensures Chain(next[x := head], x, [x] + items)
  {
    var all := [x] + items;
    forall k | 0 <= k < |all|
      ensures 0 < all[k] < |next| && next[x := head][all[k]] == After(all, k)
    {
      if k > 0 {
        assert next[items[k - 1]] == After(items, k - 1);
      }
    }
  }
}
