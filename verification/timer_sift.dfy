/** The sift loops of runtime/timer.c on the heap array, with the back-pointers they maintain. */
module TimerSift {
  import opened TimerHeap

  ghost predicate SameAfter(a: array<Slot>, was: seq<Slot>, n: nat)
    reads a
  {
    |was| == a.Length && n <= a.Length && a[n..] == was[n..]
  }

  /** One exchange of the sift loops. */
  method Exchange(h: array<Slot>, idx: array<nat>, n: nat, i: nat, c: nat)
    requires n <= h.Length && i < n && c < n && i != c && Linked(h[..n], idx[..])
    modifies h, idx
    ensures h[..n] == Swapped(old(h[..n]), i, c) && SameAfter(h, old(h[..]), n)
    ensures Reordered(old(h[..n]), old(idx[..]), h[..n], idx[..])
  {
    ghost var s, x := h[..n], idx[..];
    SwapReorders(s, x, i, c);
    var tmp := h[i];
    h[i] := h[c];
    idx[h[i].e] := i;
    h[c] := tmp;
    idx[h[c].e] := c;
    assert h[..n] == Swapped(s, i, c);
    assert idx[..] == Relinked(s, x, i, c);
  }

  /** What every sift promises: the same slots, the same entries, entries outside untouched. */
  ghost predicate Reordered(h: seq<Slot>, x: seq<nat>, h': seq<Slot>, x': seq<nat>) {
    && |h'| == |h| && multiset(h') == multiset(h)
    && Linked(h', x') && SameElsewhere(h, x, x')
    && forall e :: 0 <= e < |x| ==> Holds(h', x', e) == Holds(h, x, e)
  }

  lemma SwapReorders(h: seq<Slot>, x: seq<nat>, i: nat, c: nat)
    requires Linked(h, x) && i < |h| && c < |h| && i != c
    ensures Reordered(h, x, Swapped(h, i, c), Relinked(h, x, i, c))
  {
    SwapKeepsLinks(h, x, i, c);
    SwapKeepsSlots(h, i, c);
  }

  lemma ReorderedTwice(h: seq<Slot>, x: seq<nat>, h1: seq<Slot>, x1: seq<nat>, h2: seq<Slot>, x2: seq<nat>)
    requires Reordered(h, x, h1, x1) && Reordered(h1, x1, h2, x2)
    ensures Reordered(h, x, h2, x2)
  {
  }

  method SiftUp(h: array<Slot>, idx: array<nat>, start: nat, n: nat)
    requires start < n <= h.Length && Linked(h[..n], idx[..]) && Hole(h[..n], start)
    modifies h, idx
    ensures SameAfter(h, old(h[..]), n) && Reordered(old(h[..n]), old(idx[..]), h[..n], idx[..])
    ensures Down(h[..n], 0, start)
  {
    var i: nat := start;
    while i > 0
      invariant i <= start && SameAfter(h, old(h[..]), n)
      invariant Reordered(old(h[..n]), old(idx[..]), h[..n], idx[..])
      invariant Rising(h[..n], start, i)
    {
      var p := (i - 1) / D;
      if h[i].deadline >= h[p].deadline {
        break;
      }
      RiseStep(h[..n], start, i);
      ghost var s, x := h[..n], idx[..];
      Exchange(h, idx, n, i, p);
      ReorderedTwice(old(h[..n]), old(idx[..]), s, x, h[..n], idx[..]);
      i := p;
    }
    RiseEnds(h[..n], start, i);
  }

  /** The inner loop of sift_down: the least child that comes before the slot at i, if any. */
  method PickChild(h: array<Slot>, i: nat, n: nat) returns (found: bool, c: nat)
    requires i < n <= h.Length
    ensures found ==> c < n && LeastChild(h[..n], i, c)
    ensures !found ==> forall j :: 0 < j < n && Parent(j) == i ==> h[..n][i].deadline <= h[..n][j].deadline
  {
    ghost var s := h[..n];
    var w := h[i].deadline;
    found, c := false, 0;
    var j := i * D + 1;
    while j <= i * D + D && j < n
      invariant i * D + 1 <= j <= i * D + D + 1
      invariant w <= s[i].deadline && (found ==> i * D + 1 <= c < j && c < n && w == s[c].deadline < s[i].deadline)
      invariant !found ==> w == s[i].deadline
      invariant forall m :: i * D + 1 <= m < j && m < n ==> w <= s[m].deadline
    {
      if h[j].deadline < w {
        w := h[j].deadline;
        found, c := true, j;
      }
      j := j + 1;
    }
    forall m | 0 < m < n && Parent(m) == i
      ensures w <= s[m].deadline
    {
      ChildRange(i, m);
    }
    if found {
      ChildRange(i, c);
    }
  }

  method SiftDown(h: array<Slot>, idx: array<nat>, start: nat, n: nat, ghost lo: nat)
    requires start < n <= h.Length && lo <= start && Linked(h[..n], idx[..]) && Down(h[..n], lo, start)
    modifies h, idx
    ensures SameAfter(h, old(h[..]), n) && Reordered(old(h[..n]), old(idx[..]), h[..n], idx[..])
    ensures HeapFrom(h[..n], lo)
  {
    var i := start;
    while true
      invariant lo <= i < n && SameAfter(h, old(h[..]), n)
      invariant Reordered(old(h[..n]), old(idx[..]), h[..n], idx[..])
      invariant Down(h[..n], lo, i)
      decreases n - i
    {
      var found, c := PickChild(h, i, n);
      if !found {
        SinkEnds(h[..n], lo, i);
        break;
      }
      SinkStep(h[..n], lo, i, c);
      ghost var s, x := h[..n], idx[..];
      Exchange(h, idx, n, i, c);
      ReorderedTwice(old(h[..n]), old(idx[..]), s, x, h[..n], idx[..]);
      i := c;
    }
  }
}
