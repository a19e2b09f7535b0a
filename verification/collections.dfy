/** Lists, optional values and finite-set facts shared by the models. */
module Collections {

  datatype Option<+T> = None | Some(value: T)

  /** No element occurs at two positions. */
  ghost predicate Distinct<T>(s: seq<T>) {
    forall i, j :: 0 <= i < j < |s| ==> s[i] != s[j]
  }

  /** `list_del`: the list without the first occurrence of `x`. */
  function Without<T(==)>(s: seq<T>, x: T): seq<T> {
    if s == [] then []
    else if s[0] == x then s[1..]
    else [s[0]] + Without(s[1..], x)
  }

  /** Deleting from a duplicate-free list removes exactly that element and keeps the others distinct. */
  lemma {:induction false} WithoutElements<T>(s: seq<T>, x: T)
    requires Distinct(s)
    ensures Distinct(Without(s, x))
    ensures forall y :: y in Without(s, x) <==> y in s && y != x
    ensures |Without(s, x)| == if x in s then |s| - 1 else |s|
  {
    if s != [] {
      assert s == [s[0]] + s[1..];
      if s[0] == x {
        assert forall y :: y in s[1..] <==> y in s && y != x;
      } else {
        WithoutElements(s[1..], x);
        var w := Without(s[1..], x);
        var r := [s[0]] + w;
        assert forall y :: y in r <==> y == s[0] || y in w;
        assert s[0] !in s[1..];
        assert forall i :: 1 <= i < |r| ==> r[i] in w;
        assert forall y :: y in s <==> y == s[0] || y in s[1..];
      }
    }
  }

  lemma DistinctTail<T>(s: seq<T>)
    requires Distinct(s) && s != []
    ensures Distinct(s[1..]) && s[0] !in s[1..]
    ensures forall y :: y in s <==> y == s[0] || y in s[1..]
  {
    assert s == [s[0]] + s[1..];
  }

  lemma DistinctCons<T>(s: seq<T>, x: T)
    requires Distinct(s) && x !in s
    ensures Distinct([x] + s)
    ensures forall y :: y in [x] + s <==> y == x || y in s
  {
  }

  /** Distinct numbers below n are at most n. */
  lemma DistinctBelow(s: seq<nat>, n: nat)
    requires Distinct(s) && forall k :: k in s ==> k < n
    ensures |s| <= n
  {
    DistinctCount(s);
    BelowElements(n);
    SubsetCount(Elements(s), Below(n));
  }

  /** The set of elements of a sequence. */
  function Elements<T>(s: seq<T>): set<T> {
    set x | x in s
  }

  lemma {:induction false} DistinctCount<T>(s: seq<T>)
    requires Distinct(s)
    ensures |Elements(s)| == |s|
  {
    if s == [] {
      assert Elements(s) == {};
    } else {
      var n := |s| - 1;
      DistinctCount(s[..n]);
      assert s == s[..n] + [s[n]];
      assert Elements(s) == Elements(s[..n]) + {s[n]};
      assert s[n] !in s[..n];
    }
  }

  /** A set covered by the image of another is no larger. */
  lemma {:induction false} CoveredCount<A, B>(covered: set<B>, source: set<A>, f: A -> B)
    requires forall b :: b in covered ==> exists a :: a in source && f(a) == b
    ensures |covered| <= |source|
    decreases source
  {
    if covered != {} {
      var b :| b in covered;
      var a :| a in source && f(a) == b;
      var rest := covered - {b};
      forall y | y in rest
        ensures exists z :: z in source - {a} && f(z) == y
      {
        var z :| z in source && f(z) == y;
        assert z in source - {a};
      }
      CoveredCount(rest, source - {a}, f);
    }
  }

  lemma SnocPrefix<T>(s: seq<T>, i: nat)
    requires i < |s|
    ensures s[..i] + [s[i]] == s[..i + 1]
    ensures s[..|s|] == s
  {
  }

  lemma SubsetCount<T>(a: set<T>, b: set<T>)
    requires a <= b
    ensures |a| <= |b|
  {
    assert b == a + (b - a);
  }

  /** The numbers 0 .. n-1. */
  function Below(n: nat): set<nat> {
    if n == 0 then {} else Below(n - 1) + {n - 1}
  }

  lemma {:induction false} BelowElements(n: nat)
    ensures |Below(n)| == n
    ensures forall k: nat :: k in Below(n) <==> k < n
  {
    if n > 0 {
      BelowElements(n - 1);
    }
  }

  /** How often a value occurs in a sequence. */
  function Count<T(==)>(s: seq<T>, x: T): nat {
    if s == [] then 0 else (if s[0] == x then 1 else 0) + Count(s[1..], x)
  }

  lemma {:induction false} CountAppend<T>(a: seq<T>, b: seq<T>, x: T)
    ensures Count(a + b, x) == Count(a, x) + Count(b, x)
  {
    if a == [] {
      assert a + b == b;
    } else {
      assert (a + b)[1..] == a[1..] + b;
      CountAppend(a[1..], b, x);
    }
  }

  /** Counting from either end of a cut. */
  lemma CountSplit<T>(s: seq<T>, k: nat, x: T)
    requires k <= |s|
    ensures Count(s, x) == Count(s[..k], x) + Count(s[k..], x)
  {
    assert s == s[..k] + s[k..];
    CountAppend(s[..k], s[k..], x);
  }

  lemma {:induction false} CountPositive<T>(s: seq<T>, x: T)
    ensures Count(s, x) > 0 <==> x in s
  {
    if s != [] {
      CountPositive(s[1..], x);
    }
  }

  lemma {:induction false} CountDistinct<T>(s: seq<T>, x: T)
    requires Distinct(s) && x in s
    ensures Count(s, x) == 1
  {
    DistinctTail(s);
    if s[0] == x {
      CountPositive(s[1..], x);
    } else {
      CountDistinct(s[1..], x);
    }
  }

  function SumOf(w: seq<nat>): nat {
    if w == [] then 0 else SumOf(w[..|w| - 1]) + w[|w| - 1]
  }

  lemma {:induction false} SumUpdate(w: seq<nat>, i: nat, v: nat)
    requires i < |w|
    ensures SumOf(w[i := v]) + w[i] == SumOf(w) + v
  {
    var n := |w| - 1;
    if i == n {
      assert w[i := v][..n] == w[..n];
    } else {
      assert w[i := v][..n] == w[..n][i := v];
      SumUpdate(w[..n], i, v);
    }
  }

  lemma {:induction false} SumPart(w: seq<nat>, i: nat)
    requires i < |w|
    ensures w[i] <= SumOf(w)
  {
    if i < |w| - 1 {
      SumPart(w[..|w| - 1], i);
    }
  }

  lemma {:induction false} SumParts(w: seq<nat>, i: nat, j: nat)
    requires i < j < |w|
    ensures w[i] + w[j] <= SumOf(w)
  {
    if j < |w| - 1 {
      SumParts(w[..|w| - 1], i, j);
    } else {
      SumPart(w[..j], i);
    }
  }

  lemma {:induction false} SumPositive(w: seq<nat>) returns (i: nat)
    requires SumOf(w) > 0
    ensures i < |w| && w[i] > 0
  {
    if w[|w| - 1] > 0 {
      i := |w| - 1;
    } else {
      i := SumPositive(w[..|w| - 1]);
    }
  }

  lemma {:induction false} ZeroSum(w: seq<nat>)
    requires forall i :: 0 <= i < |w| ==> w[i] == 0
    ensures SumOf(w) == 0
  {
    if w != [] {
      ZeroSum(w[..|w| - 1]);
    }
  }

  /** Removing the element at k removes one occurrence of it. */
  lemma CountRemove<T>(s: seq<T>, k: nat, x: T)
    requires k < |s|
    ensures Count(s[..k] + s[k + 1..], x) + Count([s[k]], x) == Count(s, x)
  {
    CountSplit(s, k, x);
    assert s[k..] == [s[k]] + s[k + 1..];
    CountAppend([s[k]], s[k + 1..], x);
    CountAppend(s[..k], s[k + 1..], x);
  }

  function Concat<T>(lists: seq<seq<T>>): seq<T> {
    if lists == [] then [] else lists[0] + Concat(lists[1..])
  }

  lemma {:induction false} ConcatSnoc<T>(lists: seq<seq<T>>, last: seq<T>)
    ensures Concat(lists + [last]) == Concat(lists) + last
  {
    if lists == [] {
      assert [last][1..] == [];
    } else {
      assert (lists + [last])[1..] == lists[1..] + [last];
      ConcatSnoc(lists[1..], last);
    }
  }
}
