/** Searching bitmaps a word at a time (base/bitmap.c, inc/base/bitmap.h). A word is the sequence of its 64 bits. */
module Bitmap {
  const BITS_PER_LONG: nat := 64

  type Word = w: seq<bool> | |w| == BITS_PER_LONG witness seq(BITS_PER_LONG, _ => false)

  function Not(w: Word): Word {
    seq(BITS_PER_LONG, k requires 0 <= k < BITS_PER_LONG => !w[k])
  }

  function And(a: Word, b: Word): Word {
    seq(BITS_PER_LONG, k requires 0 <= k < BITS_PER_LONG => a[k] && b[k])
  }

  /** The bits from s up: ~((1UL << s) - 1), see MaskBits. */
  function MaskFrom(s: nat): Word {
    seq(BITS_PER_LONG, k => k >= s)
  }

  /** __builtin_ffsl: one more than the index of the least set bit, or zero. */
  function Ffs(w: seq<bool>): (r: nat)
    ensures r <= |w|
    ensures r == 0 <==> forall k :: 0 <= k < |w| ==> !w[k]
    ensures r > 0 ==> w[r - 1] && forall k :: 0 <= k < r - 1 ==> !w[k]
  {
    if w == [] then 0
    else if w[0] then 1
    else
      var r := Ffs(w[1..]);
      assert forall k :: 0 <= k < |w[1..]| ==> w[1..][k] == w[k + 1];
      assert forall k :: 0 < k < |w| ==> w[k] == w[1..][k - 1];
      if r == 0 then 0 else r + 1
  }

  /** The machine expression for the mask has exactly the bits from s up. */
  lemma MaskBits(s: bv64, k: bv64)
    requires s < 64 && k < 64
    ensures ((!(((1 as bv64) << s) - 1)) >> k) & 1 == if k >= s then 1 else 0
  {
  }

  /* Reading one bit. */

  predicate Covers(bits: seq<Word>, nbits: nat) {
    nbits <= |bits| * BITS_PER_LONG
  }

  predicate Test(bits: seq<Word>, pos: nat)
    requires pos < |bits| * BITS_PER_LONG
  {
    bits[pos / BITS_PER_LONG][pos % BITS_PER_LONG]
  }

  /** The bit the search looks for: a set one, or a cleared one when inverted. */
  predicate Matches(bits: seq<Word>, pos: nat, invert: bool)
    requires pos < |bits| * BITS_PER_LONG
  {
    Test(bits, pos) != invert
  }

  /** The naive search, bit by bit. */
  function FirstFrom(bits: seq<Word>, nbits: nat, pos: nat, invert: bool): nat
    requires Covers(bits, nbits)
    decreases nbits - pos
  {
    if pos >= nbits then nbits
    else if Matches(bits, pos, invert) then pos
    else FirstFrom(bits, nbits, pos + 1, invert)
  }

  /** What the naive search finds: the least match at or after pos. */
  lemma {:induction false} FirstFromExact(bits: seq<Word>, nbits: nat, pos: nat, invert: bool, r: nat)
    requires Covers(bits, nbits)
    ensures FirstFrom(bits, nbits, pos, invert) == r <==>
      && (r == nbits || (pos <= r < nbits && Matches(bits, r, invert)))
      && forall k :: pos <= k < r && k < nbits ==> !Matches(bits, k, invert)
    decreases nbits - pos
  {
    if pos < nbits && !Matches(bits, pos, invert) {
      FirstFromExact(bits, nbits, pos + 1, invert, r);
    }
  }

  /** Word idx / 64 as the search sees it: inverted if need be, and masked below pos in the first word. */
  function Seen(bits: seq<Word>, idx: nat, pos: nat, invert: bool): Word
    requires idx / BITS_PER_LONG < |bits|
  {
    var w := bits[idx / BITS_PER_LONG];
    And(if invert then Not(w) else w, MaskFrom(if idx < pos then pos - idx else 0))
  }

  lemma SeenBit(bits: seq<Word>, idx: nat, pos: nat, invert: bool, k: nat)
    requires idx % BITS_PER_LONG == 0 && idx / BITS_PER_LONG < |bits| && k < BITS_PER_LONG
    ensures idx + k < |bits| * BITS_PER_LONG
    ensures Seen(bits, idx, pos, invert)[k] <==> idx + k >= pos && Matches(bits, idx + k, invert)
  {
    assert (idx + k) / BITS_PER_LONG == idx / BITS_PER_LONG && (idx + k) % BITS_PER_LONG == k;
  }

  /** bitmap_find_next: for every size and start, also past the end, the word-wise search is the naive one. */
  method FindNext(bits: seq<Word>, nbits: nat, pos: nat, invert: bool) returns (r: nat)
    requires Covers(bits, nbits)
    ensures r == FirstFrom(bits, nbits, pos, invert)
  {
    var mask := MaskFrom(pos % BITS_PER_LONG);
    var idx := pos - pos % BITS_PER_LONG;
    while idx < nbits
      invariant idx % BITS_PER_LONG == 0 && pos < idx + BITS_PER_LONG
      invariant mask == MaskFrom(if idx < pos then pos - idx else 0)
      invariant forall k :: pos <= k < idx && k < nbits ==> !Matches(bits, k, invert)
      decreases nbits - idx
    {
      var val := bits[idx / BITS_PER_LONG];
      if invert {
        val := Not(val);
      }
      val := And(val, mask);
      assert val == Seen(bits, idx, pos, invert);
      var f := Ffs(val);
      if f != 0 {
        r := if idx + f - 1 < nbits then idx + f - 1 else nbits;
        FoundFirst(bits, nbits, pos, invert, idx, f - 1, r);
        return;
      }
      NoneHere(bits, nbits, pos, invert, idx);
      mask := MaskFrom(0);
      idx := idx + BITS_PER_LONG;
    }
    FirstFromExact(bits, nbits, pos, invert, nbits);
    r := nbits;
  }

  lemma FoundFirst(bits: seq<Word>, nbits: nat, pos: nat, invert: bool, idx: nat, f: nat, r: nat)
    requires Covers(bits, nbits) && idx % BITS_PER_LONG == 0 && idx < nbits && f < BITS_PER_LONG
    requires r == if idx + f < nbits then idx + f else nbits
    requires Seen(bits, idx, pos, invert)[f] && forall k :: 0 <= k < f ==> !Seen(bits, idx, pos, invert)[k]
    requires forall k :: pos <= k < idx && k < nbits ==> !Matches(bits, k, invert)
    ensures r == FirstFrom(bits, nbits, pos, invert)
  {
    SeenBit(bits, idx, pos, invert, f);
    forall k | pos <= k < r && k < nbits
      ensures !Matches(bits, k, invert)
    {
      if k >= idx {
        SeenBit(bits, idx, pos, invert, k - idx);
      }
    }
    FirstFromExact(bits, nbits, pos, invert, r);
  }

  lemma NoneHere(bits: seq<Word>, nbits: nat, pos: nat, invert: bool, idx: nat)
    requires Covers(bits, nbits) && idx % BITS_PER_LONG == 0 && idx < nbits
    requires forall k :: 0 <= k < BITS_PER_LONG ==> !Seen(bits, idx, pos, invert)[k]
    ensures forall k :: pos <= k && idx <= k < idx + BITS_PER_LONG && k < nbits ==> !Matches(bits, k, invert)
  {
    forall k | pos <= k && idx <= k < idx + BITS_PER_LONG && k < nbits
      ensures !Matches(bits, k, invert)
    {
      SeenBit(bits, idx, pos, invert, k - idx);
    }
  }

  /** All matching bits from pos on, in order. */
  function AllFrom(bits: seq<Word>, nbits: nat, pos: nat, invert: bool): seq<nat>
    requires Covers(bits, nbits)
    decreases nbits - pos
  {
    if pos >= nbits then []
    else (if Matches(bits, pos, invert) then [pos] else []) + AllFrom(bits, nbits, pos + 1, invert)
  }

  /** The first match is the head of the list of matches. */
  lemma {:induction false} AllFromFirst(bits: seq<Word>, nbits: nat, pos: nat, invert: bool)
    requires Covers(bits, nbits)
    ensures var r := FirstFrom(bits, nbits, pos, invert);
            if r >= nbits then AllFrom(bits, nbits, pos, invert) == []
            else r >= pos && AllFrom(bits, nbits, pos, invert) == [r] + AllFrom(bits, nbits, r + 1, invert)
    decreases nbits - pos
  {
    if pos < nbits && !Matches(bits, pos, invert) {
      AllFromFirst(bits, nbits, pos + 1, invert);
    }
  }

  lemma {:induction false} AllFromExact(bits: seq<Word>, nbits: nat, pos: nat, invert: bool, k: nat)
    requires Covers(bits, nbits)
    ensures k in AllFrom(bits, nbits, pos, invert) <==> pos <= k < nbits && Matches(bits, k, invert)
    decreases nbits - pos
  {
    if pos < nbits {
      AllFromExact(bits, nbits, pos + 1, invert, k);
      var rest := AllFrom(bits, nbits, pos + 1, invert);
      if Matches(bits, pos, invert) {
        assert AllFrom(bits, nbits, pos, invert) == [pos] + rest;
      } else {
        assert AllFrom(bits, nbits, pos, invert) == [] + rest == rest;
      }
    }
  }

  /** bitmap_for_each_set and bitmap_for_each_cleared: the loop visits every matching bit once, in order, and ends. */
  method ForEach(bits: seq<Word>, nbits: nat, invert: bool) returns (visited: seq<nat>)
    requires Covers(bits, nbits)
    ensures visited == AllFrom(bits, nbits, 0, invert)
  {
    visited := [];
    var pos := -1;
    while true
      invariant -1 <= pos < nbits
      invariant visited + AllFrom(bits, nbits, pos + 1, invert) == AllFrom(bits, nbits, 0, invert)
      decreases nbits - pos
    {
      AllFromFirst(bits, nbits, pos + 1, invert);
      FirstFromExact(bits, nbits, pos + 1, invert, FirstFrom(bits, nbits, pos + 1, invert));
      pos := FindNext(bits, nbits, pos + 1, invert);
      if pos >= nbits {
        break;
      }
      visited := visited + [pos];
    }
  }
}
