/** The availability bitmap of the daemon (hwalloc/cores.c): four words for 256 cores, as a set of cores. */
module CoreBits {
  import opened Bitmap
  import opened CoreSteps

  const NCPU: nat := 256

  type CpuCount = n: nat | n <= NCPU

  type CoreMap = w: seq<Word> | |w| == NCPU / BITS_PER_LONG
    witness seq(NCPU / BITS_PER_LONG, _ => seq(BITS_PER_LONG, _ => false))

  /** The cores whose bit is set. */
  ghost function Cores(w: CoreMap, cpus: CpuCount): set<nat> {
    set c | 0 <= c < cpus && Test(w, c)
  }

  function Cleared(): CoreMap {
    seq(NCPU / BITS_PER_LONG, _ => seq(BITS_PER_LONG, _ => false))
  }

  /** bitmap_set and bitmap_clear: one bit of one word. */
  function WithBit(w: CoreMap, c: nat, on: bool): CoreMap
    requires c < NCPU
  {
    w[c / BITS_PER_LONG := w[c / BITS_PER_LONG][c % BITS_PER_LONG := on]]
  }

  lemma WithBitTest(w: CoreMap, c: nat, on: bool, d: nat)
    requires c < NCPU && d < NCPU
    ensures Test(WithBit(w, c, on), d) == if d == c then on else Test(w, d)
  {
    if d / BITS_PER_LONG == c / BITS_PER_LONG && d % BITS_PER_LONG == c % BITS_PER_LONG {
      assert d == c;
    }
  }

  /** Setting a bit adds exactly that core, clearing it takes exactly that core out. */
  lemma WithBitCores(w: CoreMap, cpus: CpuCount, c: nat, on: bool)
    requires c < cpus
    ensures Cores(WithBit(w, c, on), cpus) == if on then Cores(w, cpus) + {c} else Cores(w, cpus) - {c}
  {
    forall d | 0 <= d < cpus
      ensures Test(WithBit(w, c, on), d) == if d == c then on else Test(w, d)
    {
      WithBitTest(w, c, on, d);
    }
  }

  lemma NoCores(cpus: CpuCount)
    ensures Cores(Cleared(), cpus) == {}
  {
  }

  /** The word-wise search finds the first available core. */
  lemma {:induction false} SearchCores(w: CoreMap, cpus: CpuCount, pos: nat)
    ensures FirstFrom(w, cpus, pos, false) == if pos > cpus then cpus else NextAvail(Cores(w, cpus), cpus, pos)
    decreases cpus - pos
  {
    if pos < cpus && !Test(w, pos) {
      SearchCores(w, cpus, pos + 1);
    }
  }
}
