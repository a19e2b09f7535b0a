/** The read-write mutex (runtime/sync.c), with the threads that hold it and the writers' order of arrival as history. */
module RwMutexes {
  datatype RwMutex = RwMutex(
    count: int,
    readWaiterCount: nat,
    readWaiters: seq<nat>,
    writeWaiters: seq<nat>,
    readers: seq<nat>,
    writer: seq<nat>,
    writeArrivals: seq<nat>,
    writeGrants: seq<nat>)

  function Fresh(): RwMutex {
    RwMutex(0, 0, [], [], [], [], [], [])
  }

  /** rwmutex_rdlock: true if the caller goes on, false if it parks. */
  function RdLock(m: RwMutex, t: nat): (RwMutex, bool) {
    if m.count >= 0 then (m.(count := m.count + 1, readers := m.readers + [t]), true)
    else (m.(readWaiterCount := m.readWaiterCount + 1, readWaiters := m.readWaiters + [t]), false)
  }

  function TryRdLock(m: RwMutex, t: nat): (RwMutex, bool) {
    if m.count >= 0 then RdLock(m, t) else (m, false)
  }

  function GiveWriter(m: RwMutex, t: nat): RwMutex {
    m.(count := -1, writer := [t], writeGrants := m.writeGrants + [t])
  }

  function WrLock(m: RwMutex, t: nat): (RwMutex, bool) {
    var m1 := m.(writeArrivals := m.writeArrivals + [t]);
    if m.count == 0 then (GiveWriter(m1, t), true)
    else (m1.(writeWaiters := m.writeWaiters + [t]), false)
  }

  function TryWrLock(m: RwMutex, t: nat): (RwMutex, bool) {
    if m.count == 0 then WrLock(m, t) else (m, false)
  }

  /** The k-th reader, or the writer, lets go. */
  function LetGo(m: RwMutex, k: nat): RwMutex
    requires m.count > 0 ==> k < |m.readers|
  {
    if m.count < 0 then m.(count := 0, writer := [])
    else if m.count > 0 then m.(count := m.count - 1, readers := m.readers[..k] + m.readers[k + 1..])
    else m
  }

  /** What rwmutex_unlock does next: all waiting readers, else the first waiting writer; the threads to wake. */
  function PassOn(m: RwMutex): (RwMutex, seq<nat>) {
    if m.count == 0 && m.readWaiterCount > 0 then
      (m.(count := m.readWaiterCount, readWaiterCount := 0, readWaiters := [], readers := m.readers + m.readWaiters),
       m.readWaiters)
    else if m.count == 0 && m.writeWaiters != [] then
      (GiveWriter(m.(writeWaiters := m.writeWaiters[1..]), m.writeWaiters[0]), [m.writeWaiters[0]])
    else (m, [])
  }

  function Unlock(m: RwMutex, k: nat): (RwMutex, seq<nat>)
    requires m.count > 0 ==> k < |m.readers|
  {
    PassOn(LetGo(m, k))
  }

  /** The count tells who holds the lock: -1 for the one writer, otherwise the number of readers. */
  ghost predicate HoldersOk(m: RwMutex) {
    if m.count < 0 then m.count == -1 && |m.writer| == 1 && m.readers == []
    else m.writer == [] && |m.readers| == m.count
  }

  /** Writers get the lock in the order they asked for it. */
  ghost predicate OrderOk(m: RwMutex) {
    m.readWaiterCount == |m.readWaiters| && m.writeGrants + m.writeWaiters == m.writeArrivals
  }

  /** A free lock has no waiters, and readers wait only while a writer holds it. */
  ghost predicate Inv(m: RwMutex) {
    && HoldersOk(m) && OrderOk(m)
    && (m.count == 0 ==> m.readWaiters == [] && m.writeWaiters == [])
    && (m.readWaiters != [] ==> m.count == -1)
  }

  datatype Step = DoRd(t: nat) | DoTryRd(t: nat) | DoWr(t: nat) | DoTryWr(t: nat) | DoUnlock(k: nat)

  /** Only a holder unlocks: the k-th reader, or the writer. */
  predicate Enabled(m: RwMutex, a: Step) {
    a.DoUnlock? ==> m.count != 0 && (m.count > 0 ==> a.k < |m.readers|)
  }

  function Apply(m: RwMutex, a: Step): RwMutex
    requires Enabled(m, a)
  {
    match a
    case DoRd(t) => RdLock(m, t).0
    case DoTryRd(t) => TryRdLock(m, t).0
    case DoWr(t) => WrLock(m, t).0
    case DoTryWr(t) => TryWrLock(m, t).0
    case DoUnlock(k) => Unlock(m, k).0
  }

  lemma WrLockKeeps(m: RwMutex, t: nat)
    requires Inv(m)
    ensures Inv(WrLock(m, t).0)
  {
    if m.count == 0 {
      assert m.writeGrants + [] == m.writeGrants;
      assert m.writeGrants + [t] + [] == m.writeArrivals + [t];
    } else {
      assert m.writeGrants + (m.writeWaiters + [t]) == (m.writeGrants + m.writeWaiters) + [t];
    }
  }

  /** Whoever lets go, the holders stay exact; waiters may now wait for a free lock until the lock is passed on. */
  lemma LetGoHolders(m: RwMutex, k: nat)
    requires Inv(m) && Enabled(m, DoUnlock(k))
    ensures HoldersOk(LetGo(m, k)) && OrderOk(LetGo(m, k))
    ensures m.readWaiters != [] ==> LetGo(m, k).count == 0
  {
  }

  /**
   * Unlocking passes a freed lock on: to all waiting readers if there are any, else to the writer waiting longest; only
   * when nobody waits does it become free.
   */
  lemma UnlockKeeps(m: RwMutex, k: nat)
    requires Inv(m) && Enabled(m, DoUnlock(k))
    ensures Inv(Unlock(m, k).0)
    ensures var (m', woken) := Unlock(m, k);
            if LetGo(m, k).count != 0 then woken == []
            else if m.readWaiters != [] then woken == m.readWaiters && m'.readers == m.readWaiters
            else if m.writeWaiters != [] then woken == [m.writeWaiters[0]] && m'.writer == woken
            else woken == [] && m'.count == 0
  {
    LetGoHolders(m, k);
    var m1 := LetGo(m, k);
    if m1.count == 0 && m1.readWaiterCount == 0 && m1.writeWaiters != [] {
      assert m1.writeGrants + m1.writeWaiters == (m1.writeGrants + [m1.writeWaiters[0]]) + m1.writeWaiters[1..];
    }
  }

  lemma StepKeeps(m: RwMutex, a: Step)
    requires Inv(m) && Enabled(m, a)
    ensures Inv(Apply(m, a))
  {
    match a
    case DoRd(t) =>
    case DoTryRd(t) =>
    case DoWr(t) => WrLockKeeps(m, t);
    case DoTryWr(t) => WrLockKeeps(m, t);
    case DoUnlock(k) => UnlockKeeps(m, k);
  }

  ghost predicate Run(ms: seq<RwMutex>, steps: seq<Step>) {
    && |ms| == |steps| + 1 && ms[0] == Fresh()
    && forall n :: 0 <= n < |steps| ==> Enabled(ms[n], steps[n]) && ms[n + 1] == Apply(ms[n], steps[n])
  }

  /** In every run a writer excludes everyone else, readers exclude writers, and nobody waits for a free lock. */
  lemma {:induction false} RunExcludes(ms: seq<RwMutex>, steps: seq<Step>, n: nat)
    requires Run(ms, steps) && n <= |steps|
    ensures Inv(ms[n])
    ensures ms[n].writer != [] ==> |ms[n].writer| == 1 && ms[n].readers == []
  {
    if n > 0 {
      RunExcludes(ms, steps, n - 1);
      StepKeeps(ms[n - 1], steps[n - 1]);
    }
  }

  /* What the callers are told. */

  /** A reader goes on exactly when no writer holds the lock, and is then a reader; otherwise it waits last in line. */
  lemma RdLockExact(m: RwMutex, t: nat)
    requires Inv(m)
    ensures var (m', goesOn) := RdLock(m, t);
            && (goesOn <==> m.writer == []) && (goesOn <==> m'.readers == m.readers + [t])
            && (!goesOn <==> m'.readWaiters == m.readWaiters + [t])
            && m'.writer == m.writer && m'.writeWaiters == m.writeWaiters
    ensures TryRdLock(m, t).1 <==> m.writer == []
    ensures TryRdLock(m, t).0 == if m.writer == [] then RdLock(m, t).0 else m
  {
    var m' := RdLock(m, t).0;
    assert |m'.readers| + |m'.readWaiters| == |m.readers| + |m.readWaiters| + 1;
    assert m.count >= 0 <==> m.writer == [];
  }

  /** A writer goes on exactly when nobody holds the lock, and is then the writer; otherwise it waits last in line. */
  lemma WrLockExact(m: RwMutex, t: nat)
    requires Inv(m)
    ensures var (m', goesOn) := WrLock(m, t);
            && (goesOn <==> m.writer == [] && m.readers == []) && (goesOn ==> m'.writer == [t])
            && (!goesOn <==> m'.writeWaiters == m.writeWaiters + [t]) && (!goesOn ==> m'.writer == m.writer)
            && m'.readers == m.readers && m'.readWaiters == m.readWaiters
    ensures TryWrLock(m, t).1 <==> m.writer == [] && m.readers == []
    ensures TryWrLock(m, t).0 == if m.writer == [] && m.readers == [] then WrLock(m, t).0 else m
  {
    var m' := WrLock(m, t).0;
    assert m.count == 0 <==> m.writer == [] && m.readers == [];
    if m.count == 0 {
      assert |m'.writeWaiters| == |m.writeWaiters|;
    }
  }

  /**
   * What the threads know: `inside` were told that they have the lock, by the return of a call or by being woken, and have
   * not unlocked since; `parked` were told to wait and have not been woken.
   */
  datatype Told = Told(inside: multiset<nat>, parked: multiset<nat>)

  function Enters(k: Told, t: nat, goesOn: bool): Told {
    if goesOn then k.(inside := k.inside + multiset{t}) else k.(parked := k.parked + multiset{t})
  }

  function Tries(k: Told, t: nat, ok: bool): Told {
    if ok then k.(inside := k.inside + multiset{t}) else k
  }

  /** The thread that unlocks: the writer, or the k-th reader. */
  function Leaver(m: RwMutex, k: nat): nat {
    if m.writer != [] then m.writer[0] else if k < |m.readers| then m.readers[k] else 0
  }

  /** The answers of one call. */
  function Answer(k: Told, m: RwMutex, a: Step): Told
    requires Enabled(m, a)
  {
    match a
    case DoRd(t) => Enters(k, t, RdLock(m, t).1)
    case DoTryRd(t) => Tries(k, t, TryRdLock(m, t).1)
    case DoWr(t) => Enters(k, t, WrLock(m, t).1)
    case DoTryWr(t) => Tries(k, t, TryWrLock(m, t).1)
    case DoUnlock(j) =>
      var woken := multiset(Unlock(m, j).1);
      Told(k.inside - multiset{Leaver(m, j)} + woken, k.parked - woken)
  }

  function Known(ms: seq<RwMutex>, steps: seq<Step>, n: nat): Told
    requires n <= |steps| < |ms| && forall i :: 0 <= i < |steps| ==> Enabled(ms[i], steps[i])
  {
    if n == 0 then Told(multiset{}, multiset{}) else Answer(Known(ms, steps, n - 1), ms[n - 1], steps[n - 1])
  }

  ghost predicate Agrees(k: Told, m: RwMutex) {
    k.inside == multiset(m.readers + m.writer) && k.parked == multiset(m.readWaiters + m.writeWaiters)
  }

  lemma Snoc(a: seq<nat>, t: nat, b: seq<nat>)
    ensures multiset(a + [t] + b) == multiset(a + b) + multiset{t}
    ensures multiset(a + (b + [t])) == multiset(a + b) + multiset{t}
  {
    assert a + (b + [t]) == (a + b) + [t];
  }

  lemma RdAgrees(k: Told, m: RwMutex, t: nat)
    requires Inv(m) && Agrees(k, m)
    ensures Agrees(Answer(k, m, DoRd(t)), RdLock(m, t).0) && Agrees(Answer(k, m, DoTryRd(t)), TryRdLock(m, t).0)
  {
    RdLockExact(m, t);
    Snoc(m.readers, t, m.writer);
    Snoc(m.readWaiters, t, m.writeWaiters);
  }

  lemma WrAgrees(k: Told, m: RwMutex, t: nat)
    requires Inv(m) && Agrees(k, m)
    ensures Agrees(Answer(k, m, DoWr(t)), WrLock(m, t).0) && Agrees(Answer(k, m, DoTryWr(t)), TryWrLock(m, t).0)
  {
    WrLockExact(m, t);
    Snoc(m.readers, t, []);
    Snoc(m.readWaiters, t, m.writeWaiters);
    assert m.readers + [] == m.readers;
  }

  lemma DropAt(s: seq<nat>, k: nat)
    requires k < |s|
    ensures multiset(s[..k] + s[k + 1..]) == multiset(s) - multiset{s[k]}
  {
    assert s == s[..k] + [s[k]] + s[k + 1..];
  }

  lemma LetGoAgrees(m: RwMutex, k: nat)
    requires Inv(m) && Enabled(m, DoUnlock(k))
    ensures var m1 := LetGo(m, k);
            && multiset(m1.readers + m1.writer) == multiset(m.readers + m.writer) - multiset{Leaver(m, k)}
            && m1.readWaiters == m.readWaiters && m1.writeWaiters == m.writeWaiters
  {
    if m.count > 0 {
      DropAt(m.readers, k);
      assert m.readers + [] == m.readers && LetGo(m, k).readers + [] == LetGo(m, k).readers;
    } else {
      assert m.writer == [m.writer[0]];
    }
  }

  lemma PassOnAgrees(m: RwMutex)
    requires HoldersOk(m) && OrderOk(m)
    ensures var (m', woken) := PassOn(m);
            && multiset(m'.readers + m'.writer) == multiset(m.readers + m.writer) + multiset(woken)
            && multiset(m'.readWaiters + m'.writeWaiters) == multiset(m.readWaiters + m.writeWaiters) - multiset(woken)
  {
    if m.count == 0 && m.readWaiters == [] && m.writeWaiters != [] {
      assert m.writeWaiters == [m.writeWaiters[0]] + m.writeWaiters[1..];
    }
  }

  lemma AnswerAgrees(k: Told, m: RwMutex, a: Step)
    requires Inv(m) && Enabled(m, a) && Agrees(k, m)
    ensures Agrees(Answer(k, m, a), Apply(m, a))
  {
    match a
    case DoRd(t) => RdAgrees(k, m, t);
    case DoTryRd(t) => RdAgrees(k, m, t);
    case DoWr(t) => WrAgrees(k, m, t);
    case DoTryWr(t) => WrAgrees(k, m, t);
    case DoUnlock(j) =>
      LetGoAgrees(m, j);
      LetGoHolders(m, j);
      PassOnAgrees(LetGo(m, j));
  }

  /**
   * In every run the threads that believe to have the lock are exactly its holders, one writer or any number of readers, and
   * those that believe to wait are exactly the waiters.
   */
  lemma {:induction false} RunTold(ms: seq<RwMutex>, steps: seq<Step>, n: nat)
    requires Run(ms, steps) && n <= |steps|
    ensures Inv(ms[n]) && Agrees(Known(ms, steps, n), ms[n])
  {
    RunExcludes(ms, steps, n);
    if n > 0 {
      RunTold(ms, steps, n - 1);
      AnswerAgrees(Known(ms, steps, n - 1), ms[n - 1], steps[n - 1]);
    }
  }

  /** In particular, when a writer believes to have the lock nobody else does. */
  lemma WriterAlone(ms: seq<RwMutex>, steps: seq<Step>, n: nat)
    requires Run(ms, steps) && n <= |steps| && ms[n].writer != []
    ensures Known(ms, steps, n).inside == multiset{ms[n].writer[0]}
  {
    RunTold(ms, steps, n);
    assert ms[n].readers + ms[n].writer == [ms[n].writer[0]];
  }
}
