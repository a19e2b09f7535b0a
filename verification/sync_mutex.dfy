/**
 * The blocking mutex (runtime/sync.c). Each operation runs under the object's spin lock; a thread that has to
 * wait parks, and the operation that takes it off the list makes it runnable again. Histories record who came when.
 */
module Mutexes {
  import opened Collections

  /** `arrivals` are the threads that asked for the lock to be theirs next or at once, `grants` those it was given to. */
  datatype Mutex = Mutex(held: bool, waiters: seq<nat>, holder: nat, arrivals: seq<nat>, grants: seq<nat>)

  function Fresh(): Mutex {
    Mutex(false, [], 0, [], [])
  }

  function Give(m: Mutex, t: nat): Mutex {
    m.(held := true, holder := t, grants := m.grants + [t])
  }

  /** mutex_try_lock: a failed attempt leaves no trace. */
  function TryLock(m: Mutex, t: nat): (Mutex, bool) {
    if m.held then (m, false) else (Give(m.(arrivals := m.arrivals + [t]), t), true)
  }

  /** mutex_lock: true if the caller goes on, false if it parks. */
  function Lock(m: Mutex, t: nat): (Mutex, bool) {
    var m1 := m.(arrivals := m.arrivals + [t]);
    if !m.held then (Give(m1, t), true) else (m1.(waiters := m.waiters + [t]), false)
  }

  /** mutex_unlock: the lock stays held and passes to the first waiter, if there is one. */
  function Unlock(m: Mutex): (Mutex, seq<nat>) {
    if m.waiters == [] then (m.(held := false), [])
    else (Give(m.(waiters := m.waiters[1..]), m.waiters[0]), [m.waiters[0]])
  }

  /** The lock is granted in exactly the order it was asked for, and nobody waits for a free lock. */
  ghost predicate Inv(m: Mutex) {
    && m.grants + m.waiters == m.arrivals
    && (m.waiters != [] ==> m.held)
    && (m.held ==> m.grants != [] && m.holder == m.grants[|m.grants| - 1])
  }

  datatype Step = DoTry(t: nat) | DoLock(t: nat) | DoUnlock

  /** Only the holder unlocks. */
  predicate Enabled(m: Mutex, a: Step) {
    a.DoUnlock? ==> m.held
  }

  function Apply(m: Mutex, a: Step): Mutex {
    match a
    case DoTry(t) => TryLock(m, t).0
    case DoLock(t) => Lock(m, t).0
    case DoUnlock => Unlock(m).0
  }

  /** The number of grants an unlock has ended. */
  function Unlocks(steps: seq<Step>): nat {
    if steps == [] then 0 else Unlocks(steps[..|steps| - 1]) + if steps[|steps| - 1].DoUnlock? then 1 else 0
  }

  ghost predicate Run(ms: seq<Mutex>, steps: seq<Step>) {
    && |ms| == |steps| + 1 && ms[0] == Fresh()
    && forall n :: 0 <= n < |steps| ==> Enabled(ms[n], steps[n]) && ms[n + 1] == Apply(ms[n], steps[n])
  }

  lemma StepKeeps(m: Mutex, a: Step)
    requires Inv(m) && Enabled(m, a)
    ensures Inv(Apply(m, a))
    ensures |Apply(m, a).grants| + (if m.held then 1 else 0) ==
            |m.grants| + (if a.DoUnlock? then 1 else 0) + (if Apply(m, a).held then 1 else 0)
  {
    match a
    case DoTry(t) =>
      if !m.held {
        assert m.grants + [] == m.arrivals;
      }
    case DoLock(t) =>
      if m.held {
        assert m.grants + (m.waiters + [t]) == (m.grants + m.waiters) + [t];
      } else {
        assert m.grants + [] == m.arrivals;
      }
    case DoUnlock =>
      if m.waiters != [] {
        assert m.grants + m.waiters == (m.grants + [m.waiters[0]]) + m.waiters[1..];
      }
  }

  /**
   * In every run the lock is granted first come, first served, without barging, and to one thread at a time: the grants
   * not yet ended by an unlock are the current holder's, one if the lock is held and none if it is free.
   */
  lemma {:induction false} RunFair(ms: seq<Mutex>, steps: seq<Step>)
    requires Run(ms, steps)
    ensures Inv(ms[|steps|])
    ensures |ms[|steps|].grants| == Unlocks(steps) + if ms[|steps|].held then 1 else 0
    decreases |steps|
  {
    if steps != [] {
      var n := |steps| - 1;
      RunFair(ms[..n + 1], steps[..n]);
      StepKeeps(ms[n], steps[n]);
    }
  }

  /* What the callers are told. */

  /** A caller goes on exactly when the lock was free and is now its own; otherwise it waits last in line. */
  lemma LockExact(m: Mutex, t: nat)
    requires Inv(m)
    ensures var (m', goesOn) := Lock(m, t);
            && (goesOn <==> !m.held) && (goesOn <==> m'.grants == m.grants + [t])
            && (!goesOn <==> m'.waiters == m.waiters + [t])
            && m'.held && m'.arrivals == m.arrivals + [t] && (goesOn ==> m'.holder == t)
  {
    var m' := Lock(m, t).0;
    if m.held {
      assert |m'.grants| == |m.grants|;
    } else {
      assert |m'.waiters| == |m.waiters|;
    }
  }

  lemma TryLockExact(m: Mutex, t: nat)
    requires Inv(m)
    ensures var (m', ok) := TryLock(m, t);
            && (ok <==> !m.held) && (ok ==> m'.holder == t && m'.held && m'.grants == m.grants + [t])
            && (!ok ==> m' == m)
  {
  }

  /**
   * What the threads know: `inside` were told that they have the lock, by the return of a call or by being woken, and have
   * not unlocked since; `parked` were told to wait and have not been woken.
   */
  datatype Told = Told(inside: seq<nat>, parked: seq<nat>)

  /** The woken threads are no longer parked. */
  function WithoutAll(parked: seq<nat>, woken: seq<nat>): seq<nat>
    decreases |woken|
  {
    if woken == [] then parked else WithoutAll(Without(parked, woken[0]), woken[1..])
  }

  /** The answers of one call; an unlock is made by thread `leaver`. */
  function Answer(k: Told, m: Mutex, a: Step, leaver: nat): Told {
    match a
    case DoTry(t) => if TryLock(m, t).1 then k.(inside := k.inside + [t]) else k
    case DoLock(t) => if Lock(m, t).1 then k.(inside := k.inside + [t]) else k.(parked := k.parked + [t])
    case DoUnlock =>
      var woken := Unlock(m).1;
      Told(Without(k.inside, leaver) + woken, WithoutAll(k.parked, woken))
  }

  /** What the threads know after the first n steps; the thread that unlocks is the one that is inside. */
  function Known(ms: seq<Mutex>, steps: seq<Step>, n: nat): Told
    requires n <= |steps| < |ms|
  {
    if n == 0 then Told([], [])
    else
      var k := Known(ms, steps, n - 1);
      Answer(k, ms[n - 1], steps[n - 1], if k.inside == [] then 0 else k.inside[0])
  }

  ghost predicate Agrees(k: Told, m: Mutex) {
    k.inside == (if m.held then [m.holder] else []) && k.parked == m.waiters
  }

  lemma AnswerAgrees(k: Told, m: Mutex, a: Step)
    requires Inv(m) && Enabled(m, a) && Agrees(k, m)
    ensures Agrees(Answer(k, m, a, if k.inside == [] then 0 else k.inside[0]), Apply(m, a))
  {
    match a
    case DoTry(t) =>
    case DoLock(t) =>
    case DoUnlock =>
      assert Without([m.holder], m.holder) == [];
      if m.waiters != [] {
        assert Unlock(m).1 == [m.waiters[0]] && [m.waiters[0]][1..] == [];
        assert WithoutAll(m.waiters, [m.waiters[0]]) == WithoutAll(m.waiters[1..], []) == m.waiters[1..];
      }
  }

  /**
   * In every run at most one thread at a time believes to have the lock: the holder, while the lock is held; and those that
   * believe to wait are exactly the waiters, in order.
   */
  lemma {:induction false} RunTold(ms: seq<Mutex>, steps: seq<Step>, n: nat)
    requires Run(ms, steps) && n <= |steps|
    ensures Inv(ms[n])
    ensures Known(ms, steps, n).inside == if ms[n].held then [ms[n].holder] else []
    ensures Known(ms, steps, n).parked == ms[n].waiters
  {
    if n > 0 {
      RunTold(ms, steps, n - 1);
      StepKeeps(ms[n - 1], steps[n - 1]);
      AnswerAgrees(Known(ms, steps, n - 1), ms[n - 1], steps[n - 1]);
    }
  }
}
