/** The blocking primitives as objects updated under their spin locks (runtime/sync.c). */
module SyncObjects {
  import B = Barriers
  import M = Mutexes
  import R = RwMutexes

  class MutexObject {
    var held: bool
    var waiters: seq<nat>
    ghost var view: M.Mutex

    ghost predicate Valid()
      reads this
    {
      M.Inv(view) && view.held == held && view.waiters == waiters
    }

    constructor ()
      ensures Valid() && view == M.Fresh()
    {
      held, waiters, view := false, [], M.Fresh();
    }

    method TryLock(t: nat) returns (ok: bool)
      requires Valid()
      modifies this
      ensures Valid() && (view, ok) == M.TryLock(old(view), t)
      ensures ok <==> !old(held)
    {
      M.StepKeeps(view, M.DoTry(t));
      if held {
        return false;
      }
      held := true;
      view := M.Apply(view, M.DoTry(t));
      return true;
    }

    method Lock(t: nat) returns (goesOn: bool)
      requires Valid()
      modifies this
      ensures Valid() && (view, goesOn) == M.Lock(old(view), t)
      ensures goesOn <==> !old(held)
      ensures waiters == if goesOn then old(waiters) else old(waiters) + [t]
    {
      M.StepKeeps(view, M.DoLock(t));
      view := M.Apply(view, M.DoLock(t));
      if !held {
        held := true;
        return true;
      }
      waiters := waiters + [t];
      return false;
    }

    method Unlock() returns (woken: seq<nat>)
      requires Valid() && held
      modifies this
      ensures Valid() && (view, woken) == M.Unlock(old(view))
      ensures woken + waiters == old(waiters) && (held <==> woken != []) && (held <==> old(waiters) != [])
    {
      M.StepKeeps(view, M.DoUnlock);
      view := M.Apply(view, M.DoUnlock);
      if waiters == [] {
        held := false;
        return [];
      }
      woken := [waiters[0]];
      waiters := waiters[1..];
    }
  }

  /** The wake loop shared by the blocking primitives: pop until the list is empty. */
  method WakeAll(list: seq<nat>) returns (woken: seq<nat>)
    ensures woken == list
  {
    var tmp := list;
    woken := [];
    while tmp != []
      invariant woken + tmp == list
      decreases |tmp|
    {
      woken := woken + [tmp[0]];
      tmp := tmp[1..];
    }
  }

  class BarrierObject {
    const count: int
    var waiting: int
    var waiters: seq<nat>
    ghost var view: B.Barrier

    ghost predicate Valid()
      reads this
    {
      B.Inv(view) && view.count == count && view.waiting == waiting && view.waiters == waiters
    }

    constructor (count: int)
      ensures Valid() && view == B.Fresh(count)
    {
      this.count, waiting, waiters, view := count, 0, [], B.Fresh(count);
    }

    method Wait(t: nat) returns (releases: bool, woken: seq<nat>)
      requires Valid()
      modifies this
      ensures Valid() && (view, releases) == B.Wait(old(view), t)
      ensures releases ==> view.rounds == old(view).rounds + [woken + [t]]
    {
      B.WaitKeeps(view, t);
      view := B.Wait(view, t).0;
      waiting := waiting + 1;
      if waiting >= count {
        var tmp := waiters;
        waiters := [];
        waiting := 0;
        woken := WakeAll(tmp);
        return true, woken;
      }
      waiters := waiters + [t];
      return false, [];
    }
  }

  class RwMutexObject {
    var count: int
    var readWaiterCount: nat
    var readWaiters: seq<nat>
    var writeWaiters: seq<nat>
    ghost var view: R.RwMutex

    ghost predicate Same()
      reads this
    {
      && view.count == count && view.readWaiterCount == readWaiterCount
      && view.readWaiters == readWaiters && view.writeWaiters == writeWaiters
    }

    ghost predicate Valid()
      reads this
    {
      R.Inv(view) && Same()
    }

    constructor ()
      ensures Valid() && view == R.Fresh()
    {
      count, readWaiterCount, readWaiters, writeWaiters, view := 0, 0, [], [], R.Fresh();
    }

    method RdLock(t: nat) returns (goesOn: bool)
      requires Valid()
      modifies this
      ensures Valid() && (view, goesOn) == R.RdLock(old(view), t)
      ensures goesOn <==> old(view).writer == []
    {
      R.RdLockExact(view, t);
      view := R.RdLock(view, t).0;
      if count >= 0 {
        count := count + 1;
        return true;
      }
      readWaiterCount := readWaiterCount + 1;
      readWaiters := readWaiters + [t];
      return false;
    }

    method TryRdLock(t: nat) returns (ok: bool)
      requires Valid()
      modifies this
      ensures Valid() && (view, ok) == R.TryRdLock(old(view), t)
      ensures ok <==> old(view).writer == []
    {
      R.RdLockExact(view, t);
      if count >= 0 {
        view := R.RdLock(view, t).0;
        count := count + 1;
        return true;
      }
      return false;
    }

    method WrLock(t: nat) returns (goesOn: bool)
      requires Valid()
      modifies this
      ensures Valid() && (view, goesOn) == R.WrLock(old(view), t)
      ensures goesOn <==> old(view).writer == [] && old(view).readers == []
    {
      R.WrLockExact(view, t);
      R.WrLockKeeps(view, t);
      view := R.WrLock(view, t).0;
      if count == 0 {
        count := -1;
        return true;
      }
      writeWaiters := writeWaiters + [t];
      return false;
    }

    method TryWrLock(t: nat) returns (ok: bool)
      requires Valid()
      modifies this
      ensures Valid() && (view, ok) == R.TryWrLock(old(view), t)
      ensures ok <==> old(view).writer == [] && old(view).readers == []
    {
      R.WrLockExact(view, t);
      if count == 0 {
        R.WrLockKeeps(view, t);
        view := R.WrLock(view, t).0;
        count := -1;
        return true;
      }
      return false;
    }

    method Unlock(ghost k: nat) returns (woken: seq<nat>)
      requires Valid() && R.Enabled(view, R.DoUnlock(k))
      modifies this
      ensures Valid() && (view, woken) == R.Unlock(old(view), k)
    {
      R.UnlockKeeps(view, k);
      R.LetGoHolders(view, k);
      view := R.Unlock(view, k).0;
      if count < 0 {
        count := 0;
      } else {
        count := count - 1;
      }
      if count == 0 && readWaiterCount > 0 {
        count := readWaiterCount;
        readWaiterCount := 0;
        var tmp := readWaiters;
        readWaiters := [];
        woken := WakeAll(tmp);
        return;
      }
      if count == 0 {
        if writeWaiters == [] {
          return [];
        }
        woken := [writeWaiters[0]];
        writeWaiters := writeWaiters[1..];
        count := -1;
        return;
      }
      return [];
    }
  }
}
