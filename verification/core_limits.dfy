/** Where the allocator's guarantees stop: exact conditions, and runs that show they are needed. */
module CoreLimits {
  import opened Collections
  import opened CoreState
  import opened CoreInvariant
  import opened CoreMoves
  import opened CoreSteps
  import opened CoreGuarantee
  import opened CoreAdd
  import opened CorePark
  import opened CoreLifecycle
  import opened CoreRuns

  /* A core may be ceded exactly when its waiter has not been removed. */

  /** Passing on a core whose waiter was removed ends in a BUG or leaves the core idle with a waiter. */
  lemma RemovedWaiterBreaks(s: State, core: nat)
    requires core < |s.hist| && core in s.avail && s.hist[core].next.Some?
    requires Unparked(s, s.hist[core].next.value) && s.procs[s.hist[core].next.value.p].removed
    requires ProcsOk(s)
    ensures var r := Resume(PickThreadForCore(s, core), core); r.Bug? || !NoHole(r.state)
  {
    var picked := PickThreadForCore(s, core);
    var n := s.hist[core].next.value;
    RemovedWaiterPick(s, core);
    if picked.thread.Some? {
      assert picked.thread.value != n;
    } else {
      assert picked.state.hist[core].next.Some?;
    }
  }

  lemma RemovedWaiterPick(s: State, core: nat)
    requires core < |s.hist| && s.hist[core].next.Some? && ProcsOk(s)
    requires s.hist[core].next.value.p in s.procs && s.procs[s.hist[core].next.value.p].removed
    ensures var picked := PickThreadForCore(s, core);
            && picked.state.hist == s.hist && picked.state.avail == s.avail
            && (picked.thread.Some? ==> Named(s, picked.thread.value) && Th(s, picked.thread.value).parked)
  {
    if s.hist[core].current.Some? && s.hist[core].current.value.p in s.procs {
      PickThreadExact(s, s.hist[core].current.value.p, core);
    }
    if s.hist[core].prev.Some? && s.hist[core].prev.value.p in s.procs {
      PickThreadExact(s, s.hist[core].prev.value.p, core);
    }
    if s.overloaded != [] && s.overloaded[0] in s.procs {
      PickThreadExact(s, s.overloaded[0], core);
    }
  }

  /**
   * cores_park_kthread keeps the invariant if and only if the process waiting for the core, if any,
   * has not been removed (or the thread is kept awake, which happens only when nobody waits).
   */
  lemma ParkExact(s: State, t: Tid, inFlight: bool)
    requires Inv(s) && Running(s, t)
    ensures var r := Park(s, t, inFlight, false);
            (r.Done? && Inv(r.state)) <==> WaiterNotRemoved(s, Th(s, t).core)
  {
    var core := Th(s, t).core;
    if WaiterNotRemoved(s, core) {
      ParkedSafe(s, t, inFlight);
    } else {
      ParkBreaks(s, t, inFlight);
    }
  }

  lemma ParkBreaks(s: State, t: Tid, inFlight: bool)
    requires Inv(s) && Running(s, t) && !WaiterNotRemoved(s, Th(s, t).core)
    ensures var r := Park(s, t, inFlight, false); r.Bug? || !NoHole(r.state)
  {
    ParkDefined(s, {}, t);
    var m := ParkForm(s, t, inFlight, false);
    CedeRelBase(s, m, {}, t);
    CedeHole(s, m, t);
    CededWaiter(s, m, t);
    RemovedWaiterBreaks(m, Th(s, t).core);
  }

  lemma CededWaiter(s: State, m: State, t: Tid)
    requires HistOk(s) && OwnOk(s) && HistOk(m) && OwnOk(m) && Running(s, t)
    requires m.hist == s.hist && m.procs.Keys == s.procs.Keys
    requires forall q :: q in s.procs ==> m.procs[q].removed == s.procs[q].removed
    requires !WaiterNotRemoved(s, Th(s, t).core)
    ensures var core := Th(s, t).core;
            && core < |m.hist| && m.hist[core].next.Some? && Unparked(m, m.hist[core].next.value)
            && m.procs[m.hist[core].next.value.p].removed
  {
  }

  /* A process without a guarantee of its own may join exactly when somebody can make room. */

  /**
   * cores_init_proc adds a core unconditionally. With no core idle and no guarantee, that succeeds
   * if and only if some core of a bursting process is not being preempted yet.
   */
  lemma JoinWithoutGuaranteeExact(s: State, p: nat, n: nat)
    requires Inv(s) && MayJoin(s, p, 0) && n > 0 && s.nrAvail == 0
    ensures AddClient(s, p, 0, n).Done? <==> exists c :: c in s.online && Preemptable(s, c)
  {
    EnrollForm(s, p, 0, n);
    var s' := Enrolled(s, p, 0, n);
    EnrollInv(s, s', p);
    PickCoreExact(s', p);
    SamePreemptable(s, s', p);
    var picked := PickCoreForProc(s', p);
    if picked.Some? {
      IdleCount(s', p);
      NotKilled(s', {}, p);
      ClientProcOk(s', p);
      AddOnBusyForm(s', p, picked.value);
      AddCoreForm(s', p, picked.value);
    }
  }

  lemma SamePreemptable(s: State, s': State, p: nat)
    requires EnrollRel(s, s', p) && HistOk(s)
    ensures forall c :: Preemptable(s', c) <==> Preemptable(s, c)
  {
  }

  /** A preemption by a process without a guarantee leaves it with more pending kthreads than its guarantee allows. */
  lemma UnguaranteedPreemption(s: State, p: nat, core: nat)
    requires p in s.procs && ProcOk(s.procs[p]) && s.procs[p].idle != [] && s.procs[p].guaranteed == 0
    requires Preemptable(s, core) && core !in s.avail
    ensures AddOn(s, p, core).Done? && p in AddOn(s, p, core).state.procs
    ensures core in PendSet(AddOn(s, p, core).state, p) && AddOn(s, p, core).state.procs[p].guaranteed == 0
  {
    AddOnBusyForm(s, p, core);
    PickThreadExact(s, p, core);
  }

  lemma PendingBreaks(s: State, p: nat, core: nat)
    requires p in s.procs && s.procs[p].guaranteed == 0 && core in PendSet(s, p)
    ensures !PendOk(s)
  {
    SubsetCount({core}, PendSet(s, p));
  }

  /** The step succeeded and kept the invariant. */
  ghost predicate Kept(r: Outcome) {
    r.Done? && Inv(r.state)
  }

  lemma AttachBreaks(s: State, p: nat, g: nat, n: nat)
    requires Inv(s) && MayJoin(s, p, g) && g == 0 && n > 0 && s.nrAvail <= 0
    ensures !Kept(AddClient(s, p, g, n))
  {
    AvailNat(s);
    EnrollForm(s, p, g, n);
    var s' := Enrolled(s, p, g, n);
    EnrollInv(s, s', p);
    PickCoreExact(s', p);
    var picked := PickCoreForProc(s', p);
    if picked.Some? {
      IdleCount(s', p);
      ClientProcOk(s', p);
      UnguaranteedPreemption(s', p, picked.value);
      AddCoreForm(s', p, picked.value);
      PendingBreaks(AddOn(s', p, picked.value).state, p, picked.value);
    }
  }

  lemma AttachSafely(s: State, p: nat, g: nat, n: nat)
    requires Inv(s) && MayJoin(s, p, g) && (g > 0 || s.nrAvail > 0)
    ensures Kept(AddClient(s, p, g, n))
  {
    AddClientSafe(s, p, g, n);
  }

  lemma AttachEmpty(s: State, p: nat, g: nat, n: nat)
    requires Inv(s) && MayJoin(s, p, g) && n == 0
    ensures Kept(AddClient(s, p, g, n))
  {
    EnrollForm(s, p, g, n);
    EnrollInv(s, Enrolled(s, p, g, n), p);
    ClientProcOk(Enrolled(s, p, g, n), p);
    IdleCount(Enrolled(s, p, g, n), p);
  }

  /**
   * Attaching an admissible process keeps the invariant the guarantee rests on if and only if the process has a guarantee
   * of its own, or a core is idle, or it has no kthread to start.
   */
  lemma AttachExact(s: State, p: nat, g: nat, n: nat)
    requires Inv(s) && MayJoin(s, p, g)
    ensures Kept(AddClient(s, p, g, n)) <==> g > 0 || s.nrAvail > 0 || n == 0
  {
    if g > 0 || s.nrAvail > 0 {
      AttachSafely(s, p, g, n);
    } else if n == 0 {
      AttachEmpty(s, p, g, n);
    } else {
      AttachBreaks(s, p, g, n);
    }
  }

  /* Admission in 32-bit arithmetic. */

  /** control_create_proc's test as written: an unsigned 32-bit sum. */
  predicate AdmitsWrapped(total: nat, admitted: nat, guaranteed: nat) {
    (guaranteed + admitted) % 0x1_0000_0000 <= total
  }

  /** The 32-bit test admits only what fits if and only if the sum does not wrap. */
  lemma AdmissionExact(total: nat, admitted: nat, guaranteed: nat)
    requires guaranteed < 0x1_0000_0000 && admitted <= total < 0x8000_0000
    requires AdmitsWrapped(total, admitted, guaranteed)
    ensures Admissible(total, admitted, guaranteed) <==> guaranteed + admitted < 0x1_0000_0000
  {
  }

  lemma AdmissionWraps()
    ensures AdmitsWrapped(4, 1, 0xffff_ffff) && !Admissible(4, 1, 0xffff_ffff)
  {
  }
}
