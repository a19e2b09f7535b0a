/** Exactly when a removed process can be detached without leaving a core idle that somebody waits for. */
module CoreDetach {
  import opened Collections
  import opened CoreState
  import opened CoreInvariant
  import opened CoreMoves
  import opened CoreSteps
  import opened CoreGuarantee
  import opened CoreAdd
  import opened CorePark
  import opened CoreLifecycle
  import opened CoreRuns
  import opened CoreLimits
  import opened CoreOvertaken

  /** A core is idle although a kthread waits for it. */
  ghost predicate HoleHere(s: State, c: nat) {
    c < |s.hist| && c in s.avail && s.hist[c].next.Some?
  }

  ghost predicate Holed(s: State) {
    exists c :: HoleHere(s, c)
  }

  lemma HoledBreaks(s: State)
    requires Holed(s)
    ensures !Inv(s)
  {
    var c :| HoleHere(s, c);
    assert !Busy(s, c);
  }

  /* No later turn of the loop mends a hole. */

  lemma PickElsewhere(s: State, core: nat)
    requires core < |s.hist|
    ensures PickThreadForCore(s, core).state.hist == s.hist && PickThreadForCore(s, core).state.avail == s.avail
  {
  }

  lemma WakeElsewhere(s: State, core: nat, t: Tid, c: nat)
    requires HoleHere(s, c) && c != core && WakeOnCore(s, core, t).Done?
    ensures HoleHere(WakeOnCore(s, core, t).state, c)
  {
  }

  lemma CedeElsewhere(s: State, t: Tid)
    requires Named(s, t) && Movable(s.procs[t.p], t.k) && (t in s.tsIdx ==> s.tsIdx[t] < |s.ts|)
    ensures Cede(s, t).hist == s.hist && Cede(s, t).avail == s.avail + {Th(s, t).core}
  {
  }

  lemma TurnElsewhere(s: State, p: nat, k: nat, c: nat)
    requires HoleHere(s, c) && FreeKthread(s, p, k).Done?
    ensures HoleHere(FreeKthread(s, p, k).state, c)
  {
    if k !in s.procs[p].available {
      var t := Tid(p, k);
      var core := Th(s, t).core;
      CedeElsewhere(s, t);
      PickElsewhere(Cede(s, t), core);
      var picked := PickThreadForCore(Cede(s, t), core);
      if picked.thread.Some? {
        WakeElsewhere(picked.state, core, picked.thread.value, c);
      }
    }
  }

  /** The step reached a BUG or left a hole. */
  ghost predicate Fails(r: Outcome) {
    r.Bug? || Holed(r.state)
  }

  /* The turn that makes one. */

  /** Somebody of p, or somebody removed who waits for a core of p, waits for core c. */
  ghost predicate Stuck(s: State, p: nat, c: nat) {
    && c < |s.hist| && s.hist[c].next.Some? && s.hist[c].next.value.p in s.procs
    && s.procs[s.hist[c].next.value.p].removed
    && (s.hist[c].next.value.p == p || (s.hist[c].current.Some? && s.hist[c].current.value.p == p))
  }

  /** Parking by force a kthread that runs on a core for which a removed one waits. */
  lemma ParkRunning(s: State, p: nat, t: Tid)
    requires Base(s, {p}) && NoHole(s) && Running(s, t) && !WaiterNotRemoved(s, Th(s, t).core)
    ensures Fails(Park(s, t, false, true))
  {
    ParkDefined(s, {p}, t);
    var m := ParkForm(s, t, false, true);
    CedeRelBase(s, m, {p}, t);
    CededFails(s, m, t);
  }

  lemma CededFails(s: State, m: State, t: Tid)
    requires HistOk(s) && OwnOk(s) && HistOk(m) && OwnOk(m) && ProcsOk(m) && CedeRel(s, m, t)
    requires !WaiterNotRemoved(s, Th(s, t).core)
    ensures Fails(Resume(PickThreadForCore(m, Th(s, t).core), Th(s, t).core))
  {
    assert m.procs[t.p].removed == s.procs[t.p].removed;
    CededWaiter(s, m, t);
    MakesHole(m, Th(s, t).core);
  }

  lemma MakesHole(m: State, core: nat)
    requires core < |m.hist| && core in m.avail && m.hist[core].next.Some? && ProcsOk(m)
    requires Unparked(m, m.hist[core].next.value) && m.procs[m.hist[core].next.value.p].removed
    ensures Fails(Resume(PickThreadForCore(m, core), core))
  {
    var picked := PickThreadForCore(m, core);
    RemovedWaiterPick(m, core);
    if picked.thread.None? {
      assert HoleHere(picked.state, core);
    }
  }

  /** A kthread of a leaving process is not chosen for the core it waits for. */
  lemma NotChosen(m: State, core: nat)
    requires core < |m.hist| && core in m.avail && m.hist[core].next.Some? && FlagsOk(m)
    requires var p := m.hist[core].next.value.p; p in m.procs && m.procs[p].removed && m.procs[p].kill
    ensures Fails(Resume(PickThreadForCore(m, core), core))
  {
    var picked := PickThreadForCore(m, core);
    var p := m.hist[core].next.value.p;
    assert !m.procs[p].overloaded && p !in m.overloaded;
    PickElsewhere(m, core);
    if picked.thread.None? {
      assert HoleHere(picked.state, core);
    } else {
      assert picked.thread.value.p != p;
    }
  }

  /** Parking by force a kthread of p that waits for a core: the core is ceded under its owner. */
  lemma ParkWaiting(s: State, p: nat, t: Tid)
    requires FlagsOk(s) && t.p == p && p in s.procs && s.procs[p].kill && s.procs[p].removed
    requires s.procs[p].refs >= 2
    requires Named(s, t) && Th(s, t).core < |s.hist| && s.hist[Th(s, t).core].next == Some(t)
    ensures Fails(Park(s, t, false, true))
  {
    if Park(s, t, false, true).Done? {
      var core := Th(s, t).core;
      var m := Cede(s, t);
      CedeElsewhere(s, t);
      CedeFlagsKept(s, t);
      NotChosen(m, core);
    }
  }

  lemma CedeFlagsKept(s: State, t: Tid)
    requires FlagsOk(s) && Named(s, t) && s.procs[t.p].kill && s.procs[t.p].refs >= 2
    requires Movable(s.procs[t.p], t.k) && (t in s.tsIdx ==> s.tsIdx[t] < |s.ts|)
    ensures var m := Cede(s, t);
            FlagsOk(m) && t.p in m.procs && m.procs[t.p].removed == s.procs[t.p].removed && m.procs[t.p].kill
  {
  }

  /* The loop of cores_free_proc meets a stuck core. */

  /** The leaving process's kthreads below k are parked, and nothing is out of order yet. */
  ghost predicate Nearing(s: State, p: nat, k: nat) {
    && Base(s, {p}) && NoHole(s) && p in s.procs && s.procs[p].removed
    && ParkedBelow(s.procs[p].threads, k)
  }

  /** A kthread that waits for a core is polled, so its process has a second reference besides the table's. */
  lemma WaitingRefs(s: State, p: nat, t: Tid)
    requires RefsOk(s, {p}) && PolledOk(s) && t.p == p && Unparked(s, t)
    ensures s.procs[p].refs >= 2
  {
    assert t in PollSet(s, p);
    SubsetCount({t}, PollSet(s, p));
  }

  lemma FinalTurn(s: State, p: nat, k: nat)
    requires Nearing(s, p, k) && k < |s.procs[p].threads| && !s.procs[p].threads[k].parked
    requires !Running(s, Tid(p, k)) || !WaiterNotRemoved(s, Th(s, Tid(p, k)).core)
    ensures Fails(FreeKthread(s, p, k))
  {
    var t := Tid(p, k);
    AvailableParked(s, p, k);
    if Running(s, t) {
      ParkRunning(s, p, t);
    } else {
      WaitingRefs(s, p, t);
      assert Placed(s, t);
      ParkWaiting(s, p, t);
    }
  }

  lemma StaysFromNotRemoved(s: State, p: nat, core: nat)
    requires HistOk(s) && OwnOk(s) && ProcsOk(s) && ClientsOk(s, {p}) && core < |s.hist|
    requires WaiterNotRemoved(s, core) && p in s.procs && s.procs[p].removed
    ensures WaiterStays(s, core)
  {
    if s.hist[core].next.Some? {
      var u := s.hist[core].next.value;
      assert Unparked(s, u);
      assert s.procs[u.p].active != [];
    }
  }

  lemma PlainParts(s: State, p: nat, k: nat) returns (m: State)
    requires Nearing(s, p, k) && k < |s.procs[p].threads| && !s.procs[p].threads[k].parked
    requires Running(s, Tid(p, k)) && WaiterNotRemoved(s, Th(s, Tid(p, k)).core)
    ensures CedeRel(s, m, Tid(p, k))
    ensures var r := FreeKthread(s, p, k); Settled(m, r, {p}, Th(s, Tid(p, k)).core)
  {
    var t := Tid(p, k);
    AvailableParked(s, p, k);
    StaysFromNotRemoved(s, p, Th(s, t).core);
    ParkDefined(s, {p}, t);
    m := ParkForm(s, t, false, true);
    CedeRelBase(s, m, {p}, t);
    CededCoreSettles(s, m, {p}, t);
  }

  /** After the turns below k the process is still leaving, with core c stuck. */
  ghost predicate OnWay(s: State, p: nat, k: nat, n: nat, c: nat) {
    Nearing(s, p, k) && Stuck(s, p, c) && n == |s.procs[p].threads|
  }

  /** A turn on a core that can be passed on leaves every stuck core stuck. */
  lemma PlainTurn(s: State, p: nat, k: nat, n: nat, c: nat)
    requires OnWay(s, p, k, n, c) && k < n && !s.procs[p].threads[k].parked
    requires Running(s, Tid(p, k)) && WaiterNotRemoved(s, Th(s, Tid(p, k)).core)
    ensures var r := FreeKthread(s, p, k); r.Done? && OnWay(r.state, p, k + 1, n, c)
  {
    var t := Tid(p, k);
    var m := PlainParts(s, p, k);
    ClientProcOk(s, p);
    CedeOfProc(s, m, t);
    StuckStays(s, m, FreeKthread(s, p, k).state, p, Th(s, t).core, c);
    ParkedGrows(s, m, FreeKthread(s, p, k).state, p, Th(s, t).core, k);
  }

  lemma ParkedGrows(s: State, m: State, s': State, p: nat, core: nat, k: nat)
    requires p in s.procs && p in m.procs && |m.procs[p].threads| == |s.procs[p].threads| && k < |s.procs[p].threads|
    requires m.procs[p].threads[k].parked && s.procs[p].removed && ParkedBelow(s.procs[p].threads, k)
    requires forall j :: 0 <= j < |s.procs[p].threads| && s.procs[p].threads[j].parked ==> m.procs[p].threads[j].parked
    requires forall q :: q in m.procs ==> q in s.procs && m.procs[q].removed == s.procs[q].removed
    requires Undisturbed(m, s', core, p)
    ensures s'.procs[p].removed && ParkedBelow(s'.procs[p].threads, k + 1)
    ensures |s'.procs[p].threads| == |s.procs[p].threads|
  {
  }

  lemma Turn(s: State, p: nat, k: nat, n: nat, c: nat)
    requires OnWay(s, p, k, n, c) && k < n
    ensures var r := FreeKthread(s, p, k); Fails(r) || OnWay(r.state, p, k + 1, n, c)
  {
    AvailableParked(s, p, k);
    if !s.procs[p].threads[k].parked {
      if Running(s, Tid(p, k)) && WaiterNotRemoved(s, Th(s, Tid(p, k)).core) {
        PlainTurn(s, p, k, n, c);
      } else {
        FinalTurn(s, p, k);
      }
    }
  }

  /** A loop whose turns reach a BUG or keep inv reaches a BUG or keeps inv. */
  lemma {:induction false} LoopEither(step: (State, nat) -> Outcome, inv: (State, nat) -> bool, s: State, k: nat, n: nat)
    requires inv(s, k) && k <= n
    requires forall m: State, i: nat :: inv(m, i) && i < n ==> step(m, i).Bug? || inv(step(m, i).state, i + 1)
    ensures var r := ForEachKthread(step, s, k, n); r.Bug? || inv(r.state, n)
    decreases n - k
  {
    if k < n && step(s, k).Done? {
      LoopEither(step, inv, step(s, k).state, k + 1, n);
    }
  }

  /** A hole has been made, or core c is still ahead. */
  ghost function DoomedOf(p: nat, n: nat, c: nat): (State, nat) -> bool {
    (m: State, k: nat) => Holed(m) || OnWay(m, p, k, n, c)
  }

  lemma DoomedTurn(m: State, p: nat, i: nat, n: nat, c: nat)
    requires DoomedOf(p, n, c)(m, i) && i < n
    ensures FreeTurnOf(p)(m, i).Bug? || DoomedOf(p, n, c)(FreeTurnOf(p)(m, i).state, i + 1)
  {
    if Holed(m) {
      HoledTurn(m, p, i);
    } else {
      Turn(m, p, i, n, c);
    }
  }

  lemma HoledTurn(m: State, p: nat, i: nat)
    requires Holed(m)
    ensures Fails(FreeKthread(m, p, i))
  {
    if FreeKthread(m, p, i).Done? {
      var c :| HoleHere(m, c);
      TurnElsewhere(m, p, i, c);
    }
  }

  lemma StuckStays(s: State, m: State, s': State, p: nat, core: nat, c: nat)
    requires Stuck(s, p, c) && c != core && m.hist == s.hist && HistOk(s') && OwnOk(s')
    requires forall q :: q in m.procs ==> q in s.procs && m.procs[q].removed == s.procs[q].removed
    requires Undisturbed(m, s', core, p)
    ensures Stuck(s', p, c)
  {
  }

  lemma NoStuckLeft(s: State, p: nat, c: nat)
    requires Base(s, {p}) && NoHole(s) && p in s.procs && ParkedBelow(s.procs[p].threads, |s.procs[p].threads|)
    ensures !Stuck(s, p, c)
  {
  }

  lemma DoomedTurns(p: nat, n: nat, c: nat)
    ensures forall m: State, i: nat :: DoomedOf(p, n, c)(m, i) && i < n ==>
              FreeTurnOf(p)(m, i).Bug? || DoomedOf(p, n, c)(FreeTurnOf(p)(m, i).state, i + 1)
  {
    forall m: State, i: nat | DoomedOf(p, n, c)(m, i) && i < n
      ensures FreeTurnOf(p)(m, i).Bug? || DoomedOf(p, n, c)(FreeTurnOf(p)(m, i).state, i + 1)
    {
      DoomedTurn(m, p, i, n, c);
    }
  }

  lemma DoomedEnds(m: State, p: nat, n: nat, c: nat)
    requires DoomedOf(p, n, c)(m, n)
    ensures Holed(m)
  {
    if OnWay(m, p, n, n, c) {
      NoStuckLeft(m, p, c);
    }
  }

  lemma LoopDoomed(s: State, p: nat, n: nat, c: nat)
    requires DoomedOf(p, n, c)(s, 0)
    ensures Fails(FreeKthreads(s, p, n))
  {
    DoomedTurns(p, n, c);
    LoopEither(FreeTurnOf(p), DoomedOf(p, n, c), s, 0, n);
    var r := FreeKthreads(s, p, n);
    if r.Done? {
      DoomedEnds(r.state, p, n, c);
    }
  }

  lemma LoopFails(s: State, p: nat, n: nat, c: nat)
    requires OnWay(s, p, 0, n, c)
    ensures Fails(FreeKthreads(s, p, n))
  {
    LoopDoomed(s, p, n, c);
  }

  /* Detaching. */

  lemma StuckCore(s: State, p: nat) returns (c: nat)
    requires HistOk(s) && OwnOk(s) && p in s.clients && p in s.procs && s.procs[p].removed && !MayLeave(s, p)
    ensures Stuck(s, p, c)
  {
    if PendSet(s, p) != {} {
      c :| c in PendSet(s, p);
    } else {
      c :| 0 <= c < |s.hist| && s.hist[c].current.Some? && s.hist[c].current.value.p == p && s.hist[c].next.Some?
        && !(s.hist[c].next.value.p in s.procs && !s.procs[s.hist[c].next.value.p].removed);
    }
  }

  lemma PutRefHoled(s: State, p: nat)
    requires Holed(s) && p in s.procs
    ensures Holed(PutRef(s, p))
  {
    var c :| HoleHere(s, c);
    assert HoleHere(PutRef(s, p), c);
  }

  lemma DetachBreaks(s: State, p: nat)
    requires Inv(s) && p in s.clients && p in s.procs && s.procs[p].removed && !MayLeave(s, p)
    ensures !Kept(RemoveClient(s, p))
  {
    var c := StuckCore(s, p);
    var m := Leaving(s, p);
    LeaveForm(s, p);
    LeaveBase(s, m, p);
    LoopFails(m, p, |s.procs[p].threads|, c);
    DetachEnds(s, p);
  }

  lemma DetachEnds(s: State, p: nat)
    requires p in s.clients && p in s.procs && Fails(FreeKthreads(Leaving(s, p), p, |s.procs[p].threads|))
    ensures !Kept(RemoveClient(s, p))
  {
    var r := FreeKthreads(Leaving(s, p), p, |s.procs[p].threads|);
    if r.Done? && p in r.state.procs {
      PutRefHoled(r.state, p);
      HoledBreaks(PutRef(r.state, p));
    }
  }

  /**
   * The control plane marks a process removed before the data plane detaches it. Detaching it then keeps the invariant if
   * and only if none of its kthreads waits for a core and nobody removed waits for one of its cores.
   */
  lemma DetachExact(s: State, p: nat)
    requires Inv(s) && p in s.clients && p in s.procs && s.procs[p].removed
    ensures Kept(RemoveClient(s, p)) <==> MayLeave(s, p)
  {
    if MayLeave(s, p) {
      RemoveClientSafe(s, p);
    } else {
      DetachBreaks(s, p);
    }
  }

  /** Whoever waits for a core is a client. */
  lemma WaiterIsClient(s: State, c: nat)
    requires Inv(s) && c < |s.hist| && s.hist[c].next.Some?
    ensures s.hist[c].next.value.p in s.clients
  {
    var u := s.hist[c].next.value;
    assert Unparked(s, u);
    WaiterActive(s, u);
  }

  lemma WaiterActive(s: State, u: Tid)
    requires ProcsOk(s) && ClientsOk(s, {}) && Unparked(s, u)
    ensures u.p in s.clients
  {
    assert s.procs[u.p].active != [];
  }

  lemma MarkedWaits(s: State, p: nat, c: nat)
    requires p in s.procs && c < |s.hist| && s.hist[c].next.Some? && s.hist[c].next.value.p == p
    ensures var s' := MarkRemoved(s, p).state;
            MarkRemoved(s, p).Done? && p in s'.procs && s'.procs[p].removed && s'.clients == s.clients && !MayLeave(s', p)
  {
    assert c in PendSet(MarkRemoved(s, p).state, p);
  }

  lemma MarkedRun(b: State, es: seq<Event>, s: State, p: nat)
    requires Reaches(b, es, s) && Inv(s) && p in s.clients && MarkRemoved(s, p).Done?
    ensures Reaches(b, es + [Mark(p)], MarkRemoved(s, p).state) && Inv(MarkRemoved(s, p).state)
  {
    MarkSafe(s, p);
    LongerRun(b, es, s, Mark(p), MarkRemoved(s, p).state);
  }

  /** An allowed run from boot after which a process that has just been marked removed cannot be detached safely. */
  lemma DetachFails() returns (s: State, p: nat)
    ensures Reaches(Boot(3, {0, 1, 2}), Takeover() + [Mark(p)], s)
    ensures p in s.clients && p in s.procs && s.procs[p].removed && !Kept(RemoveClient(s, p))
    ensures Inv(s) && |s.hist| == 3 && s.hist[0].next.Some? && s.hist[0].next.value.p == p
  {
    var m := BelowGuarantee();
    CameInv(Takeover(), m);
    p := m.hist[0].next.value.p;
    WaiterIsClient(m, 0);
    NotKilled(m, {}, p);
    MarkedWaits(m, p, 0);
    MarkedRun(Boot(3, {0, 1, 2}), Takeover(), m, p);
    s := MarkRemoved(m, p).state;
    DetachBreaks(s, p);
  }

  lemma OwnerRuns(s: State, c: nat)
    requires HistOk(s) && OwnOk(s) && NoHole(s) && c < |s.hist| && s.hist[c].next.Some?
    ensures s.hist[c].current.Some? && Running(s, s.hist[c].current.value) && Th(s, s.hist[c].current.value).core == c
  {
  }

  /** After the same run the kthread on core 0 cannot be parked safely either: whoever waits for the core is removed. */
  lemma ParkFails(inFlight: bool) returns (s: State, p: nat, t: Tid)
    ensures Reaches(Boot(3, {0, 1, 2}), Takeover() + [Mark(p)], s)
    ensures Running(s, t) && !WaiterNotRemoved(s, Th(s, t).core) && !Kept(Park(s, t, inFlight, false))
  {
    s, p := DetachFails();
    OwnerRuns(s, 0);
    t := s.hist[0].current.value;
    ParkBreaks(s, t, inFlight);
  }
}
