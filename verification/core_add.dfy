/** cores_add_core and the flag updates around it keep the allocator's invariant. */
module CoreAdd {
  import opened Collections
  import opened CoreState
  import opened CoreInvariant
  import opened CoreMoves
  import opened CoreSteps
  import opened CoreGuarantee

  /** Only the overloaded, launched and removed flags of p and the overloaded list differ. */
  ghost predicate FlagRel(s: State, s': State, p: nat) {
    && p in s.procs
    && s' == s.(procs := s'.procs, overloaded := s'.overloaded)
    && p in s'.procs
    && s'.procs == s.procs[p := s'.procs[p]]
    && s'.procs[p] == s.procs[p].(overloaded := s'.procs[p].overloaded, launched := s'.procs[p].launched,
                                  removed := s'.procs[p].removed)
  }

  lemma FlagThreads(s: State, s': State, p: nat)
    requires FlagRel(s, s', p)
    ensures forall u :: Named(s', u) <==> Named(s, u)
    ensures forall u :: Named(s, u) ==> Th(s', u) == Th(s, u)
    ensures forall u :: Unparked(s', u) <==> Unparked(s, u)
  {
  }

  lemma FlagOwn(s: State, s': State, p: nat)
    requires FlagRel(s, s', p) && ShapeOk(s) && HistOk(s) && OwnOk(s) && PolledOk(s)
    ensures ShapeOk(s') && HistOk(s') && OwnOk(s') && PolledOk(s')
  {
    FlagThreads(s, s', p);
    forall u | Unparked(s', u)
      ensures Placed(s', u)
    {
      assert Placed(s, u);
    }
  }

  lemma FlagProcOk(pr: Proc, pr': Proc)
    requires ProcOk(pr)
    requires pr' == pr.(overloaded := pr'.overloaded, launched := pr'.launched, removed := pr'.removed)
    ensures ProcOk(pr')
  {
  }

  lemma FlagCounts(s: State, s': State, dying: set<nat>, p: nat)
    requires FlagRel(s, s', p) && InflightOk(s) && RefsOk(s, dying) && PendOk(s)
    ensures InflightOk(s') && RefsOk(s', dying) && PendOk(s')
  {
    forall q | q in s'.procs
      ensures s'.procs[q].refs == Refs(s', dying, q) && s'.procs[q].refs > 0
      ensures s'.procs[q].inflight == |PreemptedSet(s', q)| && |PendSet(s', q)| <= s'.procs[q].guaranteed
    {
      assert CurSet(s', q) == CurSet(s, q) && PrevSet(s', q) == PrevSet(s, q) && PollSet(s', q) == PollSet(s, q);
      assert PendSet(s', q) == PendSet(s, q) && PreemptedSet(s', q) == PreemptedSet(s, q);
    }
  }

  lemma FlagBase(s: State, s': State, dying: set<nat>, p: nat)
    requires Base(s, dying) && FlagRel(s, s', p) && FlagsOk(s')
    ensures Base(s', dying)
  {
    FlagOwn(s, s', p);
    FlagProcOk(s.procs[p], s'.procs[p]);
    ReplaceProc(s, s', dying, p);
    FlagCounts(s, s', dying, p);
  }

  lemma NoHoleFrame(s: State, s': State)
    requires NoHole(s) && s'.hist == s.hist && s'.avail == s.avail && s'.online == s.online
    ensures NoHole(s')
  {
  }

  lemma SetFlags(s: State, p: nat)
    requires FlagsOk(s) && p in s.procs && !s.procs[p].kill
    ensures FlagRel(s, SetOverloaded(s, p), p) && FlagsOk(SetOverloaded(s, p))
  {
    var s' := SetOverloaded(s, p);
    assert s.procs[p := s.procs[p]] == s.procs;
    if !s.procs[p].overloaded {
      assert forall q :: q in s'.overloaded <==> q == p || q in s.overloaded;
    }
  }

  lemma ClearFlags(s: State, p: nat)
    requires FlagsOk(s) && p in s.procs
    ensures FlagRel(s, ClearOverloaded(s, p), p) && FlagsOk(ClearOverloaded(s, p))
  {
    assert s.procs[p := s.procs[p]] == s.procs;
    WithoutElements(s.overloaded, p);
  }

  lemma NotKilled(s: State, dying: set<nat>, p: nat)
    requires ClientsOk(s, dying) && p in s.clients
    ensures p in s.procs && !s.procs[p].kill
  {
  }

  lemma SetOverloadedInv(s: State, dying: set<nat>, p: nat)
    requires Base(s, dying) && NoHole(s) && p in s.clients
    ensures p in s.procs && Base(SetOverloaded(s, p), dying) && NoHole(SetOverloaded(s, p))
  {
    NotKilled(s, dying, p);
    SetFlags(s, p);
    FlagBase(s, SetOverloaded(s, p), dying, p);
    NoHoleFrame(s, SetOverloaded(s, p));
  }

  lemma ClearOverloadedInv(s: State, dying: set<nat>, p: nat)
    requires Base(s, dying) && NoHole(s) && p in s.procs
    ensures Base(ClearOverloaded(s, p), dying) && NoHole(ClearOverloaded(s, p))
  {
    ClearFlags(s, p);
    FlagBase(s, ClearOverloaded(s, p), dying, p);
    NoHoleFrame(s, ClearOverloaded(s, p));
  }

  lemma PlainFlags(s: State, s': State, p: nat)
    requires FlagsOk(s) && FlagRel(s, s', p)
    requires s'.overloaded == s.overloaded && s'.procs[p].overloaded == s.procs[p].overloaded
    ensures FlagsOk(s')
  {
  }

  /** Clearing `launched` or setting `removed` touches nothing the invariant speaks of. */
  lemma PlainFlagInv(s: State, s': State, dying: set<nat>, p: nat)
    requires Base(s, dying) && NoHole(s) && FlagRel(s, s', p)
    requires s'.overloaded == s.overloaded && s'.procs[p].overloaded == s.procs[p].overloaded
    ensures Base(s', dying) && NoHole(s')
  {
    PlainFlags(s, s', p);
    FlagBase(s, s', dying, p);
    NoHoleFrame(s, s');
  }

  /** The slot holds a parked kthread of p. */
  ghost predicate RanHere(s: State, slot: Option<Tid>, p: nat) {
    slot.Some? && slot.value.p == p && Named(s, slot.value) && Th(s, slot.value).parked
  }

  /**
   * Which kthread k of p is to run on the core. A process that starts, or was preempted down to no core, continues with
   * the front of its idle list: kthread 0 at first, later the one parked last. Otherwise the core's last or second to
   * last occupant comes first, if it is one of p's; then the kthread that has been parked longest.
   */
  ghost predicate RightKthread(s: State, p: nat, core: nat, k: nat)
    requires p in s.procs && core < |s.hist| && s.procs[p].idle != []
  {
    var pr, h := s.procs[p], s.hist[core];
    && (pr.launched ==> k == pr.idle[0])
    && (pr.overloaded && pr.active == [] ==> k == pr.idle[0])
    && (!pr.launched && !(pr.overloaded && pr.active == []) ==>
          && (RanHere(s, h.current, p) ==> h.current.value == Tid(p, k))
          && (!RanHere(s, h.current, p) && RanHere(s, h.prev, p) ==> h.prev.value == Tid(p, k))
          && (!RanHere(s, h.current, p) && !RanHere(s, h.prev, p) ==> k == pr.idle[|pr.idle| - 1]))
  }

  /**
   * pick_thread_for_proc returns the right kthread of the process, a parked one, and fails only when it has none. It
   * changes nothing but that the process is no longer about to start.
   */
  lemma PickThreadExact(s: State, p: nat, core: nat)
    requires p in s.procs && core < |s.hist| && ProcOk(s.procs[p])
    ensures var r := PickThreadForProc(s, p, core);
            && FlagRel(s, r.state, p)
            && r.state.overloaded == s.overloaded && r.state.procs[p].overloaded == s.procs[p].overloaded
            && r.state.procs[p].removed == s.procs[p].removed && !r.state.procs[p].launched
            && (r.thread.None? <==> s.procs[p].idle == [])
            && (r.thread.Some? ==>
                  && r.thread.value.p == p && Named(s, r.thread.value) && Th(s, r.thread.value).parked
                  && RightKthread(s, p, core, r.thread.value.k)
                  && Named(r.state, r.thread.value) && Th(r.state, r.thread.value).parked
                  && r.thread.value.k in r.state.procs[p].available)
  {
    var r := PickThreadForProc(s, p, core);
    PickedState(s, p, core);
    PickedThread(s, p, core);
    if r.thread.Some? {
      var k := r.thread.value.k;
      assert r.state.procs[p].threads == s.procs[p].threads && r.state.procs[p].available == s.procs[p].available;
    }
  }

  lemma PickedState(s: State, p: nat, core: nat)
    requires p in s.procs && core < |s.hist|
    ensures var r := PickThreadForProc(s, p, core);
            && FlagRel(s, r.state, p)
            && r.state.overloaded == s.overloaded && r.state.procs[p].overloaded == s.procs[p].overloaded
            && r.state.procs[p].removed == s.procs[p].removed && !r.state.procs[p].launched
  {
    assert s.procs[p := s.procs[p]] == s.procs;
  }

  lemma PickedThread(s: State, p: nat, core: nat)
    requires p in s.procs && core < |s.hist| && ProcOk(s.procs[p])
    ensures var r := PickThreadForProc(s, p, core);
            && (r.thread.None? <==> s.procs[p].idle == [])
            && (r.thread.Some? ==>
                  && r.thread.value.p == p && Named(s, r.thread.value) && Th(s, r.thread.value).parked
                  && RightKthread(s, p, core, r.thread.value.k)
                  && r.thread.value.k in s.procs[p].available)
  {
    var pr := s.procs[p];
    if pr.idle != [] {
      assert pr.idle[0] in pr.idle;
      assert pr.idle[|pr.idle| - 1] in pr.idle;
    }
  }

  /** Waking a parked thread on an idle core that nobody waits for is a grant. */
  lemma WakeParked(s: State, dying: set<nat>, core: nat, t: Tid)
    requires Base(s, dying) && core in s.avail && s.hist[core].next.None?
    requires Named(s, t) && Th(s, t).parked && t.p in s.clients
    ensures core < |s.hist| && Named(DropPrev(s, core), t)
    ensures WakeOnCore(s, core, t) == Done(Grant(s, core, t), Some(t))
    ensures Base(Grant(s, core, t), dying)
    ensures GrantRel(ForgetPrev(s, core), Grant(s, core, t), core, t)
  {
    GrantBase(s, dying, core, t);
    assert HistOk(s);
    WakeParkedForm(s, core, t);
  }

  lemma WakeParkedForm(s: State, core: nat, t: Tid)
    requires core in s.avail && core < |s.hist| && s.hist[core].next.None?
    requires s.hist[core].prev.Some? ==> s.hist[core].prev.value.p in s.procs
    requires Named(s, t) && Th(s, t).parked && Named(DropPrev(s, core), t)
    ensures WakeOnCore(s, core, t) == Done(Grant(s, core, t), Some(t))
  {
    assert DropPrev(s, core).procs[t.p] == s.procs[t.p].(refs := DropPrev(s, core).procs[t.p].refs);
  }

  lemma ForgetPrevNoHole(s: State, core: nat)
    requires NoHole(s) && core < |s.hist|
    requires s.hist[core].prev.Some? ==> s.hist[core].prev.value.p in s.procs
    ensures NoHole(ForgetPrev(s, core)) && ForgetPrev(s, core).avail == s.avail
  {
  }

  lemma GrantRuns(s: State, s': State, core: nat, t: Tid)
    requires GrantRel(s, s', core, t) && NoHole(s)
    ensures NoHole(s') && Running(s', t) && Th(s', t).core == core && s'.avail == s.avail - {core}
  {
    assert s'.procs[t.p].threads[t.k] == Thread(false, core, |s.procs[t.p].active|);
  }

  /** Granting an idle core to a parked thread: the thread runs there, and the invariant holds. */
  lemma WakeParkedInv(s: State, dying: set<nat>, core: nat, t: Tid)
    requires Base(s, dying) && NoHole(s) && core in s.avail && core < |s.hist| && s.hist[core].next.None?
    requires Named(s, t) && Th(s, t).parked && t.p in s.clients
    ensures var r := WakeOnCore(s, core, t);
            && r.Done? && r.woken == Some(t) && Base(r.state, dying) && NoHole(r.state)
            && Running(r.state, t) && Th(r.state, t).core == core && r.state.avail == s.avail - {core}
  {
    WakeParked(s, dying, core, t);
    ForgetPrevNoHole(s, core);
    GrantRuns(ForgetPrev(s, core), Grant(s, core, t), core, t);
  }

  lemma IdleCore(s: State, core: nat)
    requires ShapeOk(s) && NoHole(s) && core in s.avail
    ensures core < |s.hist| && s.hist[core].next.None?
  {
  }

  lemma AddOnIdle(s: State, p: nat, core: nat)
    requires Inv(s) && p in s.clients && s.procs[p].idle != [] && core in s.avail && core < |s.hist|
    ensures var r := AddOn(s, p, core);
            && r.Done? && Inv(r.state) && r.woken.Some?
            && r.woken == PickThreadForProc(s, p, core).thread
            && Running(r.state, r.woken.value) && Th(r.state, r.woken.value).core == core
            && r.state.avail == s.avail - {core}
  {
    IdleCore(s, core);
    PickThreadExact(s, p, core);
    var picked := PickThreadForProc(s, p, core);
    PlainFlagInv(s, picked.state, {}, p);
    WakeParkedInv(picked.state, {}, core, picked.thread.value);
  }

  lemma PreemptNoHole(s: State, s': State, core: nat, t: Tid)
    requires PreemptRel(s, s', core, t) && NoHole(s)
    ensures NoHole(s')
  {
  }

  /** Picking the thread leaves the chosen core preemptable. */
  lemma StillPreemptable(s: State, s': State, p: nat, core: nat)
    requires FlagRel(s, s', p) && Preemptable(s, core)
    ensures Preemptable(s', core)
    ensures |s'.procs[p].active| == |s.procs[p].active| && s'.procs[p].guaranteed == s.procs[p].guaranteed
    ensures s'.hist == s.hist && s'.avail == s.avail && s'.online == s.online && s'.clients == s.clients
  {
  }

  lemma PreemptInv(s: State, dying: set<nat>, core: nat, t: Tid)
    requires Base(s, dying) && NoHole(s) && Busy(s, core) && Preemptable(s, core)
    requires Named(s, t) && Th(s, t).parked && t.p in s.clients
    requires |s.procs[t.p].active| < s.procs[t.p].guaranteed
    ensures Base(Preempt(s, core, t), dying) && NoHole(Preempt(s, core, t))
  {
    PreemptBase(s, dying, core, t);
    PreemptNoHole(s, Preempt(s, core, t), core, t);
  }

  lemma AddOnBusyForm(s: State, p: nat, core: nat)
    requires p in s.procs && ProcOk(s.procs[p]) && s.procs[p].idle != []
    requires Preemptable(s, core) && core !in s.avail
    ensures var picked := PickThreadForProc(s, p, core);
            && picked.thread.Some? && Named(picked.state, picked.thread.value) && Preemptable(picked.state, core)
            && AddOn(s, p, core) == Done(Preempt(picked.state, core, picked.thread.value), picked.thread)
            && Preempt(picked.state, core, picked.thread.value).hist == s.hist[core := s.hist[core].(next := picked.thread)]
  {
    PickThreadExact(s, p, core);
  }

  lemma AddOnBusy(s: State, p: nat, core: nat)
    requires Inv(s) && p in s.clients && s.procs[p].idle != []
    requires |s.procs[p].active| < s.procs[p].guaranteed
    requires core in s.online && core !in s.avail && Preemptable(s, core)
    ensures core < |s.hist|
    ensures var r := AddOn(s, p, core);
            && r.Done? && Inv(r.state) && r.woken.Some? && r.woken == PickThreadForProc(s, p, core).thread
            && r.state.hist == s.hist[core := s.hist[core].(next := r.woken)]
  {
    PickThreadExact(s, p, core);
    var picked := PickThreadForProc(s, p, core);
    PlainFlagInv(s, picked.state, {}, p);
    StillPreemptable(s, picked.state, p, core);
    AddOnBusyForm(s, p, core);
    PreemptInv(picked.state, {}, core, picked.thread.value);
  }

  /** Thread t got the core c: it runs there if c was idle, and with no core idle it waits for c, which is preempted. */
  ghost predicate AddedCore(s: State, s': State, t: Tid, c: nat) {
    if c in s.avail then s'.avail == s.avail - {c} && Running(s', t) && Th(s', t).core == c
    else s.avail == {} && c < |s.hist| && Preemptable(s, c) && s'.hist == s.hist[c := s.hist[c].(next := Some(t))]
  }

  /** Process p got one more core, by the choices that PickCoreExact and PickThreadExact describe. */
  ghost predicate Extended(s: State, p: nat, r: Outcome) {
    && r.Done? && r.woken.Some? && r.woken.value.p == p && p in s.procs
    && PickCoreForProc(s, p).Some? && PickCoreForProc(s, p).value < |s.hist|
    && r.woken == PickThreadForProc(s, p, PickCoreForProc(s, p).value).thread
    && AddedCore(s, r.state, r.woken.value, PickCoreForProc(s, p).value)
  }

  lemma AddCoreAt(s: State, p: nat, core: nat)
    requires Inv(s) && p in s.clients && s.procs[p].idle != []
    requires |s.procs[p].active| < s.procs[p].guaranteed || s.nrAvail > 0
    requires s.nrAvail > 0 ==> core in s.avail
    requires s.nrAvail == 0 ==> core in s.online && core !in s.avail && Preemptable(s, core)
    ensures core < |s.hist|
    ensures var r := AddOn(s, p, core);
            && r.Done? && Inv(r.state) && r.woken.Some? && r.woken == PickThreadForProc(s, p, core).thread
            && r.woken.value.p == p && AddedCore(s, r.state, r.woken.value, core)
  {
    PickedState(s, p, core);
    ClientThread(s, p, core);
    if s.nrAvail > 0 {
      IdleCore(s, core);
      AddOnIdle(s, p, core);
    } else {
      AddOnBusy(s, p, core);
    }
  }

  lemma ClientThread(s: State, p: nat, core: nat)
    requires ProcsOk(s) && p in s.procs && core < |s.hist|
    ensures var r := PickThreadForProc(s, p, core); r.thread.Some? ==> r.thread.value.p == p
  {
    assert ProcOk(s.procs[p]);
    PickedThread(s, p, core);
  }

  lemma IdleCount(s: State, p: nat)
    requires ProcsOk(s) && p in s.procs
    ensures |s.procs[p].active| + |s.procs[p].idle| == |s.procs[p].threads|
  {
    IdleExists(s.procs[p]);
  }

  lemma AddCoreForm(s: State, p: nat, core: nat)
    requires p in s.procs && |s.procs[p].active| != |s.procs[p].threads|
    requires PickCoreForProc(s, p) == Some(core) && core < |s.hist|
    ensures AddCore(s, p) == AddOn(s, p, core)
  {
  }

  lemma PickCoreUsable(s: State, p: nat)
    requires Inv(s) && p in s.clients && |s.procs[p].active| < |s.procs[p].threads|
    requires |s.procs[p].active| < s.procs[p].guaranteed || s.nrAvail > 0
    ensures PickCoreForProc(s, p).Some?
    ensures var core := PickCoreForProc(s, p).value;
            && (s.nrAvail > 0 ==> core in s.avail)
            && (s.nrAvail == 0 ==> core in s.online && core !in s.avail && Preemptable(s, core))
  {
    PickCoreExact(s, p);
    PickCoreSucceeds(s, p);
  }

  /**
   * cores_add_core never reaches a BUG for a client below its guarantee or while a core is idle. It
   * takes an idle core if there is one; only when there is none does it preempt, and then only a
   * core of a bursting process that nobody else is preempting.
   */
  lemma AddCoreSafe(s: State, p: nat)
    requires Inv(s) && p in s.clients
    requires |s.procs[p].active| < s.procs[p].guaranteed || s.nrAvail > 0
    ensures var r := AddCore(s, p);
            && r.Done? && Inv(r.state)
            && (r.woken.None? <==> |s.procs[p].active| == |s.procs[p].threads|)
            && (r.woken.None? ==> r.state == s)
            && (r.woken.Some? ==> Extended(s, p, r))
  {
    IdleCount(s, p);
    if |s.procs[p].active| < |s.procs[p].threads| {
      PickCoreUsable(s, p);
      var core := PickCoreForProc(s, p).value;
      AddCoreAt(s, p, core);
      AddCoreForm(s, p, core);
    }
  }
}
