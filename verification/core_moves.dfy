/**
 * The five ways a core changes hands, each shown to keep the base invariant: dropping a core's
 * history, ceding a core, granting an idle core, handing a core to its preemptor, and preempting.
 */
module CoreMoves {
  import opened Collections
  import opened CoreState
  import opened CoreInvariant

  lemma {:induction false} SumFrame(a: map<nat, Proc>, b: map<nat, Proc>, clients: seq<nat>)
    requires forall p :: p in clients ==> p in a && p in b && a[p].guaranteed == b[p].guaranteed
    ensures SumGuaranteed(a, clients) == SumGuaranteed(b, clients)
  {
    if clients != [] {
      SumFrame(a, b, clients[1..]);
    }
  }

  /** Replacing one process record keeps the per-process and client-table conjuncts. */
  lemma ReplaceProc(s: State, s': State, dying: set<nat>, p: nat)
    requires ProcsOk(s) && ClientsOk(s, dying) && AdmittedOk(s) && ReleasedOk(s)
    requires p in s.procs && p in s'.procs && s'.procs == s.procs[p := s'.procs[p]]
    requires s'.online == s.online && s'.clients == s.clients && s'.released == s.released
    requires ProcOk(s'.procs[p])
    requires forall k :: 0 <= k < |s'.procs[p].threads| ==> s'.procs[p].threads[k].core in s.online
    requires s'.procs[p].kill == s.procs[p].kill && s'.procs[p].guaranteed == s.procs[p].guaranteed
    requires s.procs[p].kill && p !in dying ==> s'.procs[p].active == []
    ensures ProcsOk(s') && ClientsOk(s', dying) && AdmittedOk(s') && ReleasedOk(s')
  {
    SumFrame(s.procs, s'.procs, s.clients);
  }

  /* Forgetting the previous owner of a core. */

  function ForgetPrev(s: State, core: nat): State
    requires core < |s.hist|
    requires s.hist[core].prev.Some? ==> s.hist[core].prev.value.p in s.procs
  {
    DropPrev(s, core).(hist := s.hist[core := s.hist[core].(prev := None)])
  }

  lemma ForgetPrevSets(s: State, core: nat)
    requires HistOk(s) && core < |s.hist| && s.hist[core].prev.Some?
    ensures var s' := ForgetPrev(s, core); var p := s.hist[core].prev.value.p;
            && core in PrevSet(s, p)
            && PrevSet(s', p) == PrevSet(s, p) - {core}
            && |PrevSet(s', p)| == |PrevSet(s, p)| - 1
            && (forall q :: q != p ==> PrevSet(s', q) == PrevSet(s, q))
            && (forall q :: CurSet(s', q) == CurSet(s, q))
            && (forall q :: PendSet(s', q) == PendSet(s, q))
            && (forall q :: PreemptedSet(s', q) == PreemptedSet(s, q))
            && (forall q :: PollSet(s', q) == PollSet(s, q))
  {
  }

  /** Nothing names process p except the history slot being dropped. */
  ghost predicate Unreferenced(s: State, dying: set<nat>, p: nat, core: nat) {
    && p !in s.clients && p !in dying && p !in s.overloaded && p !in s.bursting
    && CurSet(s, p) == {} && PollSet(s, p) == {} && PendSet(s, p) == {} && PrevSet(s, p) == {core}
  }

  /** The last reference to a process is dropped only when nothing names it any more. */
  lemma LastReference(s: State, dying: set<nat>, core: nat)
    requires Base(s, dying) && core < |s.hist| && s.hist[core].prev.Some?
    ensures var p := s.hist[core].prev.value.p;
            s.procs[p].refs == 1 ==> Unreferenced(s, dying, p, core)
  {
    var p := s.hist[core].prev.value.p;
    if s.procs[p].refs == 1 {
      assert core in PrevSet(s, p);
      SubsetCount({core}, PrevSet(s, p));
      assert Refs(s, dying, p) == 1;
      assert |PrevSet(s, p) - {core}| == 0;
      assert PrevSet(s, p) == {core};
      assert forall c :: c in PendSet(s, p) ==> s.hist[c].next.value in PollSet(s, p);
    }
  }

  ghost predicate Droppable(s: State, dying: set<nat>, core: nat) {
    && core < |s.hist| && s.hist[core].prev.Some? && Named(s, s.hist[core].prev.value)
    && (s.procs[s.hist[core].prev.value.p].refs == 1 ==> Unreferenced(s, dying, s.hist[core].prev.value.p, core))
  }

  lemma ForgetPrevUnparked(s: State, dying: set<nat>, core: nat)
    requires Droppable(s, dying, core) && PolledOk(s)
    ensures forall t :: Unparked(ForgetPrev(s, core), t) <==> Unparked(s, t)
  {
    forall t | Unparked(s, t)
      ensures Unparked(ForgetPrev(s, core), t)
    {
      assert t in PollSet(s, t.p);
    }
  }

  lemma ForgetPrevHist(s: State, dying: set<nat>, core: nat)
    requires Droppable(s, dying, core) && HistOk(s)
    ensures HistOk(ForgetPrev(s, core))
  {
    var s' := ForgetPrev(s, core);
    forall c | 0 <= c < |s'.hist|
      ensures s'.hist[c].current.Some? ==> Named(s', s'.hist[c].current.value)
      ensures s'.hist[c].prev.Some? ==> Named(s', s'.hist[c].prev.value)
    {
      if s.hist[c].current.Some? { assert c in CurSet(s, s.hist[c].current.value.p); }
      if s.hist[c].prev.Some? { assert c in PrevSet(s, s.hist[c].prev.value.p); }
    }
  }

  lemma ForgetPrevOwn(s: State, dying: set<nat>, core: nat)
    requires Droppable(s, dying, core) && OwnOk(s) && PolledOk(s)
    ensures OwnOk(ForgetPrev(s, core)) && PolledOk(ForgetPrev(s, core))
  {
    ForgetPrevUnparked(s, dying, core);
  }

  /** A released process leaves the table and joins the released ones. */
  lemma ReleaseProc(s: State, s': State, dying: set<nat>, p: nat)
    requires ProcsOk(s) && ClientsOk(s, dying) && AdmittedOk(s) && ReleasedOk(s)
    requires p in s.procs && p !in s.clients && p !in dying && s'.procs == s.procs - {p}
    requires s'.online == s.online && s'.clients == s.clients && s'.released == s.released + [p]
    ensures ProcsOk(s') && ClientsOk(s', dying) && AdmittedOk(s') && ReleasedOk(s')
  {
    SumFrame(s.procs, s'.procs, s.clients);
  }

  lemma ForgetPrevProcs(s: State, dying: set<nat>, core: nat)
    requires Droppable(s, dying, core) && ProcsOk(s) && ClientsOk(s, dying) && ReleasedOk(s) && AdmittedOk(s)
    ensures var s' := ForgetPrev(s, core); ProcsOk(s') && ClientsOk(s', dying) && ReleasedOk(s') && AdmittedOk(s')
  {
    var p := s.hist[core].prev.value.p;
    if s.procs[p].refs == 1 {
      ReleaseProc(s, ForgetPrev(s, core), dying, p);
    } else {
      ReplaceProc(s, ForgetPrev(s, core), dying, p);
    }
  }

  lemma ForgetPrevFlags(s: State, dying: set<nat>, core: nat)
    requires Droppable(s, dying, core) && FlagsOk(s)
    ensures FlagsOk(ForgetPrev(s, core))
  {
  }

  lemma ForgetPrevCounts(s: State, dying: set<nat>, core: nat)
    requires Droppable(s, dying, core) && HistOk(s) && InflightOk(s) && RefsOk(s, dying) && PendOk(s)
    ensures var s' := ForgetPrev(s, core); InflightOk(s') && RefsOk(s', dying) && PendOk(s')
  {
    ForgetPrevSets(s, core);
  }

  lemma ForgetPrevBase(s: State, dying: set<nat>, core: nat)
    requires Base(s, dying) && core < |s.hist|
    ensures Base(ForgetPrev(s, core), dying)
  {
    if s.hist[core].prev.Some? {
      LastReference(s, dying, core);
      ForgetPrevHist(s, dying, core);
      ForgetPrevOwn(s, dying, core);
      ForgetPrevProcs(s, dying, core);
      ForgetPrevFlags(s, dying, core);
      ForgetPrevCounts(s, dying, core);
    } else {
      assert ForgetPrev(s, core) == s;
    }
  }

  /* Ceding: the running thread parks and its core becomes idle. */

  function Cede(s: State, t: Tid): State
    requires Named(s, t) && Movable(s.procs[t.p], t.k)
    requires t in s.tsIdx ==> s.tsIdx[t] < |s.ts|
  {
    ThreadCede(CoreCede(s, Th(s, t).core), t)
  }

  /** t is the thread running on its core. */
  ghost predicate Running(s: State, t: Tid) {
    && Unparked(s, t)
    && var c := Th(s, t).core;
       c < |s.hist| && Busy(s, c) && s.hist[c].current == Some(t)
  }

  /** A running thread's process is named by at least its core and its polling slot. */
  lemma CedeDefined(s: State, dying: set<nat>, t: Tid)
    requires HistOk(s) && ProcsOk(s) && PolledOk(s) && RefsOk(s, dying) && Running(s, t)
    ensures Movable(s.procs[t.p], t.k)
    ensures t in s.tsIdx && s.tsIdx[t] < |s.ts|
    ensures s.procs[t.p].refs >= 2
  {
    DeactivateOk(s.procs[t.p], t.k);
    var c := Th(s, t).core;
    assert c in CurSet(s, t.p);
    assert t in PollSet(s, t.p);
    SubsetCount({c}, CurSet(s, t.p));
    SubsetCount({t}, PollSet(s, t.p));
  }

  ghost predicate Cedable(s: State, t: Tid) {
    && Running(s, t)
    && Movable(s.procs[t.p], t.k)
    && t in s.tsIdx && s.tsIdx[t] < |s.ts|
    && s.procs[t.p].refs >= 2
  }

  /** Thread t alone changes between parked and unparked; the other threads keep state and core. */
  ghost predicate OnlyChanged(s: State, s': State, t: Tid) {
    && Named(s, t)
    && (forall u :: Named(s', u) <==> Named(s, u))
    && (forall u :: Named(s, u) && u != t ==>
          Th(s', u).parked == Th(s, u).parked && Th(s', u).core == Th(s, u).core)
  }

  /** What ceding does, field by field. */
  ghost predicate CedeRel(s: State, s': State, t: Tid) {
    && Cedable(s, t)
    && var pr := s.procs[t.p]; var i := s.tsIdx[t]; var last := s.ts[|s.ts| - 1];
    && s'.procs == s.procs[t.p := Deactivate(pr, t.k).(
                     bursting := pr.bursting && |pr.active| - 1 != pr.guaranteed, refs := pr.refs - 1)]
    && s'.hist == s.hist && s'.online == s.online && s'.cpus == s.cpus && s'.clients == s.clients
    && s'.released == s.released && s'.overloaded == s.overloaded
    && s'.bursting == (if pr.bursting && |pr.active| - 1 == pr.guaranteed then Without(s.bursting, t.p) else s.bursting)
    && s'.avail == s.avail + {Th(s, t).core} && s'.nrAvail == s.nrAvail + 1
    && s'.ts == s.ts[i := last][..|s.ts| - 1]
    && s'.tsIdx == s.tsIdx[last := i] - {t}
  }

  lemma CedeForm(s: State, t: Tid)
    requires Cedable(s, t)
    ensures CedeRel(s, Cede(s, t), t)
  {
  }

  lemma CedeThreads(s: State, s': State, t: Tid)
    requires CedeRel(s, s', t) && ProcOk(s.procs[t.p])
    ensures OnlyChanged(s, s', t) && Th(s', t).parked && Th(s', t).core == Th(s, t).core
    ensures ProcOk(s'.procs[t.p])
  {
    DeactivateOk(s.procs[t.p], t.k);
  }

  lemma CedePolled(s: State, s': State, t: Tid)
    requires PolledOk(s) && t in s.tsIdx && s.tsIdx[t] < |s.ts|
    requires s'.ts == s.ts[s.tsIdx[t] := s.ts[|s.ts| - 1]][..|s.ts| - 1]
    requires s'.tsIdx == s.tsIdx[s.ts[|s.ts| - 1] := s.tsIdx[t]] - {t}
    requires OnlyChanged(s, s', t) && Th(s', t).parked
    ensures PolledOk(s')
  {
    forall u
      ensures u in s'.tsIdx <==> Unparked(s', u)
    {
      assert Named(s', u) <==> Named(s, u);
      assert u in s.tsIdx <==> Unparked(s, u);
    }
  }

  lemma CedeOwn(s: State, s': State, t: Tid)
    requires ShapeOk(s) && HistOk(s) && OwnOk(s) && Running(s, t)
    requires OnlyChanged(s, s', t) && Th(s', t).parked
    requires s'.hist == s.hist && s'.online == s.online && s'.cpus == s.cpus
    requires s'.avail == s.avail + {Th(s, t).core} && s'.nrAvail == s.nrAvail + 1
    ensures ShapeOk(s') && HistOk(s') && OwnOk(s')
  {
    forall u | Unparked(s', u)
      ensures Placed(s', u)
    {
      assert Named(s, u);
      assert Placed(s, u);
    }
  }

  lemma CedeFlags(s: State, s': State, t: Tid)
    requires CedeRel(s, s', t) && FlagsOk(s)
    ensures FlagsOk(s')
  {
    WithoutElements(s.bursting, t.p);
    assert |s'.procs[t.p].active| == |s.procs[t.p].active| - 1;
  }

  lemma CedeCounts(s: State, s': State, dying: set<nat>, t: Tid)
    requires CedeRel(s, s', t) && InflightOk(s) && RefsOk(s, dying) && PendOk(s)
    requires t in s.tsIdx && s.ts[|s.ts| - 1] in s.tsIdx
    ensures InflightOk(s') && RefsOk(s', dying) && PendOk(s')
  {
    assert PollSet(s', t.p) == PollSet(s, t.p) - {t};
    assert forall q :: q != t.p ==> PollSet(s', q) == PollSet(s, q);
    assert forall q :: CurSet(s', q) == CurSet(s, q) && PrevSet(s', q) == PrevSet(s, q);
    assert forall q :: PendSet(s', q) == PendSet(s, q) && PreemptedSet(s', q) == PreemptedSet(s, q);
  }

  lemma CedeProcs(s: State, s': State, dying: set<nat>, t: Tid)
    requires CedeRel(s, s', t) && ProcsOk(s) && ClientsOk(s, dying) && AdmittedOk(s) && ReleasedOk(s)
    ensures ProcsOk(s') && ClientsOk(s', dying) && AdmittedOk(s') && ReleasedOk(s')
  {
    DeactivateOk(s.procs[t.p], t.k);
    assert s.procs[t.p].active != [];
    ReplaceProc(s, s', dying, t.p);
  }

  lemma CedeRelBase(s: State, s': State, dying: set<nat>, t: Tid)
    requires Base(s, dying) && CedeRel(s, s', t)
    ensures Base(s', dying)
  {
    CedeThreads(s, s', t);
    CedeOwn(s, s', t);
    CedePolled(s, s', t);
    CedeProcs(s, s', dying, t);
    CedeFlags(s, s', t);
    CedeCounts(s, s', dying, t);
  }

  lemma CedeBase(s: State, dying: set<nat>, t: Tid)
    requires Base(s, dying) && Running(s, t)
    ensures Cedable(s, t) && Base(Cede(s, t), dying)
  {
    CedeDefined(s, dying, t);
    CedeForm(s, t);
    CedeRelBase(s, Cede(s, t), dying, t);
  }

  /* Granting: a parked thread is put on an idle core. */

  /** The process record after kthread k started running: refs grows by the references taken. */
  function Reserved(pr: Proc, k: nat, core: nat, refs: nat): Proc
    requires k < |pr.threads|
  {
    Activate(pr, k, core).(
      bursting := pr.bursting || |pr.active| + 1 > pr.guaranteed,
      overloaded := false,
      refs := pr.refs + refs)
  }

  ghost predicate Reservable(s: State, t: Tid, core: nat) {
    && core < |s.hist| && core in s.online
    && Named(s, t) && Th(s, t).parked && t !in s.tsIdx
    && !s.procs[t.p].kill
  }

  /** What reserving a thread does to the lists and to the polling array. */
  ghost predicate ReservedLists(s: State, s': State, t: Tid)
    requires Named(s, t)
  {
    var pr := s.procs[t.p];
    && s'.bursting == (if !pr.bursting && |pr.active| + 1 > pr.guaranteed then [t.p] + s.bursting else s.bursting)
    && s'.ts == s.ts + [t] && s'.tsIdx == s.tsIdx[t := |s.ts|]
    && s'.online == s.online && s'.cpus == s.cpus && s'.clients == s.clients && s'.released == s.released
  }

  lemma ReservePolled(s: State, s': State, t: Tid)
    requires PolledOk(s) && t !in s.tsIdx
    requires s'.ts == s.ts + [t] && s'.tsIdx == s.tsIdx[t := |s.ts|]
    requires OnlyChanged(s, s', t) && !Th(s', t).parked
    ensures PolledOk(s')
  {
    forall u
      ensures u in s'.tsIdx <==> Unparked(s', u)
    {
      assert Named(s', u) <==> Named(s, u);
      assert u in s.tsIdx <==> Unparked(s, u);
    }
  }

  function Grant(s: State, core: nat, t: Tid): State
    requires core < |s.hist| && Named(s, t)
    requires s.hist[core].prev.Some? ==> s.hist[core].prev.value.p in s.procs
    requires Named(DropPrev(s, core), t)
  {
    ThreadReserve(CoreReserve(s, core, t), t, core)
  }

  ghost predicate GrantRel(s: State, s': State, core: nat, t: Tid) {
    && Reservable(s, t, core) && core in s.avail && s.hist[core].prev.None? && s.hist[core].next.None?
    && s'.procs == s.procs[t.p := Reserved(s.procs[t.p], t.k, core, 2)]
    && s'.hist == s.hist[core := Core(Some(t), s.hist[core].current, None)]
    && s'.avail == s.avail - {core} && s'.nrAvail == s.nrAvail - 1
    && s'.overloaded == (if s.procs[t.p].overloaded then Without(s.overloaded, t.p) else s.overloaded)
    && ReservedLists(s, s', t)
  }

  lemma GrantForm(s: State, core: nat, t: Tid)
    requires Reservable(s, t, core) && core in s.avail && s.hist[core].prev.None? && s.hist[core].next.None?
    ensures GrantRel(s, Grant(s, core, t), core, t)
  {
  }

  lemma GrantThreads(s: State, s': State, core: nat, t: Tid)
    requires GrantRel(s, s', core, t) && ProcOk(s.procs[t.p])
    ensures OnlyChanged(s, s', t) && !Th(s', t).parked && Th(s', t).core == core
    ensures ProcOk(s'.procs[t.p])
  {
    ActivateOk(s.procs[t.p], t.k, core);
  }

  lemma GrantOwn(s: State, s': State, core: nat, t: Tid)
    requires ShapeOk(s) && HistOk(s) && OwnOk(s)
    requires core < |s.hist| && core in s.avail && s.hist[core].next.None? && Named(s, t) && Th(s, t).parked
    requires OnlyChanged(s, s', t) && !Th(s', t).parked && Th(s', t).core == core
    requires s'.hist == s.hist[core := Core(Some(t), s.hist[core].current, None)]
    requires s'.online == s.online && s'.cpus == s.cpus
    requires s'.avail == s.avail - {core} && s'.nrAvail == s.nrAvail - 1
    ensures ShapeOk(s') && HistOk(s') && OwnOk(s')
  {
    forall u | Unparked(s', u)
      ensures Placed(s', u)
    {
      assert Named(s, u);
      assert u != t ==> Placed(s, u);
    }
  }

  lemma GrantProcs(s: State, s': State, dying: set<nat>, core: nat, t: Tid)
    requires GrantRel(s, s', core, t) && ProcsOk(s) && ClientsOk(s, dying) && AdmittedOk(s) && ReleasedOk(s)
    ensures ProcsOk(s') && ClientsOk(s', dying) && AdmittedOk(s') && ReleasedOk(s')
  {
    ActivateOk(s.procs[t.p], t.k, core);
    ReplaceProc(s, s', dying, t.p);
  }

  lemma GrantFlags(s: State, s': State, core: nat, t: Tid)
    requires GrantRel(s, s', core, t) && FlagsOk(s)
    ensures FlagsOk(s')
  {
    WithoutElements(s.overloaded, t.p);
    assert forall q :: q in [t.p] + s.bursting <==> q == t.p || q in s.bursting;
  }

  lemma TakeOverCur(s: State, s': State, core: nat, t: Tid, q: nat)
    requires core < |s.hist| == |s'.hist| && s'.hist == s.hist[core := s'.hist[core]]
    requires s'.hist[core].current == Some(t)
    ensures CurSet(s', q) == if q == t.p then CurSet(s, q) + {core} else CurSet(s, q) - {core}
  {
    forall c
      ensures c in CurSet(s', q) <==> c in if q == t.p then CurSet(s, q) + {core} else CurSet(s, q) - {core}
    {
    }
  }

  lemma TakeOverPrev(s: State, s': State, core: nat, q: nat)
    requires core < |s.hist| == |s'.hist| && s'.hist == s.hist[core := s'.hist[core]] && s.hist[core].prev.None?
    requires s'.hist[core].prev == s.hist[core].current
    ensures PrevSet(s', q) == if core in CurSet(s, q) then PrevSet(s, q) + {core} else PrevSet(s, q)
    ensures core !in PrevSet(s, q)
  {
  }

  /** Current and previous slots of q together grow by one exactly when q takes the core over. */
  lemma TakeOverCount(s: State, s': State, core: nat, t: Tid, q: nat)
    requires core < |s.hist| == |s'.hist| && s'.hist == s.hist[core := s'.hist[core]] && s.hist[core].prev.None?
    requires s'.hist[core].current == Some(t) && s'.hist[core].prev == s.hist[core].current
    ensures |CurSet(s', q)| + |PrevSet(s', q)| == |CurSet(s, q)| + |PrevSet(s, q)| + (if q == t.p then 1 else 0)
  {
    TakeOverCur(s, s', core, t, q);
    TakeOverPrev(s, s', core, q);
    if core in CurSet(s, q) {
      assert CurSet(s, q) + {core} == CurSet(s, q);
    } else {
      assert CurSet(s, q) - {core} == CurSet(s, q);
    }
  }

  /** How the counted sets of process q move when t takes over an idle core. */
  lemma GrantSets(s: State, s': State, core: nat, t: Tid, q: nat)
    requires core < |s.hist| && s.hist[core].prev.None? && s.hist[core].next.None?
    requires s'.hist == s.hist[core := Core(Some(t), s.hist[core].current, None)]
    ensures |CurSet(s', q)| + |PrevSet(s', q)| == |CurSet(s, q)| + |PrevSet(s, q)| + (if q == t.p then 1 else 0)
    ensures PendSet(s', q) == PendSet(s, q) && PreemptedSet(s', q) == PreemptedSet(s, q)
  {
    TakeOverCount(s, s', core, t, q);
    assert PendSet(s', q) == PendSet(s, q);
    assert PreemptedSet(s', q) == PreemptedSet(s, q);
  }

  lemma ReservePollSet(s: State, s': State, t: Tid, q: nat)
    requires t !in s.tsIdx && s'.tsIdx == s.tsIdx[t := |s.ts|]
    ensures |PollSet(s', q)| == |PollSet(s, q)| + (if q == t.p then 1 else 0)
  {
    assert PollSet(s', q) == if q == t.p then PollSet(s, q) + {t} else PollSet(s, q);
  }

  lemma GrantCounts(s: State, s': State, dying: set<nat>, core: nat, t: Tid)
    requires GrantRel(s, s', core, t) && InflightOk(s) && RefsOk(s, dying) && PendOk(s)
    ensures InflightOk(s') && RefsOk(s', dying) && PendOk(s')
  {
    forall q | q in s'.procs
      ensures s'.procs[q].refs == Refs(s', dying, q) && s'.procs[q].refs > 0
      ensures s'.procs[q].inflight == |PreemptedSet(s', q)| && |PendSet(s', q)| <= s'.procs[q].guaranteed
    {
      GrantSets(s, s', core, t, q);
      ReservePollSet(s, s', t, q);
    }
  }

  lemma GrantRelBase(s: State, s': State, dying: set<nat>, core: nat, t: Tid)
    requires Base(s, dying) && GrantRel(s, s', core, t)
    ensures Base(s', dying)
  {
    GrantThreads(s, s', core, t);
    GrantOwn(s, s', core, t);
    ReservePolled(s, s', t);
    GrantProcs(s, s', dying, core, t);
    GrantFlags(s, s', core, t);
    GrantCounts(s, s', dying, core, t);
  }

  lemma CoreReserveForgets(s: State, core: nat, t: Tid)
    requires core < |s.hist|
    requires s.hist[core].prev.Some? ==> s.hist[core].prev.value.p in s.procs
    requires t.p in DropPrev(s, core).procs
    ensures CoreReserve(ForgetPrev(s, core), core, t) == CoreReserve(s, core, t)
  {
  }

  /** A process in the client table survives the dropping of any history slot. */
  lemma ClientSurvives(s: State, dying: set<nat>, core: nat, p: nat)
    requires Base(s, dying) && core < |s.hist| && p in s.procs && (p in s.clients || p in dying)
    ensures p in ForgetPrev(s, core).procs
    ensures ForgetPrev(s, core).procs[p] == s.procs[p].(refs := ForgetPrev(s, core).procs[p].refs)
  {
    if s.hist[core].prev.Some? {
      LastReference(s, dying, core);
    }
  }

  lemma ClientReservable(s: State, dying: set<nat>, core: nat, t: Tid)
    requires ShapeOk(s) && PolledOk(s) && ClientsOk(s, dying) && core in s.avail
    requires Named(s, t) && Th(s, t).parked && t.p in s.clients
    ensures Reservable(s, t, core)
  {
  }

  lemma GrantBaseClean(s: State, dying: set<nat>, core: nat, t: Tid)
    requires Base(s, dying) && core in s.avail && s.hist[core].next.None? && s.hist[core].prev.None?
    requires Named(s, t) && Th(s, t).parked && t.p in s.clients
    ensures Base(Grant(s, core, t), dying) && GrantRel(s, Grant(s, core, t), core, t)
  {
    ClientReservable(s, dying, core, t);
    GrantForm(s, core, t);
    GrantRelBase(s, Grant(s, core, t), dying, core, t);
  }

  /** Granting an idle core to a parked thread of a client keeps the base invariant. */
  lemma GrantBase(s: State, dying: set<nat>, core: nat, t: Tid)
    requires Base(s, dying) && core in s.avail && s.hist[core].next.None?
    requires Named(s, t) && Th(s, t).parked && t.p in s.clients
    ensures core < |s.hist| && Named(DropPrev(s, core), t)
    ensures Base(Grant(s, core, t), dying)
    ensures GrantRel(ForgetPrev(s, core), Grant(s, core, t), core, t)
  {
    ClientSurvives(s, dying, core, t.p);
    ForgetPrevBase(s, dying, core);
    CoreReserveForgets(s, core, t);
    GrantBaseClean(ForgetPrev(s, core), dying, core, t);
  }

  /* Handing over: the waiting preemptor takes the core its victim just left. */

  function HandOver(s: State, core: nat): State
    requires core < |s.hist| && s.hist[core].current.Some? && s.hist[core].next.Some?
    requires s.hist[core].current.value.p in s.procs
    requires s.hist[core].prev.Some? ==> s.hist[core].prev.value.p in s.procs
    requires s.hist[core].next.value.p in DropPrev(s, core).procs
  {
    var v := s.hist[core].current.value.p;
    CoreReserve(WithProc(s, v, s.procs[v].(inflight := s.procs[v].inflight - 1)), core, s.hist[core].next.value)
  }

  ghost predicate HandOverRel(s: State, s': State, core: nat) {
    && core < |s.hist| && s.hist[core].current.Some? && s.hist[core].next.Some? && s.hist[core].prev.None?
    && core in s.avail
    && var v := s.hist[core].current.value.p; var t := s.hist[core].next.value;
    && v in s.procs && t.p in s.procs
    && var m := s.procs[v := s.procs[v].(inflight := s.procs[v].inflight - 1)];
    && s' == s.(
         procs := m[t.p := m[t.p].(refs := m[t.p].refs + 1)],
         hist := s.hist[core := Core(Some(t), s.hist[core].current, None)],
         avail := s.avail - {core},
         nrAvail := s.nrAvail - 1)
  }

  /** Only reference and in-flight counters differ. */
  ghost predicate SameProcs(s: State, s': State) {
    && s'.procs.Keys == s.procs.Keys
    && (forall q :: q in s.procs ==>
          s'.procs[q] == s.procs[q].(refs := s'.procs[q].refs, inflight := s'.procs[q].inflight))
  }

  lemma SameThreads(s: State, s': State)
    requires SameProcs(s, s')
    ensures forall u :: Named(s', u) <==> Named(s, u)
    ensures forall u :: Named(s, u) ==> Th(s', u) == Th(s, u)
    ensures forall u :: Unparked(s', u) <==> Unparked(s, u)
  {
  }

  lemma CounterUpdate(a: map<nat, Proc>, b: map<nat, Proc>, p: nat)
    requires p in a && p in b && b == a[p := b[p]] && b[p] == a[p].(refs := b[p].refs, inflight := b[p].inflight)
    ensures b.Keys == a.Keys
    ensures forall q :: q in a ==> b[q] == a[q].(refs := b[q].refs, inflight := b[q].inflight)
  {
  }

  lemma HandOverSame(s: State, s': State, core: nat)
    requires HandOverRel(s, s', core)
    ensures SameProcs(s, s')
  {
    var v := s.hist[core].current.value.p;
    var p := s.hist[core].next.value.p;
    var m := s.procs[v := s.procs[v].(inflight := s.procs[v].inflight - 1)];
    CounterUpdate(s.procs, m, v);
    CounterUpdate(m, s'.procs, p);
  }

  lemma HandOverOwn(s: State, s': State, core: nat)
    requires SameProcs(s, s') && ShapeOk(s) && HistOk(s) && OwnOk(s)
    requires core < |s.hist| && core in s.avail && s.hist[core].next.Some? && s.hist[core].prev.None?
    requires s'.hist == s.hist[core := Core(s.hist[core].next, s.hist[core].current, None)]
    requires s'.online == s.online && s'.cpus == s.cpus
    requires s'.avail == s.avail - {core} && s'.nrAvail == s.nrAvail - 1
    ensures ShapeOk(s') && HistOk(s') && OwnOk(s')
  {
    SameThreads(s, s');
    forall u | Unparked(s', u)
      ensures Placed(s', u)
    {
      assert Placed(s, u);
    }
  }

  lemma HandOverPolled(s: State, s': State)
    requires SameProcs(s, s') && PolledOk(s) && s'.ts == s.ts && s'.tsIdx == s.tsIdx
    ensures PolledOk(s')
  {
    SameThreads(s, s');
  }

  lemma SameProcOk(pr: Proc, pr': Proc)
    requires ProcOk(pr) && pr' == pr.(refs := pr'.refs, inflight := pr'.inflight)
    ensures ProcOk(pr')
  {
  }

  lemma HandOverProcs(s: State, s': State, dying: set<nat>)
    requires SameProcs(s, s') && s'.online == s.online && s'.clients == s.clients && s'.released == s.released
    requires ProcsOk(s) && ClientsOk(s, dying) && AdmittedOk(s) && ReleasedOk(s)
    ensures ProcsOk(s') && ClientsOk(s', dying) && AdmittedOk(s') && ReleasedOk(s')
  {
    SumFrame(s.procs, s'.procs, s.clients);
    forall q | q in s'.procs
      ensures ProcOk(s'.procs[q])
    {
      SameProcOk(s.procs[q], s'.procs[q]);
    }
  }

  lemma HandOverFlags(s: State, s': State)
    requires SameProcs(s, s') && FlagsOk(s) && s'.overloaded == s.overloaded && s'.bursting == s.bursting
    ensures FlagsOk(s')
  {
  }

  lemma HandOverSets(s: State, s': State, core: nat, q: nat)
    requires HandOverRel(s, s', core)
    ensures |PreemptedSet(s', q)| == |PreemptedSet(s, q)| - (if q == s.hist[core].current.value.p then 1 else 0)
    ensures |PendSet(s', q)| <= |PendSet(s, q)|
    ensures PollSet(s', q) == PollSet(s, q)
  {
    assert PreemptedSet(s', q) == PreemptedSet(s, q) - {core};
    assert PendSet(s', q) == PendSet(s, q) - {core};
    SubsetCount(PendSet(s', q), PendSet(s, q));
  }

  lemma HandOverCounts(s: State, s': State, dying: set<nat>, core: nat)
    requires HandOverRel(s, s', core) && InflightOk(s) && RefsOk(s, dying) && PendOk(s)
    ensures InflightOk(s') && RefsOk(s', dying) && PendOk(s')
  {
    var t := s.hist[core].next.value;
    forall q | q in s'.procs
      ensures s'.procs[q].refs == Refs(s', dying, q) && s'.procs[q].refs > 0
      ensures s'.procs[q].inflight == |PreemptedSet(s', q)| && |PendSet(s', q)| <= s'.procs[q].guaranteed
    {
      HandOverSets(s, s', core, q);
      TakeOverCount(s, s', core, t, q);
    }
  }

  lemma HandOverRelBase(s: State, s': State, dying: set<nat>, core: nat)
    requires Base(s, dying) && HandOverRel(s, s', core)
    ensures Base(s', dying)
  {
    HandOverSame(s, s', core);
    HandOverOwn(s, s', core);
    HandOverPolled(s, s');
    HandOverProcs(s, s', dying);
    HandOverFlags(s, s');
    HandOverCounts(s, s', dying, core);
  }

  lemma HandOverForm(s: State, core: nat)
    requires core < |s.hist| && s.hist[core].current.Some? && s.hist[core].next.Some? && core in s.avail
    requires s.hist[core].current.value.p in s.procs && s.hist[core].next.value.p in s.procs
    requires s.hist[core].prev.None?
    ensures HandOverRel(s, HandOver(s, core), core)
  {
  }

  /** Dropping a reference and lowering an in-flight count commute. */
  lemma PutRefCommutes(s: State, v: nat, p: nat)
    requires v in s.procs && p in s.procs && v in PutRef(s, p).procs
    ensures var lowered := WithProc(s, v, s.procs[v].(inflight := s.procs[v].inflight - 1));
            var dropped := PutRef(s, p);
            PutRef(lowered, p) == WithProc(dropped, v, dropped.procs[v].(inflight := dropped.procs[v].inflight - 1))
  {
    var lv := s.procs[v].(inflight := s.procs[v].inflight - 1);
    if p == v {
      var d := s.procs[v].(refs := s.procs[v].refs - 1);
      assert s.procs[v := lv][v := lv.(refs := lv.refs - 1)] == s.procs[v := d][v := d.(inflight := d.inflight - 1)];
    } else if s.procs[p].refs == 1 {
      assert s.procs[v := lv] - {p} == (s.procs - {p})[v := lv];
    } else {
      var d := s.procs[p].(refs := s.procs[p].refs - 1);
      assert s.procs[v := lv][p := d] == s.procs[p := d][v := lv];
    }
  }

  /** Dropping the history slot first does not change what the hand-over produces. */
  lemma HandOverForgets(s: State, core: nat)
    requires core < |s.hist| && s.hist[core].current.Some? && s.hist[core].next.Some?
    requires s.hist[core].prev.Some? ==> s.hist[core].prev.value.p in s.procs
    requires s.hist[core].current.value.p in DropPrev(s, core).procs && s.hist[core].next.value.p in DropPrev(s, core).procs
    requires s.hist[core].current.value.p in s.procs
    ensures HandOver(ForgetPrev(s, core), core) == HandOver(s, core)
  {
    if s.hist[core].prev.Some? {
      PutRefCommutes(s, s.hist[core].current.value.p, s.hist[core].prev.value.p);
    }
  }

  /** Handing an idle core to its waiting preemptor keeps the base invariant. */
  lemma HandOverBase(s: State, dying: set<nat>, core: nat)
    requires Base(s, dying) && core in s.avail && s.hist[core].next.Some?
    requires s.hist[core].next.value.p in s.clients
    ensures core < |s.hist| && s.hist[core].current.Some? && s.hist[core].current.value.p in s.procs
    ensures s.hist[core].next.value.p in DropPrev(s, core).procs
    ensures Base(HandOver(s, core), dying)
    ensures HandOverRel(ForgetPrev(s, core), HandOver(s, core), core)
  {
    ClientSurvives(s, dying, core, s.hist[core].next.value.p);
    ForgetPrevBase(s, dying, core);
    var f := ForgetPrev(s, core);
    assert f.hist[core].current == s.hist[core].current && f.hist[core].next == s.hist[core].next;
    assert HistOk(f);
    HandOverForgets(s, core);
    HandOverForm(f, core);
    HandOverRelBase(f, HandOver(f, core), dying, core);
  }

  /* Preempting: a thread of a process below its guarantee starts waiting for a bursting process's core. */

  function Preempt(s: State, core: nat, t: Tid): State
    requires core < |s.hist| && Named(s, t)
    requires s.hist[core].current.Some? && s.hist[core].current.value.p in s.procs
  {
    var v := s.hist[core].current.value.p;
    var s1 := SetOverloaded(ThreadReserve(s, t, core), v);
    WithProc(s1, v, s1.procs[v].(inflight := s1.procs[v].inflight + 1))
      .(hist := s.hist[core := s.hist[core].(next := Some(t))])
  }

  lemma ReserveForm(s: State, t: Tid, core: nat)
    requires Reservable(s, t, core)
    ensures var s' := ThreadReserve(s, t, core);
            && s'.procs == s.procs[t.p := Reserved(s.procs[t.p], t.k, core, 1)]
            && s'.overloaded == (if s.procs[t.p].overloaded then Without(s.overloaded, t.p) else s.overloaded)
            && s'.avail == s.avail && s'.nrAvail == s.nrAvail && s'.hist == s.hist
            && ReservedLists(s, s', t)
  {
  }

  ghost predicate PreemptRel(s: State, s': State, core: nat, t: Tid) {
    && Reservable(s, t, core) && Busy(s, core) && s.hist[core].next.None? && s.hist[core].current.Some?
    && var pr := s.procs[t.p]; var v := s.hist[core].current.value.p;
    && v in s.procs && v != t.p
    && var prv := s.procs[v];
    && var waiting := if pr.overloaded then Without(s.overloaded, t.p) else s.overloaded;
    && s'.procs == s.procs[t.p := Reserved(pr, t.k, core, 1)][v := prv.(overloaded := true, inflight := prv.inflight + 1)]
    && s'.hist == s.hist[core := s.hist[core].(next := Some(t))]
    && s'.avail == s.avail && s'.nrAvail == s.nrAvail
    && s'.overloaded == (if prv.overloaded then waiting else [v] + waiting)
    && ReservedLists(s, s', t)
  }

  lemma PreemptForm(s: State, core: nat, t: Tid)
    requires Reservable(s, t, core) && Busy(s, core) && s.hist[core].next.None? && s.hist[core].current.Some?
    requires s.hist[core].current.value.p in s.procs && s.hist[core].current.value.p != t.p
    ensures PreemptRel(s, Preempt(s, core, t), core, t)
  {
    var s1 := ThreadReserve(s, t, core);
    var v := s.hist[core].current.value.p;
    assert s1.procs == s.procs[t.p := Reserved(s.procs[t.p], t.k, core, 1)] by {
      ReserveForm(s, t, core);
    }
    var s2 := SetOverloaded(s1, v);
    assert s2.procs == s1.procs[v := s1.procs[v].(overloaded := true)];
    var s3 := Preempt(s, core, t);
    assert s3.procs == s2.procs[v := s2.procs[v].(inflight := s2.procs[v].inflight + 1)];
    assert s3.procs == s1.procs[v := s1.procs[v].(overloaded := true, inflight := s1.procs[v].inflight + 1)];
    ReserveForm(s, t, core);
  }

  lemma PreemptThreads(s: State, s': State, core: nat, t: Tid)
    requires PreemptRel(s, s', core, t)
    ensures OnlyChanged(s, s', t) && !Th(s', t).parked && Th(s', t).core == core
  {
  }

  lemma PreemptOwn(s: State, s': State, core: nat, t: Tid)
    requires ShapeOk(s) && HistOk(s) && OwnOk(s)
    requires core < |s.hist| && Busy(s, core) && s.hist[core].next.None? && Named(s, t) && Th(s, t).parked
    requires OnlyChanged(s, s', t) && !Th(s', t).parked && Th(s', t).core == core
    requires s'.hist == s.hist[core := s.hist[core].(next := Some(t))]
    requires s'.online == s.online && s'.cpus == s.cpus && s'.avail == s.avail && s'.nrAvail == s.nrAvail
    ensures ShapeOk(s') && HistOk(s') && OwnOk(s')
  {
    forall u | Unparked(s', u)
      ensures Placed(s', u)
    {
      assert Named(s, u);
      assert u != t ==> Placed(s, u);
    }
  }

  lemma MarkedOk(pr: Proc)
    requires ProcOk(pr)
    ensures ProcOk(pr.(overloaded := true, inflight := pr.inflight + 1))
  {
  }

  lemma PreemptProcs(s: State, s': State, dying: set<nat>, core: nat, t: Tid)
    requires PreemptRel(s, s', core, t) && ProcsOk(s) && ClientsOk(s, dying) && AdmittedOk(s) && ReleasedOk(s)
    ensures ProcsOk(s') && ClientsOk(s', dying) && AdmittedOk(s') && ReleasedOk(s')
  {
    var v := s.hist[core].current.value.p;
    var m := s.(procs := s.procs[t.p := Reserved(s.procs[t.p], t.k, core, 1)]);
    ActivateOk(s.procs[t.p], t.k, core);
    ReplaceProc(s, m, dying, t.p);
    MarkedOk(s.procs[v]);
    ReplaceProc(m, s', dying, v);
  }

  /** The overloaded list loses the process that got its thread and gains the one that is preempted. */
  lemma OverloadedChanged(list: seq<nat>, p: nat, v: nat, hadP: bool, hadV: bool)
    requires Distinct(list) && p != v && (p in list <==> hadP) && (v in list <==> hadV)
    ensures var waiting := if hadP then Without(list, p) else list;
            var list' := if hadV then waiting else [v] + waiting;
            Distinct(list') && forall q :: q in list' <==> (q in list && q != p) || q == v
  {
    WithoutElements(list, p);
    var waiting := if hadP then Without(list, p) else list;
    if !hadV {
      DistinctCons(waiting, v);
    }
  }

  lemma PreemptFlagsOf(s: State, s': State, core: nat, t: Tid, q: nat)
    requires PreemptRel(s, s', core, t) && FlagsOk(s) && !s.procs[s.hist[core].current.value.p].kill && q in s'.procs
    requires forall r :: r in s'.overloaded <==> (r in s.overloaded && r != t.p) || r == s.hist[core].current.value.p
    ensures q in s'.overloaded <==> s'.procs[q].overloaded
    ensures q in s'.bursting <==> s'.procs[q].bursting
    ensures s'.procs[q].overloaded ==> !s'.procs[q].kill
    ensures s'.procs[q].bursting <==> !s'.procs[q].kill && |s'.procs[q].active| > s'.procs[q].guaranteed
  {
    assert q in [t.p] + s.bursting <==> q == t.p || q in s.bursting;
  }

  lemma PreemptFlags(s: State, s': State, core: nat, t: Tid)
    requires PreemptRel(s, s', core, t) && FlagsOk(s) && !s.procs[s.hist[core].current.value.p].kill
    ensures FlagsOk(s')
  {
    var v := s.hist[core].current.value.p;
    OverloadedChanged(s.overloaded, t.p, v, s.procs[t.p].overloaded, s.procs[v].overloaded);
    if !s.procs[t.p].bursting {
      DistinctCons(s.bursting, t.p);
    }
    forall q | q in s'.procs
      ensures q in s'.overloaded <==> s'.procs[q].overloaded
      ensures q in s'.bursting <==> s'.procs[q].bursting
      ensures s'.procs[q].overloaded ==> !s'.procs[q].kill
      ensures s'.procs[q].bursting <==> !s'.procs[q].kill && |s'.procs[q].active| > s'.procs[q].guaranteed
    {
      PreemptFlagsOf(s, s', core, t, q);
    }
  }

  lemma PreemptSets(s: State, s': State, core: nat, t: Tid, q: nat)
    requires core < |s.hist| && s.hist[core].next.None? && s.hist[core].current.Some?
    requires s'.hist == s.hist[core := s.hist[core].(next := Some(t))]
    ensures CurSet(s', q) == CurSet(s, q) && PrevSet(s', q) == PrevSet(s, q)
    ensures |PendSet(s', q)| == |PendSet(s, q)| + (if q == t.p then 1 else 0)
    ensures |PreemptedSet(s', q)| == |PreemptedSet(s, q)| + (if q == s.hist[core].current.value.p then 1 else 0)
  {
    assert PendSet(s', q) == if q == t.p then PendSet(s, q) + {core} else PendSet(s, q);
    assert PreemptedSet(s', q) == if q == s.hist[core].current.value.p then PreemptedSet(s, q) + {core} else PreemptedSet(s, q);
  }

  lemma PreemptCounts(s: State, s': State, dying: set<nat>, core: nat, t: Tid)
    requires PreemptRel(s, s', core, t) && InflightOk(s) && RefsOk(s, dying) && PendOk(s)
    requires |PendSet(s, t.p)| < s.procs[t.p].guaranteed
    ensures InflightOk(s') && RefsOk(s', dying) && PendOk(s')
  {
    forall q | q in s'.procs
      ensures s'.procs[q].refs == Refs(s', dying, q) && s'.procs[q].refs > 0
      ensures s'.procs[q].inflight == |PreemptedSet(s', q)| && |PendSet(s', q)| <= s'.procs[q].guaranteed
    {
      PreemptSets(s, s', core, t, q);
      ReservePollSet(s, s', t, q);
    }
  }

  /** The unparked threads of a process cover the cores it runs or waits on. */
  lemma OccupiedWithinActive(s: State, p: nat, cores: set<nat>)
    requires OwnOk(s) && ProcsOk(s) && p in s.procs
    requires forall c :: c in cores ==> c < |s.hist|
    requires forall c :: c in cores ==>
               || (s.hist[c].next.Some? && s.hist[c].next.value.p == p)
               || (Busy(s, c) && s.hist[c].current.Some? && s.hist[c].current.value.p == p)
    ensures |cores| <= |s.procs[p].active|
  {
    var pr := s.procs[p];
    var f := (i: nat) => if i < |pr.active| && pr.active[i] < |pr.threads| then pr.threads[pr.active[i]].core else 0;
    BelowElements(|pr.active|);
    forall c | c in cores
      ensures exists i :: i in Below(|pr.active|) && f(i) == c
    {
      var t := if s.hist[c].next.Some? && s.hist[c].next.value.p == p then s.hist[c].next.value else s.hist[c].current.value;
      assert Unparked(s, t) && Th(s, t).core == c;
      assert f(Th(s, t).atIdx) == c;
    }
    CoveredCount(cores, Below(|pr.active|), f);
  }

  lemma PreemptRelBase(s: State, s': State, dying: set<nat>, core: nat, t: Tid)
    requires Base(s, dying) && PreemptRel(s, s', core, t)
    requires |s.procs[t.p].active| < s.procs[t.p].guaranteed
    requires !s.procs[s.hist[core].current.value.p].kill
    ensures Base(s', dying)
  {
    OccupiedWithinActive(s, t.p, PendSet(s, t.p));
    PreemptThreads(s, s', core, t);
    PreemptOwn(s, s', core, t);
    ReservePolled(s, s', t);
    PreemptProcs(s, s', dying, core, t);
    PreemptFlags(s, s', core, t);
    PreemptCounts(s, s', dying, core, t);
  }

  /** Preempting a bursting process's core for a client below its guarantee keeps the base invariant. */
  lemma PreemptBase(s: State, dying: set<nat>, core: nat, t: Tid)
    requires Base(s, dying) && core < |s.hist| && Busy(s, core) && s.hist[core].next.None?
    requires s.hist[core].current.Some? && s.hist[core].current.value.p in s.procs
    requires s.procs[s.hist[core].current.value.p].bursting
    requires Named(s, t) && Th(s, t).parked && t.p in s.clients
    requires |s.procs[t.p].active| < s.procs[t.p].guaranteed
    ensures Base(Preempt(s, core, t), dying)
    ensures PreemptRel(s, Preempt(s, core, t), core, t)
  {
    var v := s.hist[core].current.value.p;
    assert !s.procs[v].kill && v != t.p;
    assert Reservable(s, t, core);
    PreemptForm(s, core, t);
    PreemptRelBase(s, Preempt(s, core, t), dying, core, t);
  }
}
