/** cores_park_kthread keeps the allocator's invariant, and what it leaves alone. */
module CorePark {
  import opened Collections
  import opened CoreState
  import opened CoreInvariant
  import opened CoreMoves
  import opened CoreSteps
  import opened CoreAdd

  /** Apart from one core's history entry, s' differs from s in nothing that a departing process p depends on. */
  ghost predicate Undisturbed(s: State, s': State, core: nat, p: nat) {
    && core < |s.hist| == |s'.hist|
    && s'.hist == s.hist[core := s'.hist[core]]
    && s'.clients == s.clients
    && p in s.procs && p in s'.procs
    && s'.procs[p].threads == s.procs[p].threads
    && (forall q :: q in s'.procs ==> q in s.procs && s'.procs[q].removed == s.procs[q].removed)
  }

  lemma UndisturbedTrans(a: State, b: State, c: State, core: nat, p: nat)
    requires Undisturbed(a, b, core, p) && Undisturbed(b, c, core, p)
    ensures Undisturbed(a, c, core, p)
  {
  }

  lemma ForgetUndisturbed(s: State, dying: set<nat>, core: nat, p: nat)
    requires Base(s, dying) && core < |s.hist| && p in s.procs && p in dying
    ensures Undisturbed(s, ForgetPrev(s, core), core, p)
  {
    ClientSurvives(s, dying, core, p);
    ForgetFrame(s, core, p);
  }

  lemma ForgetFrame(s: State, core: nat, p: nat)
    requires core < |s.hist| && (s.hist[core].prev.Some? ==> s.hist[core].prev.value.p in s.procs)
    requires p in s.procs && p in ForgetPrev(s, core).procs
    ensures Undisturbed(s, ForgetPrev(s, core), core, p)
  {
    var s' := ForgetPrev(s, core);
    assert s'.hist == s.hist[core := s'.hist[core]];
  }

  lemma HandOverUndisturbed(s: State, s': State, core: nat, p: nat)
    requires HandOverRel(s, s', core) && p in s.procs
    ensures Undisturbed(s, s', core, p)
  {
    HandOverSame(s, s', core);
  }

  lemma GrantUndisturbed(s: State, s': State, core: nat, t: Tid, p: nat)
    requires GrantRel(s, s', core, t) && p in s.procs && p != t.p
    ensures Undisturbed(s, s', core, p)
  {
  }

  lemma FlagUndisturbed(s: State, s': State, core: nat, q: nat, p: nat)
    requires FlagRel(s, s', q) && core < |s.hist| && p in s.procs && s'.procs[q].removed == s.procs[q].removed
    ensures Undisturbed(s, s', core, p)
  {
    assert s.hist[core := s.hist[core]] == s.hist;
  }

  /* Somebody waits for the core. */

  /** With a waiting preemptor that has not been removed, waking it is the hand-over. */
  lemma WakeWaiting(s: State, core: nat)
    requires core in s.avail && core < |s.hist| && s.hist[core].current.Some? && s.hist[core].next.Some?
    requires s.hist[core].current.value.p in s.procs
    requires s.hist[core].prev.Some? ==> s.hist[core].prev.value.p in s.procs
    requires Unparked(s, s.hist[core].next.value) && !s.procs[s.hist[core].next.value.p].removed
    requires s.hist[core].next.value.p in DropPrev(s, core).procs
    ensures var picked := PickThreadForCore(s, core);
            Resume(picked, core) == Done(HandOver(s, core), s.hist[core].next)
  {
    var v := s.hist[core].current.value.p;
    var t := s.hist[core].next.value;
    var m := WithProc(s, v, s.procs[v].(inflight := s.procs[v].inflight - 1));
    assert PickThreadForCore(s, core) == Picked(m, s.hist[core].next);
    DropKeepsThreads(m, core, t);
  }

  lemma DropKeepsThreads(s: State, core: nat, t: Tid)
    requires core < |s.hist| && (s.hist[core].prev.Some? ==> s.hist[core].prev.value.p in s.procs)
    requires Named(s, t) && t.p in DropPrev(s, core).procs
    ensures Named(DropPrev(s, core), t) && Th(DropPrev(s, core), t) == Th(s, t)
  {
  }

  lemma HandOverNoHole(s: State, s': State, core: nat)
    requires HandOverRel(s, s', core)
    requires forall c :: 0 <= c < |s.hist| && c != core && s.hist[c].next.Some? ==> Busy(s, c)
    ensures NoHole(s')
  {
  }

  /** Only the given core is idle with somebody waiting for it. */
  ghost predicate HoleAt(s: State, core: nat) {
    forall c :: 0 <= c < |s.hist| && c != core && s.hist[c].next.Some? ==> Busy(s, c)
  }

  /** Only the given core's history has changed. */
  ghost predicate ElsewhereSame(s: State, s': State, core: nat) {
    core < |s.hist| == |s'.hist| && forall c :: 0 <= c < |s.hist| && c != core ==> s'.hist[c] == s.hist[c]
  }

  /**
   * The core ended up idle or running somebody, with no one waiting; other cores' history and departing processes were
   * left alone.
   */
  ghost predicate Settled(s: State, r: Outcome, dying: set<nat>, core: nat) {
    && r.Done? && Base(r.state, dying) && NoHole(r.state)
    && ElsewhereSame(s, r.state, core) && r.state.hist[core].next.None?
    && (forall q :: q in dying ==> Undisturbed(s, r.state, core, q))
  }

  lemma ElsewhereTrans(a: State, b: State, c: State, core: nat)
    requires ElsewhereSame(a, b, core) && ElsewhereSame(b, c, core)
    ensures ElsewhereSame(a, c, core)
  {
  }

  lemma ForgetElsewhere(s: State, core: nat)
    requires core < |s.hist| && (s.hist[core].prev.Some? ==> s.hist[core].prev.value.p in s.procs)
    ensures ElsewhereSame(s, ForgetPrev(s, core), core)
  {
  }

  lemma HandOverElsewhere(s: State, s': State, core: nat)
    requires core < |s.hist| && (s.hist[core].prev.Some? ==> s.hist[core].prev.value.p in s.procs)
    requires HandOverRel(ForgetPrev(s, core), s', core)
    ensures ElsewhereSame(s, s', core) && s'.hist[core].next.None?
  {
    ForgetElsewhere(s, core);
    ElsewhereTrans(s, ForgetPrev(s, core), s', core);
  }

  lemma GrantElsewhere(s: State, s': State, core: nat, t: Tid)
    requires core < |s.hist| && (s.hist[core].prev.Some? ==> s.hist[core].prev.value.p in s.procs)
    requires GrantRel(ForgetPrev(s, core), s', core, t)
    ensures ElsewhereSame(s, s', core) && s'.hist[core].next.None?
  {
    ForgetElsewhere(s, core);
    ElsewhereTrans(s, ForgetPrev(s, core), s', core);
  }

  lemma HandOverQuiet(s: State, dying: set<nat>, core: nat, s': State)
    requires Base(s, dying) && core < |s.hist| && HandOverRel(ForgetPrev(s, core), s', core)
    ensures forall q :: q in dying ==> Undisturbed(s, s', core, q)
  {
    var f := ForgetPrev(s, core);
    DyingNamed(s, dying);
    forall p | p in dying
      ensures Undisturbed(s, s', core, p)
    {
      ForgetUndisturbed(s, dying, core, p);
      HandOverUndisturbed(f, s', core, p);
      UndisturbedTrans(s, f, s', core, p);
    }
  }

  lemma ForgetHoleAt(s: State, core: nat)
    requires HoleAt(s, core) && core < |s.hist| && (s.hist[core].prev.Some? ==> s.hist[core].prev.value.p in s.procs)
    ensures HoleAt(ForgetPrev(s, core), core)
  {
  }

  lemma WaiterReady(s: State, core: nat)
    requires HistOk(s) && OwnOk(s) && core < |s.hist| && s.hist[core].next.Some?
    ensures s.hist[core].current.Some? && s.hist[core].current.value.p in s.procs
    ensures s.hist[core].prev.Some? ==> s.hist[core].prev.value.p in s.procs
    ensures Unparked(s, s.hist[core].next.value)
  {
  }

  lemma HandOverSettles(s: State, dying: set<nat>, core: nat)
    requires Base(s, dying) && HoleAt(s, core) && core in s.avail && core < |s.hist| && s.hist[core].next.Some?
    requires s.hist[core].next.value.p in s.clients && !s.procs[s.hist[core].next.value.p].removed
    ensures Settled(s, Resume(PickThreadForCore(s, core), core), dying, core)
  {
    HandOverBase(s, dying, core);
    WaiterReady(s, core);
    WakeWaiting(s, core);
    var s' := HandOver(s, core);
    ForgetHoleAt(s, core);
    HandOverNoHole(ForgetPrev(s, core), s', core);
    HandOverQuiet(s, dying, core, s');
    HandOverElsewhere(s, s', core);
  }

  /* Nobody waits for the core. */

  /** The slot names a process that wants more cores and is not being removed. */
  ghost predicate Eager(s: State, slot: Option<Tid>) {
    slot.Some? && slot.value.p in s.procs && s.procs[slot.value.p].overloaded && !s.procs[slot.value.p].removed
  }

  /** Whom a core is offered to: its last occupant's process, or the one's before, if they want it; else the first in line. */
  ghost function Taker(s: State, core: nat): nat
    requires core < |s.hist| && s.overloaded != []
  {
    if Eager(s, s.hist[core].current) then s.hist[core].current.value.p
    else if Eager(s, s.hist[core].prev) then s.hist[core].prev.value.p
    else s.overloaded[0]
  }

  /** Nobody waits for the core: it is offered to the taker, a client, and to nobody only when no process wants more. */
  lemma OfferedToClient(s: State, core: nat)
    requires core < |s.hist| && s.hist[core].next.None? && FlagsOk(s)
    ensures s.overloaded == [] ==> PickThreadForCore(s, core) == Picked(s, None)
    ensures s.overloaded != [] ==>
              var q := Taker(s, core);
              && q in s.procs && s.procs[q].overloaded && !s.procs[q].kill
              && PickThreadForCore(s, core) == PickThreadForProc(s, q, core)
  {
    if s.overloaded != [] {
      assert s.overloaded[0] in s.overloaded;
    }
  }

  lemma OverloadedIsClient(s: State, dying: set<nat>, p: nat)
    requires ClientsOk(s, dying) && p in s.procs && !s.procs[p].kill
    ensures p in s.clients && p !in dying
  {
  }

  lemma OfferSettles(s: State, dying: set<nat>, core: nat, p: nat)
    requires Base(s, dying) && NoHole(s) && core in s.avail && core < |s.hist| && s.hist[core].next.None?
    requires p in s.procs && p in s.clients && p !in dying
    ensures Settled(s, Resume(PickThreadForProc(s, p, core), core), dying, core)
  {
    ClientProcOk(s, p);
    PickThreadExact(s, p, core);
    var picked := PickThreadForProc(s, p, core);
    PlainFlagInv(s, picked.state, dying, p);
    FlagsQuiet(s, picked.state, dying, core, p);
    if picked.thread.Some? {
      OfferWoken(s, picked.state, dying, core, picked.thread.value);
    }
  }

  lemma FlagsQuiet(s: State, s': State, dying: set<nat>, core: nat, p: nat)
    requires ClientsOk(s, dying) && FlagRel(s, s', p) && core < |s.hist|
    requires s'.procs[p].removed == s.procs[p].removed
    ensures forall q :: q in dying ==> Undisturbed(s, s', core, q)
  {
    forall q | q in dying
      ensures Undisturbed(s, s', core, q)
    {
      FlagUndisturbed(s, s', core, p, q);
    }
  }

  lemma ClientProcOk(s: State, p: nat)
    requires ProcsOk(s) && p in s.procs
    ensures ProcOk(s.procs[p])
  {
  }

  lemma DyingNamed(s: State, dying: set<nat>)
    requires ClientsOk(s, dying)
    ensures forall q :: q in dying ==> q in s.procs && q !in s.clients
  {
  }

  lemma GrantQuiet(s: State, dying: set<nat>, core: nat, t: Tid, s': State)
    requires Base(s, dying) && core < |s.hist| && GrantRel(ForgetPrev(s, core), s', core, t) && t.p in s.clients
    ensures forall q :: q in dying ==> Undisturbed(s, s', core, q)
  {
    var f := ForgetPrev(s, core);
    DyingNamed(s, dying);
    forall q | q in dying
      ensures Undisturbed(s, s', core, q)
    {
      ForgetUndisturbed(s, dying, core, q);
      GrantUndisturbed(f, s', core, t, q);
      UndisturbedTrans(s, f, s', core, q);
    }
  }

  lemma OfferWoken(s: State, m: State, dying: set<nat>, core: nat, t: Tid)
    requires Base(m, dying) && NoHole(m) && core in m.avail && core < |m.hist| && m.hist[core].next.None?
    requires Named(m, t) && Th(m, t).parked && t.p in m.clients
    requires ElsewhereSame(s, m, core) && forall q :: q in dying ==> Undisturbed(s, m, core, q)
    ensures Settled(s, WakeOnCore(m, core, t), dying, core)
  {
    WakeParkedInv(m, dying, core, t);
    WakeParked(m, dying, core, t);
    var s' := Grant(m, core, t);
    GrantQuiet(m, dying, core, t, s');
    GrantElsewhere(m, s', core, t);
    ElsewhereTrans(s, m, s', core);
    forall q | q in dying
      ensures Undisturbed(s, s', core, q)
    {
      UndisturbedTrans(s, m, s', core, q);
    }
  }

  lemma NobodySettles(s: State, dying: set<nat>, core: nat)
    requires Base(s, dying) && NoHole(s) && core in s.avail && core < |s.hist| && s.hist[core].next.None?
    ensures Settled(s, Resume(PickThreadForCore(s, core), core), dying, core)
  {
    OfferedToClient(s, core);
    if s.overloaded == [] {
      DyingNamed(s, dying);
      assert s.hist[core := s.hist[core]] == s.hist;
    } else {
      OverloadedIsClient(s, dying, Taker(s, core));
      OfferSettles(s, dying, core, Taker(s, core));
    }
  }

  /** The core runs r's woken thread, or is idle when there is none. */
  ghost predicate Ends(s: State, r: Outcome, core: nat) {
    && r.Done? && core < |r.state.hist|
    && (r.woken.Some? ==> r.state.hist[core].current == r.woken && r.state.avail == s.avail - {core})
    && (r.woken.None? ==> r.state.hist == s.hist && r.state.avail == s.avail)
  }

  /** The offer is taken exactly when the taker has a kthread to spare, by the kthread PickThreadExact describes. */
  lemma NobodyPasses(s: State, dying: set<nat>, core: nat)
    requires Base(s, dying) && core in s.avail && core < |s.hist| && s.hist[core].next.None?
    ensures var r := Resume(PickThreadForCore(s, core), core);
            && Ends(s, r, core)
            && (s.overloaded == [] ==> r.woken.None?)
            && (s.overloaded != [] ==>
                  var q := Taker(s, core);
                  && q in s.procs && r.woken == PickThreadForProc(s, q, core).thread
                  && (r.woken.Some? <==> s.procs[q].idle != []) && (r.woken.Some? ==> r.woken.value.p == q))
  {
    OfferedToClient(s, core);
    if s.overloaded != [] {
      var q := Taker(s, core);
      OverloadedIsClient(s, dying, q);
      TakerWoken(s, dying, core, q);
    }
  }

  lemma TakerWoken(s: State, dying: set<nat>, core: nat, q: nat)
    requires Base(s, dying) && core in s.avail && core < |s.hist| && s.hist[core].next.None?
    requires q in s.procs && q in s.clients
    ensures var picked := PickThreadForProc(s, q, core);
            var r := Resume(picked, core);
            && Ends(s, r, core) && r.woken == picked.thread
            && (r.woken.Some? <==> s.procs[q].idle != []) && (r.woken.Some? ==> r.woken.value.p == q)
  {
    ClientProcOk(s, q);
    PickThreadExact(s, q, core);
    var picked := PickThreadForProc(s, q, core);
    PickedBase(s, picked.state, dying, q);
    if picked.thread.Some? {
      WakeParked(picked.state, dying, core, picked.thread.value);
    }
  }

  lemma PickedBase(s: State, s': State, dying: set<nat>, p: nat)
    requires Base(s, dying) && FlagRel(s, s', p)
    requires s'.overloaded == s.overloaded && s'.procs[p].overloaded == s.procs[p].overloaded
    ensures Base(s', dying)
  {
    PlainFlags(s, s', p);
    FlagBase(s, s', dying, p);
  }

  /** A waiter that stays gets the core. */
  lemma WaiterPasses(s: State, dying: set<nat>, core: nat)
    requires Base(s, dying) && core in s.avail && core < |s.hist| && s.hist[core].next.Some?
    requires s.hist[core].next.value.p in s.clients && !s.procs[s.hist[core].next.value.p].removed
    ensures var r := Resume(PickThreadForCore(s, core), core); Ends(s, r, core) && r.woken == s.hist[core].next
  {
    HandOverBase(s, dying, core);
    WaiterReady(s, core);
    WakeWaiting(s, core);
  }

  /* The whole of cores_park_kthread. */

  /** After ceding, only the ceded core can have an idle core with a waiter. */
  lemma CedeHole(s: State, s': State, t: Tid)
    requires CedeRel(s, s', t) && NoHole(s)
    ensures HoleAt(s', Th(s, t).core) && Th(s, t).core in s'.avail && s'.hist == s.hist && s'.clients == s.clients
    ensures s.hist[Th(s, t).core].next.None? ==> NoHole(s')
    ensures s'.procs.Keys == s.procs.Keys
    ensures forall q :: q in s.procs ==> s'.procs[q].removed == s.procs[q].removed
  {
  }

  /** The waiter of a core, if any, belongs to a client that has not been removed. */
  ghost predicate WaiterStays(s: State, core: nat) {
    core < |s.hist| && s.hist[core].next.Some? ==>
      s.hist[core].next.value.p in s.clients && s.hist[core].next.value.p in s.procs
      && !s.procs[s.hist[core].next.value.p].removed
  }

  lemma ParkDefined(s: State, dying: set<nat>, t: Tid)
    requires Base(s, dying) && Running(s, t)
    ensures Cedable(s, t) && t.k !in s.procs[t.p].available
  {
    CedeDefined(s, dying, t);
    ClientProcOk(s, t.p);
  }

  /** cores_park_kthread either leaves everything as it is or cedes the core and passes it on. */
  lemma ParkForm(s: State, t: Tid, inFlight: bool, force: bool) returns (s': State)
    requires Cedable(s, t) && t.k !in s.procs[t.p].available
    ensures CedeRel(s, s', t) && s' == Cede(s, t) && |s'.hist| == |s.hist|
    ensures Park(s, t, inFlight, force) ==
            if s.hist[Th(s, t).core].next.None? && !force && inFlight then Done(s, None)
            else Resume(PickThreadForCore(s', Th(s, t).core), Th(s, t).core)
  {
    s' := Cede(s, t);
    CedeForm(s, t);
  }

  lemma CededCoreSettles(s: State, s': State, dying: set<nat>, t: Tid)
    requires CedeRel(s, s', t) && NoHole(s) && Base(s', dying) && WaiterStays(s, Th(s, t).core)
    ensures Settled(s', Resume(PickThreadForCore(s', Th(s, t).core), Th(s, t).core), dying, Th(s, t).core)
  {
    CedeHole(s, s', t);
    var core := Th(s, t).core;
    if s.hist[core].next.Some? {
      HandOverSettles(s', dying, core);
    } else {
      NobodySettles(s', dying, core);
    }
  }

  /**
   * Who gets the core that t gives up. Nobody, and t keeps it, when commands are still queued to t and nobody waits for the
   * core; a waiter, if there is one; otherwise the taker, if it has a kthread to spare; and if not, the core is idle. The
   * process of t itself can always take it back, with t.
   */
  ghost predicate PassedOn(s: State, t: Tid, inFlight: bool, force: bool, r: Outcome)
    requires Running(s, t)
  {
    var core := Th(s, t).core;
    if s.hist[core].next.None? && !force && inFlight then r == Done(s, None)
    else
      && r.Done? && core < |r.state.hist|
      && (r.woken.Some? ==> r.state.hist[core].current == r.woken && core !in r.state.avail)
      && (r.woken.None? ==> r.state.hist == s.hist && r.state.avail == s.avail + {core})
      && (s.hist[core].next.Some? ==> r.woken == s.hist[core].next)
      && (s.hist[core].next.None? && s.overloaded == [] ==> r.woken.None?)
      && (s.hist[core].next.None? && s.overloaded != [] ==>
            var q := Taker(s, core);
            && q in s.procs && (r.woken.Some? <==> q == t.p || s.procs[q].idle != [])
            && (r.woken.Some? ==> r.woken.value.p == q))
  }

  /** Ceding changes nobody's wishes, and adds t to the idle list of its process. */
  lemma CedeTaker(s: State, m: State, t: Tid)
    requires CedeRel(s, m, t) && ProcOk(s.procs[t.p]) && s.overloaded != []
    ensures Taker(m, Th(s, t).core) == Taker(s, Th(s, t).core)
    ensures forall q :: q in s.procs <==> q in m.procs
    ensures forall q :: q in s.procs ==> m.procs[q].idle == if q == t.p then [t.k] + s.procs[q].idle else s.procs[q].idle
  {
    DeactivateOk(s.procs[t.p], t.k);
    assert m.procs[t.p].overloaded == s.procs[t.p].overloaded && m.procs[t.p].removed == s.procs[t.p].removed;
  }

  lemma CededPasses(s: State, m: State, dying: set<nat>, t: Tid, inFlight: bool, force: bool)
    requires CedeRel(s, m, t) && Base(m, dying) && ProcOk(s.procs[t.p]) && WaiterStays(s, Th(s, t).core)
    requires Th(s, t).core in m.avail && !(s.hist[Th(s, t).core].next.None? && !force && inFlight)
    ensures PassedOn(s, t, inFlight, force, Resume(PickThreadForCore(m, Th(s, t).core), Th(s, t).core))
  {
    var core := Th(s, t).core;
    if s.hist[core].next.Some? {
      CedeKeepsFlags(s, m, t);
      WaiterPasses(m, dying, core);
    } else {
      NobodyPasses(m, dying, core);
      if s.overloaded != [] {
        CedeTaker(s, m, t);
      }
    }
  }

  lemma CedeKeepsFlags(s: State, m: State, t: Tid)
    requires CedeRel(s, m, t)
    ensures m.hist == s.hist && m.clients == s.clients
    ensures forall q :: q in s.procs ==> q in m.procs && m.procs[q].removed == s.procs[q].removed
  {
  }

  /** cores_park_kthread of a running thread never reaches a BUG, keeps the invariant and passes the core on. */
  lemma ParkSafe(s: State, dying: set<nat>, t: Tid, inFlight: bool, force: bool)
    requires Base(s, dying) && NoHole(s) && Running(s, t) && WaiterStays(s, Th(s, t).core)
    ensures var r := Park(s, t, inFlight, force); r.Done? && Base(r.state, dying) && NoHole(r.state)
    ensures PassedOn(s, t, inFlight, force, Park(s, t, inFlight, force))
  {
    ParkDefined(s, dying, t);
    var s' := ParkForm(s, t, inFlight, force);
    CedeRelBase(s, s', dying, t);
    CededCoreSettles(s, s', dying, t);
    if !(s.hist[Th(s, t).core].next.None? && !force && inFlight) {
      ClientProcOk(s, t.p);
      CededPasses(s, s', dying, t, inFlight, force);
    }
  }
}
