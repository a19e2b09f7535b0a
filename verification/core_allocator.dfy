/**
 * The daemon's allocator as the imperative program it is: globals updated in place by small
 * methods. Each method is proved to produce the state of the function that specifies it; a BUG_ON
 * or assert of the source appears as an assert that is proved.
 */
module CoreAllocator {
  import opened Collections
  import opened CoreState
  import opened CoreInvariant
  import opened CoreMoves
  import opened CoreSteps
  import opened CoreGuarantee
  import opened CoreAdd
  import opened CorePark
  import opened CoreLifecycle
  import opened CoreRuns
  import opened CoreBits
  import opened CoreLimits
  import Bitmap

  class Allocator {
    const cpus: CpuCount
    const online: set<nat>
    var availBits: CoreMap
    var nrAvail: int
    var hist: seq<Core>
    var procs: map<nat, Proc>
    var overloaded: seq<nat>
    var bursting: seq<nat>
    var ts: seq<Tid>
    var tsIdx: map<Tid, nat>
    var clients: seq<nat>
    var released: seq<nat>

    ghost function View(): State
      reads this
    {
      State(cpus, online, Cores(availBits, cpus), nrAvail, hist, procs, overloaded, bursting, ts, tsIdx, clients, released)
    }

    /** cores_init: every listed core online and idle. */
    constructor (cpus: CpuCount, online: set<nat>)
      requires online != {} && forall c :: c in online ==> c < cpus
      ensures View() == Boot(cpus, online)
      ensures Inv(View())
    {
      this.cpus, this.online := cpus, online;
      availBits, nrAvail := Cleared(), |online|;
      hist := seq(cpus, c => Core(None, None, None));
      procs := map[];
      overloaded, bursting, ts, tsIdx, clients, released := [], [], [], map[], [], [];
      new;
      availBits := Raised(cpus, online);
      assert hist == Boot(cpus, online).hist;
      BootInv(cpus, online);
    }

    /** The loop of cores_init that makes the listed cores available. */
    static method Raised(cpus: CpuCount, online: set<nat>) returns (w: CoreMap)
      requires forall c :: c in online ==> c < cpus
      ensures Cores(w, cpus) == online
    {
      w := Cleared();
      NoCores(cpus);
      var c := 0;
      while c < cpus
        invariant 0 <= c <= cpus
        invariant Cores(w, cpus) == set d | d in online && d < c
      {
        if c in online {
          WithBitCores(w, cpus, c, true);
          w := WithBit(w, c, true);
        }
        c := c + 1;
      }
    }

    method ProcGet(p: nat)
      requires p in procs
      modifies this
      ensures View() == GetRef(old(View()), p)
    {
      procs := procs[p := procs[p].(refs := procs[p].refs + 1)];
    }

    method ProcPut(p: nat)
      requires p in procs
      modifies this
      ensures View() == PutRef(old(View()), p)
    {
      var refs := procs[p].refs - 1;
      if refs == 0 {
        procs := procs - {p};
        released := released + [p];
      } else {
        procs := procs[p := procs[p].(refs := refs)];
      }
    }

    method MarkOverloaded(p: nat)
      requires p in procs
      modifies this
      ensures View() == SetOverloaded(old(View()), p)
    {
      if procs[p].overloaded { return; }
      overloaded := [p] + overloaded;
      procs := procs[p := procs[p].(overloaded := true)];
    }

    method UnmarkOverloaded(p: nat)
      requires p in procs
      modifies this
      ensures View() == ClearOverloaded(old(View()), p)
    {
      if !procs[p].overloaded { return; }
      overloaded := Without(overloaded, p);
      procs := procs[p := procs[p].(overloaded := false)];
    }

    method MarkBursting(p: nat)
      requires p in procs
      modifies this
      ensures View() == SetBursting(old(View()), p)
    {
      if procs[p].bursting { return; }
      bursting := [p] + bursting;
      procs := procs[p := procs[p].(bursting := true)];
    }

    method UnmarkBursting(p: nat)
      requires p in procs
      modifies this
      ensures View() == ClearBursting(old(View()), p)
    {
      if !procs[p].bursting { return; }
      bursting := Without(bursting, p);
      procs := procs[p := procs[p].(bursting := false)];
    }

    method Poll(t: Tid)
      requires t.p in procs
      modifies this
      ensures View() == PollThread(old(View()), t)
    {
      if t in tsIdx { return; }
      ProcGet(t.p);
      tsIdx := tsIdx[t := |ts|];
      ts := ts + [t];
    }

    method Unpoll(t: Tid)
      requires t.p in procs
      requires t in tsIdx ==> tsIdx[t] < |ts|
      modifies this
      ensures View() == UnpollThread(old(View()), t)
    {
      if t !in tsIdx { return; }
      var i := tsIdx[t];
      var last := ts[|ts| - 1];
      ts := ts[i := last][..|ts| - 1];
      tsIdx := tsIdx[last := i] - {t};
      ProcPut(t.p);
    }

    method ReserveThread(t: Tid, core: nat)
      requires Named(View(), t)
      modifies this
      ensures View() == ThreadReserve(old(View()), t, core)
    {
      var pr := procs[t.p];
      pr := pr.(available := pr.available - {t.k});
      pr := pr.(threads := pr.threads[t.k := Thread(false, core, |pr.active|)]);
      pr := pr.(active := pr.active + [t.k]);
      pr := pr.(idle := Without(pr.idle, t.k));
      procs := procs[t.p := pr];
      if |procs[t.p].active| > procs[t.p].guaranteed {
        MarkBursting(t.p);
      }
      UnmarkOverloaded(t.p);
      Poll(t);
    }

    method CedeThread(t: Tid)
      requires t.p in procs && Movable(procs[t.p], t.k)
      requires t in tsIdx ==> tsIdx[t] < |ts|
      modifies this
      ensures View() == ThreadCede(old(View()), t)
    {
      var pr := procs[t.p];
      var at := pr.threads[t.k].atIdx;
      var moved := pr.active[|pr.active| - 1];
      pr := pr.(available := pr.available + {t.k});
      pr := pr.(active := pr.active[at := moved][..|pr.active| - 1]);
      pr := pr.(threads := pr.threads[moved := pr.threads[moved].(atIdx := at)]);
      pr := pr.(idle := [t.k] + pr.idle);
      pr := pr.(threads := pr.threads[t.k := pr.threads[t.k].(parked := true)]);
      procs := procs[t.p := pr];
      if |procs[t.p].active| == procs[t.p].guaranteed {
        UnmarkBursting(t.p);
      }
      Unpoll(t);
    }

    method TakeCore(core: nat)
      requires core < cpus
      modifies this`availBits, this`nrAvail
      ensures View() == old(View()).(avail := old(View()).avail - {core}, nrAvail := old(nrAvail) - 1)
    {
      WithBitCores(availBits, cpus, core, false);
      availBits := WithBit(availBits, core, false);
      nrAvail := nrAvail - 1;
    }

    method ReserveCore(core: nat, t: Tid)
      requires core < |hist| && core in View().avail
      requires hist[core].next.None? || hist[core].next == Some(t)
      requires hist[core].prev.Some? ==> hist[core].prev.value.p in procs
      requires t.p in DropPrev(View(), core).procs
      modifies this
      ensures View() == CoreReserve(old(View()), core, t)
    {
      TakeCore(core);
      if hist[core].prev.Some? {
        ProcPut(hist[core].prev.value.p);
      }
      ProcGet(t.p);
      hist := hist[core := Core(Some(t), hist[core].current, None)];
    }

    method CedeCore(core: nat)
      requires core < cpus && core !in View().avail
      modifies this
      ensures View() == CoreCede(old(View()), core)
    {
      WithBitCores(availBits, cpus, core, true);
      availBits := WithBit(availBits, core, true);
      nrAvail := nrAvail + 1;
    }

    /** pick_thread_for_proc */
    method PickThread(p: nat, core: nat) returns (t: Option<Tid>)
      requires p in procs && core < |hist|
      modifies this
      ensures PickThreadForProc(old(View()), p, core) == Picked(View(), t)
    {
      var pr := procs[p];
      if pr.launched {
        procs := procs[p := pr.(launched := false)];
        return Front(p, pr.idle);
      }
      if pr.overloaded && |pr.active| == 0 {
        return Front(p, pr.idle);
      }
      var last := hist[core].current;
      if last.Some? && last.value.p == p && last.value.k < |pr.threads| && pr.threads[last.value.k].parked {
        return last;
      }
      last := hist[core].prev;
      if last.Some? && last.value.p == p && last.value.k < |pr.threads| && pr.threads[last.value.k].parked {
        return last;
      }
      return Back(p, pr.idle);
    }

    /** The word-wise search of the availability bitmap from core 0. */
    method FirstAvailable() returns (core: nat)
      ensures core == NextAvail(View().avail, cpus, 0)
    {
      SearchCores(availBits, cpus, 0);
      core := Bitmap.FindNext(availBits, cpus, 0, false);
    }

    /** pick_core_for_proc; None is its BUG(). */
    method PickCore(p: nat) returns (core: Option<nat>)
      requires Pickable(View(), p)
      ensures core == PickCoreForProc(View(), p)
    {
      var last := procs[p].threads[procs[p].idle[0]].core;
      if last < cpus && Bitmap.Test(availBits, last) {
        return Some(last);
      }
      if nrAvail == 0 && hist[last].next.None? {
        var owner := hist[last].current.value.p;
        if owner != p && procs[owner].bursting {
          return Some(last);
        }
      }
      var first := FirstAvailable();
      if first != cpus {
        return Some(first);
      }
      core := FirstPreemptable();
    }

    /** The scan for a core of a bursting process; running off its end is the BUG(). */
    method FirstPreemptable() returns (core: Option<nat>)
      requires |hist| == cpus
      requires forall c :: 0 <= c < |hist| && hist[c].current.Some? ==> hist[c].current.value.p in procs
      ensures core == NextPreemptable(View(), 0)
    {
      var i: nat := 0;
      while i < cpus
        invariant i <= cpus
        invariant NextPreemptable(View(), 0) == NextPreemptable(View(), i)
      {
        if hist[i].current.Some? && procs[hist[i].current.value.p].bursting && hist[i].next.None? {
          return Some(i);
        }
        i := i + 1;
      }
      return None;
    }

    /** wake_kthread_on_core */
    method WakeKthread(core: nat, t: Tid)
      requires WakeOnCore(View(), core, t).Done?
      modifies this
      ensures WakeOnCore(old(View()), core, t) == Done(View(), Some(t))
    {
      ReserveCore(core, t);
      if procs[t.p].threads[t.k].parked {
        ReserveThread(t, core);
      }
    }

    /** cores_add_core; not ok is the BUG() of pick_core_for_proc. */
    method AddCoreTo(p: nat) returns (ok: bool, woken: Option<Tid>)
      requires Inv(View()) && p in clients
      modifies this
      ensures ok <==> AddCore(old(View()), p).Done?
      ensures ok ==> AddCore(old(View()), p) == Done(View(), woken)
      ensures |old(procs)[p].active| < old(procs)[p].guaranteed || old(nrAvail) > 0 ==> ok && Inv(View())
    {
      if |procs[p].active| < procs[p].guaranteed || nrAvail > 0 {
        AddCoreKeeps(View(), p);
      }
      if |procs[p].active| == |procs[p].threads| {
        return true, None;
      }
      PickReady(View(), p);
      var core := PickCore(p);
      if core.None? {
        return false, None;
      }
      AddReady(View(), p, core.value);
      woken := AddCoreOn(p, core.value);
      ok := true;
    }

    /** cores_add_core from the choice of the core on. */
    method AddCoreOn(p: nat, core: nat) returns (woken: Option<Tid>)
      requires p in procs && core < |hist| && core < cpus && AddOn(View(), p, core).Done?
      modifies this
      ensures AddOn(old(View()), p, core) == Done(View(), woken)
    {
      woken := PickThread(p, core);
      assert woken.Some? && woken.value.k in procs[p].available;
      if Bitmap.Test(availBits, core) {
        WakeKthread(core, woken.value);
      } else {
        PreemptCore(core, woken.value);
      }
    }

    /** The preempting half of cores_add_core, without the signal. */
    method PreemptCore(core: nat, t: Tid)
      requires core < |hist| && Named(View(), t) && hist[core].next.None?
      requires hist[core].current.Some? && hist[core].current.value.p in procs
      modifies this
      ensures View() == Preempt(old(View()), core, t)
    {
      var victim := hist[core].current.value.p;
      ghost var s := View();
      PreemptParts(s, core, t);
      ReserveThread(t, core);
      MarkOverloaded(victim);
      CountPreemption(victim, core, t);
    }

    method CountPreemption(victim: nat, core: nat, t: Tid)
      requires victim in procs && core < |hist|
      modifies this
      ensures View() == PreemptionCounted(old(View()), victim, core, t)
    {
      procs := procs[victim := procs[victim].(inflight := procs[victim].inflight + 1)];
      hist := hist[core := hist[core].(next := Some(t))];
    }

    /** pick_thread_for_core */
    method PickForCore(core: nat) returns (t: Option<Tid>)
      requires core < |hist|
      requires hist[core].current.Some? ==> hist[core].current.value.p in procs
      requires hist[core].prev.Some? ==> hist[core].prev.value.p in procs
      requires hist[core].next.Some? ==> hist[core].current.Some? && hist[core].next.value.p in procs
      requires overloaded != [] ==> overloaded[0] in procs
      modifies this
      ensures PickThreadForCore(old(View()), core) == Picked(View(), t)
    {
      var c := hist[core];
      if c.next.Some? && !procs[c.next.value.p].removed {
        var v := c.current.value.p;
        procs := procs[v := procs[v].(inflight := procs[v].inflight - 1)];
        return c.next;
      }
      if overloaded == [] {
        return None;
      }
      var p := overloaded[0];
      if c.current.Some? && !procs[c.current.value.p].removed && procs[c.current.value.p].overloaded {
        p := c.current.value.p;
      } else if c.prev.Some? && !procs[c.prev.value.p].removed && procs[c.prev.value.p].overloaded {
        p := c.prev.value.p;
      }
      t := PickThread(p, core);
    }

    /** cores_park_kthread; returns whether the kthread is to remain parked. */
    method ParkKthread(t: Tid, inFlight: bool, force: bool) returns (stays: bool)
      requires Parkable(View(), t) && Park(View(), t, inFlight, force).Done?
      modifies this
      ensures Park(old(View()), t, inFlight, force).state == View()
      ensures stays <==> !(old(hist)[Th(old(View()), t).core].next.None? && !force && inFlight)
      ensures Inv(old(View())) && WaiterNotRemoved(old(View()), Th(old(View()), t).core) ==> Inv(View())
    {
      ParkKeeps(View(), t, inFlight, force);
      var core := procs[t.p].threads[t.k].core;
      assert core !in View().avail && t.k !in procs[t.p].available;
      if hist[core].next.None? && !force && inFlight {
        return false;
      }
      CedeCore(core);
      CedeThread(t);
      var woken := PickForCore(core);
      if woken.Some? {
        WakeKthread(core, woken.value);
      }
      return true;
    }

    /** rx_send_to_runtime, up to the choice of the thread. */
    method Send(p: nat)
      requires Inv(View()) && p in clients
      modifies this
      ensures RxSend(old(View()), p).Done? && RxSend(old(View()), p).state == View() && Inv(View())
    {
      SendSafe(View(), p);
      if |procs[p].active| > 0 {
      } else if procs[p].guaranteed > 0 || nrAvail > 0 {
        var ok, woken := AddCoreTo(p);
      } else {
        MarkOverloaded(p);
      }
    }

    /** The second half of a client's turn: more cores up to the guarantee, else a mark. */
    method ServeOne(p: nat, congested: bool)
      requires Inv(View()) && p in clients
      modifies this
      ensures p in old(procs)
      ensures Serve(old(View()), p, congested).Done? && Serve(old(View()), p, congested).state == View() && Inv(View())
    {
      ServeSafe(View(), p, congested);
      if !congested {
        return;
      }
      if |procs[p].active| < procs[p].guaranteed {
        var ok, woken := AddCoreTo(p);
      } else {
        MarkOverloaded(p);
      }
    }

    method CalmOne(p: nat)
      requires p in procs
      modifies this
      ensures View() == Calmed(old(View()), p)
    {
      var spare := (|procs[p].active| - procs[p].inflight) % 0x1_0000_0000;
      if spare > 0 {
        UnmarkOverloaded(p);
      }
    }

    /** One client's turn in the first loop of cores_adjust_assignments. */
    method AdjustOne(p: nat, congested: bool)
      requires Inv(View()) && p in clients
      modifies this
      ensures AdjustClient(old(View()), p, congested).Done? && AdjustClient(old(View()), p, congested).state == View()
      ensures Inv(View())
    {
      CalmedInv(View(), p);
      CalmOne(p);
      ServeOne(p, congested);
    }

    /** One overloaded process's turn in the second loop: a core, while one is idle. */
    method GrantOne(p: nat)
      requires Inv(View()) && p in clients
      modifies this
      ensures GrantSpare(old(View()), p).Done? && GrantSpare(old(View()), p).state == View()
      ensures Inv(View())
    {
      SpareSafe(View(), p);
      if nrAvail != 0 {
        AvailNat(View());
        var ok, woken := AddCoreTo(p);
      }
    }

    /** AdjustOne as the next event of a run. */
    method AdjustNext(p: nat, congested: bool, ghost start: State, ghost events: seq<Event>)
      requires Inv(start) && p in clients && Reaches(start, events, View())
      modifies this
      ensures clients == old(clients)
      ensures Reaches(start, events + [Adjust(p, congested)], View())
    {
      ghost var before := View();
      ReachesInv(start, events, before);
      AdjustKeepsClients(before, p, congested);
      AdjustOne(p, congested);
      LongerRun(start, events, before, Adjust(p, congested), View());
    }

    /** GrantOne as the next event of a run. */
    method GrantNext(p: nat, ghost start: State, ghost events: seq<Event>)
      requires Inv(start) && p in clients && Reaches(start, events, View())
      modifies this
      ensures clients == old(clients)
      ensures Reaches(start, events + [Spare(p)], View())
    {
      ghost var before := View();
      ReachesInv(start, events, before);
      SpareKeepsClients(before, p);
      GrantOne(p);
      LongerRun(start, events, before, Spare(p), View());
    }

    /** AdjustNext for the i-th client of the list. */
    method AdjustAt(list: seq<nat>, congested: seq<bool>, i: nat, ghost start: State)
      requires Inv(start) && |congested| == |list| && i < |list| && list[i] in clients
      requires Reaches(start, AdjustEvents(list, congested)[..i], View())
      modifies this
      ensures clients == old(clients)
      ensures Reaches(start, AdjustEvents(list, congested)[..i + 1], View())
    {
      AdjustNext(list[i], congested[i], start, AdjustEvents(list, congested)[..i]);
      AdjustEventAt(list, congested, i);
    }

    /** The first loop of cores_adjust_assignments: a run of one Adjust event per client, in table order. */
    method AdjustClients(congested: seq<bool>) returns (ghost events: seq<Event>)
      requires Inv(View()) && |congested| == |clients|
      modifies this
      ensures clients == old(clients)
      ensures Reaches(old(View()), events, View())
      ensures events == AdjustEvents(old(clients), congested)
    {
      var list := clients;
      ghost var plan := AdjustEvents(list, congested);
      ghost var start := View();
      EmptyRun(start);
      var i := 0;
      while i < |list|
        invariant 0 <= i <= |list| && clients == list
        invariant Reaches(start, plan[..i], View())
      {
        AdjustAt(list, congested, i, start);
        i := i + 1;
      }
      assert plan[..i] == plan;
      events := plan;
    }

    /**
     * The second loop: one Spare event for each process that is overloaded when it starts, in list
     * order. Once no core is idle these change nothing, which is the break in the source.
     */
    method GrantOverloaded() returns (ghost events: seq<Event>)
      requires Inv(View())
      modifies this
      ensures clients == old(clients)
      ensures Reaches(old(View()), events, View())
      ensures events == SpareEvents(old(overloaded))
    {
      events := [];
      EmptyRun(View());
      OverloadedClients(View());
      var list := overloaded;
      ghost var plan := SpareEvents(list);
      var i := 0;
      while i < |list|
        invariant 0 <= i <= |list| && clients == old(clients)
        invariant Reaches(old(View()), events, View()) && events == plan[..i]
      {
        GrantNext(list[i], old(View()), events);
        SnocPrefix(plan, i);
        events := events + [plan[i]];
        i := i + 1;
      }
    }

    /**
     * cores_adjust_assignments; congested gives the outcome of the queue tests, client by client. The second loop serves
     * the processes overloaded in the state the first one leaves.
     */
    method AdjustAssignments(congested: seq<bool>) returns (ghost middle: State)
      requires Inv(View()) && |congested| == |clients|
      modifies this
      ensures Inv(View())
      ensures Reaches(old(View()), AdjustEvents(old(clients), congested), middle)
      ensures Reaches(middle, SpareEvents(middle.overloaded), View())
    {
      var first := AdjustClients(congested);
      middle := View();
      ReachesInv(old(View()), first, middle);
      var second := GrantOverloaded();
      ReachesInv(middle, second, View());
    }

    /** dp_clients_add_client and cores_init_proc: attach a process and start its first kthread; not ok is a BUG(). */
    method Join(p: nat, guaranteed: nat, threadCount: nat) returns (ok: bool)
      requires Inv(View()) && MayJoin(View(), p, guaranteed)
      modifies this
      ensures ok <==> AddClient(old(View()), p, guaranteed, threadCount).Done?
      ensures ok ==> AddClient(old(View()), p, guaranteed, threadCount).state == View()
      ensures ok && Inv(View()) <==> guaranteed > 0 || old(nrAvail) > 0 || threadCount == 0
    {
      AttachExact(View(), p, guaranteed, threadCount);
      JoinReady(View(), p, guaranteed, threadCount);
      clients := clients + [p];
      var core := FirstOnline();
      var threads, idle := ParkedThreads(threadCount, core);
      procs := procs[p := Proc(guaranteed, threads, [], idle, Below(threadCount), 0, false, false, true, false, false, 1)];
      var woken;
      ok, woken := AddCoreTo(p);
    }

    /** The loop of cores_init_proc over a new process's kthreads. */
    static method ParkedThreads(n: nat, core: nat) returns (threads: seq<Thread>, idle: seq<nat>)
      ensures threads == seq(n, k => Thread(true, core, 0)) && idle == seq(n, k => k)
    {
      threads, idle := [], [];
      var i := 0;
      while i < n
        invariant 0 <= i <= n
        invariant threads == seq(i, k => Thread(true, core, 0)) && idle == seq(i, k => k)
      {
        threads := threads + [Thread(true, core, 0)];
        idle := idle + [i];
        i := i + 1;
      }
    }

    method FirstOnline() returns (core: nat)
      ensures core == NextAvail(online, cpus, 0)
    {
      core := 0;
      while core < cpus && core !in online
        invariant core <= cpus
        invariant NextAvail(online, cpus, 0) == NextAvail(online, cpus, core)
      {
        core := core + 1;
      }
    }

    /** dp_clients_remove_client and cores_free_proc: park everything the process runs and forget it. */
    method Leave(p: nat)
      requires Inv(View()) && MayLeave(View(), p)
      modifies this
      ensures RemoveClient(old(View()), p).Done? && RemoveClient(old(View()), p).state == View()
      ensures Inv(View()) && p !in clients
    {
      ghost var s := View();
      NotKilled(s, {}, p);
      RemoveClientSafe(s, p);
      LeaveForm(s, p);
      LeaveStartsLoop(s, Leaving(s, p), p);
      Depart(p);
      FreeProc(p);
      RemoveClientForm(s, p, View());
      ProcPut(p);
    }

    /** The table entry goes, the last entry taking its place, and the marks are cleared. */
    method Depart(p: nat)
      requires p in procs && p in clients
      modifies this
      ensures View() == Leaving(old(View()), p)
    {
      var i := 0;
      while clients[i] != p
        invariant 0 <= i <= IndexOf(clients, p)
        decreases |clients| - i
      {
        i := i + 1;
      }
      clients := clients[i := clients[|clients| - 1]][..|clients| - 1];
      procs := procs[p := procs[p].(kill := true)];
      UnmarkBursting(p);
      UnmarkOverloaded(p);
    }

    /** The loop of cores_free_proc over the kthreads that are not available. */
    method FreeProc(p: nat)
      requires FreeLoop(View(), p, 0)
      modifies this
      ensures p in old(procs) && p in procs
      ensures var r := FreeKthreads(old(View()), p, |old(procs)[p].threads|); r.Done? && r.state == View()
    {
      var n := |procs[p].threads|;
      FreeKthreadsSafe(View(), p, n);
      ghost var start := View();
      var k := 0;
      while k < n
        invariant 0 <= k <= n
        invariant FreeLoopOf(p, n)(View(), k)
        invariant ForEachKthread(FreeTurnOf(p), start, 0, n) == ForEachKthread(FreeTurnOf(p), View(), k, n)
      {
        FreeNext(p, k, n);
        k := k + 1;
      }
    }

    method FreeNext(p: nat, k: nat, n: nat)
      requires FreeLoopOf(p, n)(View(), k) && k < n
      modifies this
      ensures FreeLoopOf(p, n)(View(), k + 1)
      ensures FreeTurnOf(p)(old(View()), k).Done? && FreeTurnOf(p)(old(View()), k).state == View()
    {
      FreeTurnKeeps(View(), p, k, n);
      if k !in procs[p].available {
        FreeParkable(View(), p, k);
        var stays := ParkKthread(Tid(p, k), false, true);
      }
    }
  }

  /** The victim counts one more preemption in flight, and the core's next owner is known. */
  function PreemptionCounted(s: State, victim: nat, core: nat, t: Tid): State
    requires victim in s.procs && core < |s.hist|
  {
    WithProc(s, victim, s.procs[victim].(inflight := s.procs[victim].inflight + 1))
      .(hist := s.hist[core := s.hist[core].(next := Some(t))])
  }

  lemma PreemptParts(s: State, core: nat, t: Tid)
    requires core < |s.hist| && Named(s, t) && s.hist[core].current.Some? && s.hist[core].current.value.p in s.procs
    ensures var v := s.hist[core].current.value.p;
            var s1 := SetOverloaded(ThreadReserve(s, t, core), v);
            v in s1.procs && s1.hist == s.hist && Preempt(s, core, t) == PreemptionCounted(s1, v, core, t)
  {
  }

  lemma IdleFront(s: State, p: nat)
    requires ShapeOk(s) && HistOk(s) && ProcsOk(s) && p in s.procs && s.procs[p].idle != []
    ensures s.procs[p].idle[0] < |s.procs[p].threads|
    ensures var core := s.procs[p].threads[s.procs[p].idle[0]].core;
            && core in s.online && core < |s.hist|
            && (core !in s.avail ==> s.hist[core].current.Some? && s.hist[core].current.value.p in s.procs)
  {
    assert s.procs[p].idle[0] in s.procs[p].idle;
  }

  /** What pick_core_for_proc relies on. */
  ghost predicate Pickable(s: State, p: nat) {
    && p in s.procs && s.procs[p].idle != [] && s.procs[p].idle[0] < |s.procs[p].threads|
    && var core := s.procs[p].threads[s.procs[p].idle[0]].core;
    && core < |s.hist| == s.cpus
    && (core !in s.avail ==> s.hist[core].current.Some?)
    && (forall c :: 0 <= c < |s.hist| && s.hist[c].current.Some? ==> s.hist[c].current.value.p in s.procs)
  }

  lemma PickReadyShape(s: State, p: nat)
    requires ShapeOk(s) && HistOk(s) && ProcsOk(s) && p in s.procs && s.procs[p].idle != []
    ensures Pickable(s, p)
  {
    IdleFront(s, p);
  }

  lemma PickReady(s: State, p: nat)
    requires Inv(s) && p in s.clients && |s.procs[p].active| != |s.procs[p].threads|
    ensures Pickable(s, p)
  {
    IdleCount(s, p);
    PickReadyShape(s, p);
  }

  /** Once pick_core_for_proc has found a core, the rest of cores_add_core succeeds. */
  lemma AddReady(s: State, p: nat, core: nat)
    requires Inv(s) && p in s.clients && |s.procs[p].active| != |s.procs[p].threads| && PickCoreForProc(s, p) == Some(core)
    ensures core < |s.hist| == s.cpus && AddOn(s, p, core).Done? && AddCore(s, p) == AddOn(s, p, core)
  {
    IdleCount(s, p);
    ClientProcOk(s, p);
    PickCoreExact(s, p);
    AvailNat(s);
    if s.nrAvail > 0 {
      AddOnIdle(s, p, core);
    } else {
      AddOnBusyForm(s, p, core);
    }
    AddCoreForm(s, p, core);
  }

  /** What cores_park_kthread relies on once the core has been ceded. */
  lemma ParkKeeps(s: State, t: Tid, inFlight: bool, force: bool)
    requires Running(s, t)
    ensures Inv(s) && WaiterNotRemoved(s, Th(s, t).core) ==>
              Park(s, t, inFlight, force).Done? && Inv(Park(s, t, inFlight, force).state)
  {
    if Inv(s) && WaiterNotRemoved(s, Th(s, t).core) {
      OccupantsAreClients(s, Th(s, t).core);
      ParkSafe(s, {}, t, inFlight, force);
    }
  }

  ghost predicate Parkable(s: State, t: Tid) {
    && Cedable(s, t) && t.k !in s.procs[t.p].available
    && var m := Cede(s, t); var core := Th(s, t).core;
    && core < |m.hist| && core < s.cpus
    && (m.hist[core].current.Some? ==> m.hist[core].current.value.p in m.procs)
    && (m.hist[core].prev.Some? ==> m.hist[core].prev.value.p in m.procs)
    && (m.hist[core].next.Some? ==> m.hist[core].current.Some? && m.hist[core].next.value.p in m.procs)
    && (m.overloaded != [] ==> m.overloaded[0] in m.procs)
  }

  lemma ParkReady(s: State, dying: set<nat>, t: Tid)
    requires Base(s, dying) && Running(s, t)
    ensures Parkable(s, t)
  {
    ParkDefined(s, dying, t);
    CedeForm(s, t);
    CedeRelBase(s, Cede(s, t), dying, t);
    ParkReadyShape(Cede(s, t), Th(s, t).core);
  }

  lemma ParkReadyShape(m: State, core: nat)
    requires HistOk(m) && OwnOk(m) && FlagsOk(m) && core < |m.hist|
    ensures m.hist[core].current.Some? ==> m.hist[core].current.value.p in m.procs
    ensures m.hist[core].prev.Some? ==> m.hist[core].prev.value.p in m.procs
    ensures m.hist[core].next.Some? ==> m.hist[core].current.Some? && m.hist[core].next.value.p in m.procs
    ensures m.overloaded != [] ==> m.overloaded[0] in m.procs
  {
    assert m.overloaded != [] ==> m.overloaded[0] in m.overloaded;
  }

  /** One Adjust event per client, in table order. */
  function AdjustEvents(clients: seq<nat>, congested: seq<bool>): seq<Event>
    requires |clients| == |congested|
  {
    seq(|clients|, i requires 0 <= i < |clients| => Adjust(clients[i], congested[i]))
  }

  lemma AdjustEventAt(clients: seq<nat>, congested: seq<bool>, i: nat)
    requires |clients| == |congested| && i < |clients|
    ensures |AdjustEvents(clients, congested)| == |clients|
    ensures AdjustEvents(clients, congested)[..i] + [Adjust(clients[i], congested[i])] == AdjustEvents(clients, congested)[..i + 1]
  {
  }

  function SpareEvents(list: seq<nat>): seq<Event> {
    seq(|list|, i requires 0 <= i < |list| => Spare(list[i]))
  }

  lemma OverloadedClients(s: State)
    requires FlagsOk(s) && ClientsOk(s, {})
    ensures forall i :: 0 <= i < |s.overloaded| ==> s.overloaded[i] in s.clients
  {
    forall i | 0 <= i < |s.overloaded|
      ensures s.overloaded[i] in s.clients
    {
      assert s.overloaded[i] in s.overloaded;
    }
  }

  lemma ReserveKeepsClients(s: State, t: Tid, core: nat)
    requires Named(s, t)
    ensures ThreadReserve(s, t, core).clients == s.clients
  {
  }

  lemma WakeKeepsClients(s: State, core: nat, t: Tid)
    requires WakeOnCore(s, core, t).Done?
    ensures WakeOnCore(s, core, t).state.clients == s.clients
  {
    ReserveKeepsClients(CoreReserve(s, core, t), t, core);
  }

  lemma PreemptKeepsClients(s: State, core: nat, t: Tid)
    requires core < |s.hist| && Named(s, t) && s.hist[core].current.Some? && s.hist[core].current.value.p in s.procs
    ensures Preempt(s, core, t).clients == s.clients
  {
    ReserveKeepsClients(s, t, core);
  }

  lemma AddOnKeepsClients(s: State, p: nat, core: nat)
    requires p in s.procs && core < |s.hist| && AddOn(s, p, core).Done?
    ensures AddOn(s, p, core).state.clients == s.clients
  {
    var picked := PickThreadForProc(s, p, core);
    if core in s.avail {
      WakeKeepsClients(picked.state, core, picked.thread.value);
    } else {
      PreemptKeepsClients(picked.state, core, picked.thread.value);
    }
  }

  lemma AddCoreKeepsClients(s: State, p: nat)
    requires AddCore(s, p).Done?
    ensures AddCore(s, p).state.clients == s.clients
  {
    if |s.procs[p].active| != |s.procs[p].threads| {
      AddOnKeepsClients(s, p, PickCoreForProc(s, p).value);
    }
  }

  lemma AdjustKeepsClients(s: State, p: nat, congested: bool)
    requires Inv(s) && p in s.clients
    ensures AdjustClient(s, p, congested).Done? && AdjustClient(s, p, congested).state.clients == s.clients
  {
    AdjustSafe(s, p, congested);
    CalmedInv(s, p);
    ServeKeepsClients(Calmed(s, p), p, congested);
  }

  lemma ServeKeepsClients(s: State, p: nat, congested: bool)
    requires p in s.procs
    ensures Serve(s, p, congested).Done? ==> Serve(s, p, congested).state.clients == s.clients
  {
    if AddCore(s, p).Done? {
      AddCoreKeepsClients(s, p);
    }
  }

  lemma SpareKeepsClients(s: State, p: nat)
    requires Inv(s) && p in s.clients
    ensures GrantSpare(s, p).Done? && GrantSpare(s, p).state.clients == s.clients
  {
    SpareSafe(s, p);
    if s.nrAvail != 0 {
      AddCoreKeepsClients(s, p);
    }
  }

  lemma JoinReady(s: State, p: nat, g: nat, n: nat)
    requires Inv(s) && MayJoin(s, p, g)
    ensures var m := Enrolled(s, p, g, n);
            && Inv(m) && p in m.clients && m.procs[p].active == [] && m.procs[p].guaranteed == g && m.nrAvail == s.nrAvail
  {
    EnrollForm(s, p, g, n);
    EnrollInv(s, Enrolled(s, p, g, n), p);
  }

  lemma FreeParkable(s: State, p: nat, k: nat)
    requires FreeLoop(s, p, k) && k < |s.procs[p].threads| && k !in s.procs[p].available
    ensures Parkable(s, Tid(p, k))
  {
    AvailableParked(s, p, k);
    UnparkedRuns(s, p, k);
    ParkReady(s, {p}, Tid(p, k));
  }
}
