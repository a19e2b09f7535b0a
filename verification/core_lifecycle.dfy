/** Processes joining and leaving: dp_clients_add_client, cores_init_proc, dp_clients_remove_client, cores_free_proc. */
module CoreLifecycle {
  import opened Collections
  import opened CoreState
  import opened CoreInvariant
  import opened CoreMoves
  import opened CoreSteps
  import opened CoreGuarantee
  import opened CoreAdd
  import opened CorePark

  /* Joining. */

  lemma FreshProcOk(g: nat, n: nat, core: nat)
    ensures ProcOk(FreshProc(g, n, core))
  {
    BelowElements(n);
    var pr := FreshProc(g, n, core);
    forall k: nat
      ensures k in pr.idle <==> k < n
    {
      if k < n { assert pr.idle[k] == k; }
    }
  }

  lemma {:induction false} SumAppend(procs: map<nat, Proc>, clients: seq<nat>, p: nat)
    requires forall q :: q in clients ==> q in procs
    requires p in procs
    ensures SumGuaranteed(procs, clients + [p]) == SumGuaranteed(procs, clients) + procs[p].guaranteed
  {
    if clients == [] {
      assert clients + [p] == [p];
    } else {
      SumAppend(procs, clients[1..], p);
      assert (clients + [p])[1..] == clients[1..] + [p];
    }
  }

  /** A number that no process carries is named nowhere. */
  lemma UnusedName(s: State, p: nat)
    requires HistOk(s) && OwnOk(s) && PolledOk(s) && p !in s.procs
    ensures CurSet(s, p) == {} && PrevSet(s, p) == {} && PendSet(s, p) == {} && PreemptedSet(s, p) == {} && PollSet(s, p) == {}
  {
  }

  ghost predicate EnrollRel(s: State, s': State, p: nat) {
    && p !in s.procs && p in s'.procs
    && s' == s.(procs := s.procs[p := s'.procs[p]], clients := s.clients + [p])
    && s'.procs[p].active == [] && s'.procs[p].inflight == 0 && s'.procs[p].refs == 1
    && !s'.procs[p].overloaded && !s'.procs[p].bursting && !s'.procs[p].kill
    && (forall k :: 0 <= k < |s'.procs[p].threads| ==> s'.procs[p].threads[k].parked)
  }

  lemma EnrollThreads(s: State, s': State, p: nat)
    requires EnrollRel(s, s', p)
    ensures forall u :: Unparked(s', u) <==> Unparked(s, u)
    ensures forall u :: Named(s, u) ==> Named(s', u) && Th(s', u) == Th(s, u)
  {
  }

  lemma EnrollOwn(s: State, s': State, p: nat)
    requires EnrollRel(s, s', p) && ShapeOk(s) && HistOk(s) && OwnOk(s) && PolledOk(s)
    ensures ShapeOk(s') && HistOk(s') && OwnOk(s') && PolledOk(s')
  {
    EnrollThreads(s, s', p);
    forall u | Unparked(s', u)
      ensures Placed(s', u)
    {
      assert Placed(s, u);
    }
  }

  lemma EnrollProcs(s: State, s': State, p: nat)
    requires EnrollRel(s, s', p) && ProcsOk(s) && ClientsOk(s, {}) && ReleasedOk(s)
    requires ProcOk(s'.procs[p]) && forall k :: 0 <= k < |s'.procs[p].threads| ==> s'.procs[p].threads[k].core in s.online
    requires p !in s.released
    ensures ProcsOk(s') && ClientsOk(s', {}) && ReleasedOk(s')
  {
    assert forall q :: q in s'.clients <==> q in s.clients || q == p;
  }

  lemma EnrollAdmitted(s: State, s': State, p: nat)
    requires EnrollRel(s, s', p) && forall q :: q in s.clients ==> q in s.procs
    requires SumGuaranteed(s.procs, s.clients) + s'.procs[p].guaranteed <= |s.online|
    ensures (forall q :: q in s'.clients ==> q in s'.procs) && AdmittedOk(s')
  {
    SumFrame(s.procs, s'.procs, s.clients);
    SumAppend(s'.procs, s.clients, p);
  }

  lemma EnrollFlags(s: State, s': State, p: nat)
    requires EnrollRel(s, s', p) && FlagsOk(s)
    ensures FlagsOk(s')
  {
  }

  lemma EnrollCounts(s: State, s': State, p: nat)
    requires EnrollRel(s, s', p) && InflightOk(s) && RefsOk(s, {}) && PendOk(s)
    requires CurSet(s, p) == {} && PrevSet(s, p) == {} && PendSet(s, p) == {} && PreemptedSet(s, p) == {} && PollSet(s, p) == {}
    ensures InflightOk(s') && RefsOk(s', {}) && PendOk(s')
  {
    assert forall q :: q in s'.clients <==> q in s.clients || q == p;
    forall q | q in s'.procs
      ensures s'.procs[q].refs == Refs(s', {}, q) && s'.procs[q].refs > 0
      ensures s'.procs[q].inflight == |PreemptedSet(s', q)| && |PendSet(s', q)| <= s'.procs[q].guaranteed
    {
      assert CurSet(s', q) == CurSet(s, q) && PrevSet(s', q) == PrevSet(s, q) && PollSet(s', q) == PollSet(s, q);
      assert PendSet(s', q) == PendSet(s, q) && PreemptedSet(s', q) == PreemptedSet(s, q);
    }
  }

  lemma EnrollInv(s: State, s': State, p: nat)
    requires Inv(s) && EnrollRel(s, s', p)
    requires ProcOk(s'.procs[p]) && forall k :: 0 <= k < |s'.procs[p].threads| ==> s'.procs[p].threads[k].core in s.online
    requires p !in s.released && SumGuaranteed(s.procs, s.clients) + s'.procs[p].guaranteed <= |s.online|
    ensures Inv(s')
  {
    UnusedName(s, p);
    EnrollOwn(s, s', p);
    EnrollProcs(s, s', p);
    EnrollAdmitted(s, s', p);
    EnrollFlags(s, s', p);
    EnrollCounts(s, s', p);
    NoHoleFrame(s, s');
  }

  lemma EnrollForm(s: State, p: nat, g: nat, n: nat)
    requires ShapeOk(s) && p !in s.procs
    ensures var s' := Enrolled(s, p, g, n);
            && EnrollRel(s, s', p) && ProcOk(s'.procs[p]) && s'.procs[p].guaranteed == g
            && |s'.procs[p].threads| == n
            && (forall k :: 0 <= k < |s'.procs[p].threads| ==> s'.procs[p].threads[k].core in s.online)
  {
    var first := NextAvail(s.online, s.cpus, 0);
    NextAvailFirst(s.online, s.cpus, 0);
    var c :| c in s.online;
    assert first in s.online;
    FreshProcOk(g, n, first);
  }

  /** A new process may be attached: fresh name and admissible guarantee. */
  ghost predicate MayJoin(s: State, p: nat, g: nat)
    requires Inv(s)
  {
    p !in s.procs && p !in s.released && Admissible(|s.online|, SumGuaranteed(s.procs, s.clients), g)
  }

  /**
   * Attaching a process and starting its first kthread keeps the invariant and reaches no BUG, when
   * the process has a guarantee of its own or a core is idle.
   */
  lemma AddClientSafe(s: State, p: nat, g: nat, n: nat)
    requires Inv(s) && MayJoin(s, p, g)
    requires g > 0 || s.nrAvail > 0
    ensures var r := AddClient(s, p, g, n); r.Done? && Inv(r.state)
  {
    EnrollForm(s, p, g, n);
    var s' := Enrolled(s, p, g, n);
    EnrollInv(s, s', p);
    AddCoreSafe(s', p);
  }

  /**
   * The first kthread woken is kthread 0, on whose run queue the runtime's first thread sits. It is about to run on the
   * chosen core or waits for it.
   */
  lemma FirstKthread(s: State, p: nat, g: nat, n: nat)
    requires Inv(s) && MayJoin(s, p, g) && (g > 0 || s.nrAvail > 0) && n > 0
    ensures AddClient(s, p, g, n).Done? && AddClient(s, p, g, n).woken == Some(Tid(p, 0))
    ensures Extended(Enrolled(s, p, g, n), p, AddClient(s, p, g, n))
  {
    EnrollForm(s, p, g, n);
    var m := Enrolled(s, p, g, n);
    EnrollInv(s, m, p);
    AddCoreSafe(m, p);
    StartsFirst(m, p, PickCoreForProc(m, p).value);
  }

  lemma StartsFirst(m: State, p: nat, core: nat)
    requires p in m.procs && core < |m.hist| && ProcOk(m.procs[p]) && m.procs[p].launched
    requires m.procs[p].idle != [] && m.procs[p].idle[0] == 0
    ensures PickThreadForProc(m, p, core).thread == Some(Tid(p, 0))
  {
    PickThreadExact(m, p, core);
  }

  /* Leaving. */

  lemma {:induction false} SumSplit(procs: map<nat, Proc>, a: seq<nat>, b: seq<nat>)
    requires forall q :: q in a ==> q in procs
    requires forall q :: q in b ==> q in procs
    ensures SumGuaranteed(procs, a + b) == SumGuaranteed(procs, a) + SumGuaranteed(procs, b)
  {
    if a == [] {
      assert a + b == b;
    } else {
      assert (a + b)[1..] == a[1..] + b;
      SumSplit(procs, a[1..], b);
    }
  }

  lemma DropClientElements(clients: seq<nat>, p: nat)
    requires Distinct(clients) && p in clients
    ensures Distinct(DropClient(clients, p))
    ensures forall q :: q in DropClient(clients, p) <==> q in clients && q != p
    ensures |DropClient(clients, p)| == |clients| - 1
    ensures forall j :: 0 <= j < |clients| - 1 && clients[j] != p ==> DropClient(clients, p)[j] == clients[j]
  {
    var i := IndexOf(clients, p);
    var last := |clients| - 1;
    var r := DropClient(clients, p);
    forall q
      ensures q in r <==> q in clients && q != p
    {
      if q in r {
        var n :| 0 <= n < |r| && r[n] == q;
      }
      if q in clients && q != p {
        var n :| 0 <= n < |clients| && clients[n] == q;
        if n == last { assert r[i] == q; } else { assert r[n] == q; }
      }
    }
  }

  /** Moving the last element into the place of p takes exactly p out of the sum. */
  lemma SumWithout(procs: map<nat, Proc>, a: seq<nat>, p: nat, b: seq<nat>, z: nat)
    requires forall q :: q in a + [p] + b + [z] ==> q in procs
    ensures forall q :: q in a + [z] + b ==> q in procs
    ensures SumGuaranteed(procs, a + [z] + b) + procs[p].guaranteed == SumGuaranteed(procs, a + [p] + b + [z])
  {
    assert p in a + [p] + b + [z];
    assert forall q :: q in a + [p] + b ==> q in a + [p] + b + [z];
    SumSplit(procs, a + [p] + b, [z]);
    SumSplit(procs, a + [p], b);
    SumSplit(procs, a, [p]);
    SumSplit(procs, a + [z], b);
    SumSplit(procs, a, [z]);
  }

  lemma DropClientSum(procs: map<nat, Proc>, clients: seq<nat>, p: nat)
    requires Distinct(clients) && p in clients
    requires forall q :: q in clients ==> q in procs
    ensures forall q :: q in DropClient(clients, p) ==> q in procs
    ensures SumGuaranteed(procs, DropClient(clients, p)) <= SumGuaranteed(procs, clients)
  {
    var i := IndexOf(clients, p);
    var last := |clients| - 1;
    if i < last {
      var a, b, z := clients[..i], clients[i + 1..last], clients[last];
      assert clients == a + [p] + b + [z];
      assert DropClient(clients, p) == a + [z] + b;
      SumWithout(procs, a, p, b, z);
    } else {
      assert clients == clients[..last] + [clients[last]];
      SumSplit(procs, clients[..last], [clients[last]]);
      assert DropClient(clients, p) == clients[..last];
    }
  }

  ghost predicate LeaveRel(s: State, s': State, p: nat) {
    && p in s.procs && p in s.clients
    && s' == s.(procs := s.procs[p := s.procs[p].(kill := true, overloaded := false, bursting := false)],
                clients := DropClient(s.clients, p),
                overloaded := s'.overloaded, bursting := s'.bursting)
    && s'.overloaded == (if s.procs[p].overloaded then Without(s.overloaded, p) else s.overloaded)
    && s'.bursting == (if s.procs[p].bursting then Without(s.bursting, p) else s.bursting)
  }

  lemma LeaveForm(s: State, p: nat)
    requires p in s.procs && p in s.clients
    ensures LeaveRel(s, Leaving(s, p), p)
  {
  }

  lemma LeaveThreads(s: State, s': State, p: nat)
    requires LeaveRel(s, s', p)
    ensures forall u :: Named(s', u) <==> Named(s, u)
    ensures forall u :: Named(s, u) ==> Th(s', u) == Th(s, u)
    ensures forall u :: Unparked(s', u) <==> Unparked(s, u)
  {
  }

  lemma LeaveOwn(s: State, s': State, p: nat)
    requires LeaveRel(s, s', p) && ShapeOk(s) && HistOk(s) && OwnOk(s) && PolledOk(s)
    ensures ShapeOk(s') && HistOk(s') && OwnOk(s') && PolledOk(s')
  {
    LeaveThreads(s, s', p);
    forall u | Unparked(s', u)
      ensures Placed(s', u)
    {
      assert Placed(s, u);
    }
  }

  lemma KilledProcOk(pr: Proc)
    requires ProcOk(pr)
    ensures ProcOk(pr.(kill := true, overloaded := false, bursting := false))
  {
  }

  lemma LeaveProcs(s: State, s': State, p: nat)
    requires LeaveRel(s, s', p) && ProcsOk(s) && ClientsOk(s, {}) && AdmittedOk(s) && ReleasedOk(s)
    ensures ProcsOk(s') && ClientsOk(s', {p}) && AdmittedOk(s') && ReleasedOk(s')
  {
    KilledProcOk(s.procs[p]);
    DropClientElements(s.clients, p);
    DropClientSum(s.procs, s.clients, p);
    SumFrame(s.procs, s'.procs, s'.clients);
  }

  lemma LeaveFlags(s: State, s': State, p: nat)
    requires LeaveRel(s, s', p) && FlagsOk(s)
    ensures FlagsOk(s')
  {
    WithoutElements(s.overloaded, p);
    WithoutElements(s.bursting, p);
  }

  lemma LeaveCounts(s: State, s': State, p: nat)
    requires LeaveRel(s, s', p) && InflightOk(s) && RefsOk(s, {}) && PendOk(s) && Distinct(s.clients)
    ensures InflightOk(s') && RefsOk(s', {p}) && PendOk(s')
  {
    DropClientElements(s.clients, p);
    forall q | q in s'.procs
      ensures s'.procs[q].refs == Refs(s', {p}, q) && s'.procs[q].refs > 0
      ensures s'.procs[q].inflight == |PreemptedSet(s', q)| && |PendSet(s', q)| <= s'.procs[q].guaranteed
    {
      assert CurSet(s', q) == CurSet(s, q) && PrevSet(s', q) == PrevSet(s, q) && PollSet(s', q) == PollSet(s, q);
      assert PendSet(s', q) == PendSet(s, q) && PreemptedSet(s', q) == PreemptedSet(s, q);
    }
  }

  lemma LeaveBase(s: State, s': State, p: nat)
    requires Inv(s) && LeaveRel(s, s', p)
    ensures Base(s', {p}) && NoHole(s')
  {
    LeaveOwn(s, s', p);
    LeaveProcs(s, s', p);
    LeaveFlags(s, s', p);
    LeaveCounts(s, s', p);
    NoHoleFrame(s, s');
  }

  /* The loop of cores_free_proc. */

  /** p runs on its cores only; whoever waits for one of them stays; its kthreads below k are parked. */
  ghost predicate Departing(s: State, p: nat) {
    && Base(s, {p}) && NoHole(s)
    && p in s.procs
    && PendSet(s, p) == {}
    && (forall c :: 0 <= c < |s.hist| && s.hist[c].current.Some? && s.hist[c].current.value.p == p ==> WaiterStays(s, c))
  }

  ghost predicate ParkedBelow(threads: seq<Thread>, k: nat) {
    forall j :: 0 <= j < k && j < |threads| ==> threads[j].parked
  }

  ghost predicate FreeLoop(s: State, p: nat, k: nat) {
    Departing(s, p) && ParkedBelow(s.procs[p].threads, k)
  }

  lemma UnparkedRuns(s: State, p: nat, k: nat)
    requires OwnOk(s) && HistOk(s) && PendSet(s, p) == {} && p in s.procs
    requires k < |s.procs[p].threads| && !s.procs[p].threads[k].parked
    ensures Running(s, Tid(p, k))
  {
    var t := Tid(p, k);
    assert Unparked(s, t);
    assert Placed(s, t);
    var c := Th(s, t).core;
    assert s.hist[c].next == Some(t) ==> c in PendSet(s, p);
  }

  lemma CedeOfProc(s: State, s': State, t: Tid)
    requires CedeRel(s, s', t) && ProcOk(s.procs[t.p])
    ensures t.p in s'.procs && |s'.procs[t.p].threads| == |s.procs[t.p].threads| && s'.procs[t.p].threads[t.k].parked
    ensures forall j :: 0 <= j < |s.procs[t.p].threads| && s.procs[t.p].threads[j].parked ==> s'.procs[t.p].threads[j].parked
    ensures s'.hist == s.hist && s'.clients == s.clients
    ensures forall q :: q in s'.procs ==> q in s.procs && s'.procs[q].removed == s.procs[q].removed
  {
  }

  /** What the loop still needs holds after the core has been passed on. */
  lemma FreeLoopFrame(s: State, m: State, s': State, p: nat, core: nat)
    requires HistOk(s) && OwnOk(s)
    requires m.hist == s.hist && m.clients == s.clients
    requires forall q :: q in m.procs ==> q in s.procs && m.procs[q].removed == s.procs[q].removed
    requires Undisturbed(m, s', core, p) && s'.hist[core].next.None? && HistOk(s') && OwnOk(s')
    requires PendSet(s, p) == {}
    requires forall c :: 0 <= c < |s.hist| && s.hist[c].current.Some? && s.hist[c].current.value.p == p ==> WaiterStays(s, c)
    ensures PendSet(s', p) == {}
    ensures forall c :: 0 <= c < |s'.hist| && s'.hist[c].current.Some? && s'.hist[c].current.value.p == p ==> WaiterStays(s', c)
  {
    forall c | 0 <= c < |s'.hist| && s'.hist[c].current.Some? && s'.hist[c].current.value.p == p
      ensures WaiterStays(s', c)
    {
      if c != core {
        assert s'.hist[c] == s.hist[c];
        assert WaiterStays(s, c);
      }
    }
    assert forall c :: c in PendSet(s', p) ==> c in PendSet(s, p);
  }

  lemma FreeStepParts(s: State, p: nat, k: nat) returns (m: State)
    requires FreeLoop(s, p, k) && k < |s.procs[p].threads| && !s.procs[p].threads[k].parked
    ensures CedeRel(s, m, Tid(p, k))
    ensures var r := Park(s, Tid(p, k), false, true); Settled(m, r, {p}, Th(s, Tid(p, k)).core)
  {
    var t := Tid(p, k);
    UnparkedRuns(s, p, k);
    ParkDefined(s, {p}, t);
    m := ParkForm(s, t, false, true);
    CedeRelBase(s, m, {p}, t);
    CededCoreSettles(s, m, {p}, t);
  }

  lemma FreeStep(s: State, p: nat, k: nat) returns (s': State)
    requires FreeLoop(s, p, k) && k < |s.procs[p].threads| && !s.procs[p].threads[k].parked
    ensures var r := Park(s, Tid(p, k), false, true); r.Done? && r.state == s'
    ensures FreeLoop(s', p, k + 1) && |s'.procs[p].threads| == |s.procs[p].threads|
  {
    var t := Tid(p, k);
    var m := FreeStepParts(s, p, k);
    s' := Park(s, t, false, true).state;
    ClientProcOk(s, p);
    CedeOfProc(s, m, t);
    FreeLoopFrame(s, m, s', p, Th(s, t).core);
    MoreParked(s, m, s', p, Th(s, t).core, k);
  }

  lemma MoreParked(s: State, m: State, s': State, p: nat, core: nat, k: nat)
    requires p in s.procs && p in m.procs && |m.procs[p].threads| == |s.procs[p].threads| && k < |s.procs[p].threads|
    requires m.procs[p].threads[k].parked && ParkedBelow(s.procs[p].threads, k)
    requires forall j :: 0 <= j < |s.procs[p].threads| && s.procs[p].threads[j].parked ==> m.procs[p].threads[j].parked
    requires Undisturbed(m, s', core, p)
    ensures ParkedBelow(s'.procs[p].threads, k + 1) && |s'.procs[p].threads| == |s.procs[p].threads|
  {
  }

  lemma AvailableParked(s: State, p: nat, k: nat)
    requires ProcsOk(s) && p in s.procs && k < |s.procs[p].threads|
    ensures k in s.procs[p].available <==> s.procs[p].threads[k].parked
  {
    ClientProcOk(s, p);
  }

  lemma FreeLoopSkip(s: State, p: nat, k: nat)
    requires FreeLoop(s, p, k) && (k < |s.procs[p].threads| ==> s.procs[p].threads[k].parked)
    ensures FreeLoop(s, p, k + 1)
    ensures k >= |s.procs[p].threads| ==> FreeLoop(s, p, |s.procs[p].threads|)
  {
  }

  lemma FreeTurn(s: State, p: nat, k: nat, n: nat)
    requires FreeLoop(s, p, k) && |s.procs[p].threads| == n && k < n
    ensures var r := FreeKthread(s, p, k);
            r.Done? && FreeLoop(r.state, p, k + 1) && |r.state.procs[p].threads| == n
  {
    AvailableParked(s, p, k);
    if k in s.procs[p].available {
      FreeLoopSkip(s, p, k);
    } else {
      var s' := FreeStep(s, p, k);
    }
  }

  lemma {:induction false} LoopKeeps(step: (State, nat) -> Outcome, inv: (State, nat) -> bool, s: State, k: nat, n: nat)
    requires inv(s, k) && k <= n
    requires forall m: State, i: nat :: inv(m, i) && i < n ==> step(m, i).Done? && inv(step(m, i).state, i + 1)
    ensures var r := ForEachKthread(step, s, k, n); r.Done? && inv(r.state, n)
    decreases n - k
  {
    if k < n {
      LoopKeeps(step, inv, step(s, k).state, k + 1, n);
    }
  }

  ghost function FreeLoopOf(p: nat, n: nat): (State, nat) -> bool {
    (m: State, k: nat) => FreeLoop(m, p, k) && |m.procs[p].threads| == n
  }

  lemma FreeTurnKeeps(m: State, p: nat, i: nat, n: nat)
    requires FreeLoopOf(p, n)(m, i) && i < n
    ensures FreeTurnOf(p)(m, i).Done? && FreeLoopOf(p, n)(FreeTurnOf(p)(m, i).state, i + 1)
  {
    FreeTurn(m, p, i, n);
  }

  lemma FreeTurns(p: nat, n: nat)
    ensures forall m: State, i: nat :: FreeLoopOf(p, n)(m, i) && i < n ==>
              FreeTurnOf(p)(m, i).Done? && FreeLoopOf(p, n)(FreeTurnOf(p)(m, i).state, i + 1)
  {
    forall m: State, i: nat | FreeLoopOf(p, n)(m, i) && i < n
      ensures FreeTurnOf(p)(m, i).Done? && FreeLoopOf(p, n)(FreeTurnOf(p)(m, i).state, i + 1)
    {
      FreeTurnKeeps(m, p, i, n);
    }
  }

  /** cores_free_proc parks every kthread of the process, reaching no BUG. */
  lemma FreeKthreadsSafe(s: State, p: nat, n: nat)
    requires FreeLoop(s, p, 0) && |s.procs[p].threads| == n
    ensures var r := FreeKthreads(s, p, n);
            r.Done? && FreeLoop(r.state, p, n) && |r.state.procs[p].threads| == n
  {
    FreeTurns(p, n);
    assert FreeLoopOf(p, n)(s, 0);
    LoopKeeps(FreeTurnOf(p), FreeLoopOf(p, n), s, 0, n);
  }

  /* Dropping the client table's reference. */

  lemma AllParkedInactive(s: State, p: nat)
    requires p in s.procs && ProcOk(s.procs[p])
    requires forall j :: 0 <= j < |s.procs[p].threads| ==> s.procs[p].threads[j].parked
    ensures s.procs[p].active == []
  {
    if s.procs[p].active != [] {
      ActiveUnparked(s.procs[p]);
    }
  }

  lemma ActiveUnparked(pr: Proc)
    requires ProcOk(pr) && pr.active != []
    ensures exists k: nat :: k < |pr.threads| && !pr.threads[k].parked
  {
    assert !pr.threads[pr.active[0]].parked;
  }

  ghost predicate GoneRel(s: State, s': State, p: nat) {
    && p in s.procs
    && s' == s.(procs := s'.procs, released := s'.released)
    && (if s.procs[p].refs == 1 then
          s'.procs == s.procs - {p} && s'.released == s.released + [p]
        else
          s'.procs == s.procs[p := s.procs[p].(refs := s.procs[p].refs - 1)] && s'.released == s.released)
    && s.procs[p].active == []
    && (forall j :: 0 <= j < |s.procs[p].threads| ==> s.procs[p].threads[j].parked)
  }

  lemma GoneThreads(s: State, s': State, p: nat)
    requires GoneRel(s, s', p)
    ensures forall u :: Unparked(s', u) <==> Unparked(s, u)
    ensures forall u :: Named(s, u) && u.p in s'.procs ==> Named(s', u) && Th(s', u) == Th(s, u)
  {
  }

  /** If the table's reference was the last, no history slot names the process. */
  lemma GoneUnnamed(s: State, p: nat)
    requires HistOk(s) && RefsOk(s, {p}) && p in s.procs && s.procs[p].refs == 1
    ensures CurSet(s, p) == {} && PrevSet(s, p) == {}
  {
    assert Refs(s, {p}, p) == 1;
  }

  lemma GoneHist(s: State, s': State, p: nat)
    requires GoneRel(s, s', p) && HistOk(s)
    requires s.procs[p].refs == 1 ==> CurSet(s, p) == {} && PrevSet(s, p) == {}
    ensures HistOk(s')
  {
    forall c | 0 <= c < |s'.hist|
      ensures s'.hist[c].current.Some? ==> Named(s', s'.hist[c].current.value)
      ensures s'.hist[c].prev.Some? ==> Named(s', s'.hist[c].prev.value)
    {
      if s.hist[c].current.Some? { assert c in CurSet(s, s.hist[c].current.value.p); }
      if s.hist[c].prev.Some? { assert c in PrevSet(s, s.hist[c].prev.value.p); }
    }
  }

  lemma GoneOwn(s: State, s': State, p: nat)
    requires GoneRel(s, s', p) && OwnOk(s) && PolledOk(s)
    ensures OwnOk(s') && PolledOk(s')
  {
    GoneThreads(s, s', p);
    forall u | Unparked(s', u)
      ensures Placed(s', u)
    {
      assert Placed(s, u);
    }
  }

  lemma GoneProcs(s: State, s': State, p: nat)
    requires GoneRel(s, s', p) && ProcsOk(s) && ClientsOk(s, {p}) && AdmittedOk(s) && ReleasedOk(s)
    ensures ProcsOk(s') && ClientsOk(s', {}) && AdmittedOk(s') && ReleasedOk(s')
  {
    SumFrame(s.procs, s'.procs, s.clients);
  }

  lemma GoneFlags(s: State, s': State, p: nat)
    requires GoneRel(s, s', p) && FlagsOk(s) && s.procs[p].kill
    ensures FlagsOk(s')
  {
  }

  lemma GoneCounts(s: State, s': State, p: nat)
    requires GoneRel(s, s', p) && InflightOk(s) && RefsOk(s, {p}) && PendOk(s) && p !in s.clients
    ensures InflightOk(s') && RefsOk(s', {}) && PendOk(s')
  {
    forall q | q in s'.procs
      ensures s'.procs[q].refs == Refs(s', {}, q) && s'.procs[q].refs > 0
      ensures s'.procs[q].inflight == |PreemptedSet(s', q)| && |PendSet(s', q)| <= s'.procs[q].guaranteed
    {
      assert CurSet(s', q) == CurSet(s, q) && PrevSet(s', q) == PrevSet(s, q) && PollSet(s', q) == PollSet(s, q);
      assert PendSet(s', q) == PendSet(s, q) && PreemptedSet(s', q) == PreemptedSet(s, q);
      assert s.procs[q].refs == Refs(s, {p}, q);
    }
  }

  lemma GoneInv(s: State, s': State, p: nat)
    requires Base(s, {p}) && NoHole(s) && GoneRel(s, s', p)
    ensures Inv(s')
  {
    DyingNamed(s, {p});
    if s.procs[p].refs == 1 {
      GoneUnnamed(s, p);
    }
    GoneHist(s, s', p);
    GoneOwn(s, s', p);
    GoneProcs(s, s', p);
    GoneFlags(s, s', p);
    GoneCounts(s, s', p);
    NoHoleFrame(s, s');
  }

  /** A client may leave: nobody of its own waits for a core, and whoever waits for its cores stays. */
  ghost predicate MayLeave(s: State, p: nat) {
    && p in s.clients
    && PendSet(s, p) == {}
    && (forall c :: 0 <= c < |s.hist| && s.hist[c].current.Some? && s.hist[c].current.value.p == p && s.hist[c].next.Some? ==>
          s.hist[c].next.value.p in s.procs && !s.procs[s.hist[c].next.value.p].removed)
  }

  lemma WaiterStillClient(s: State, s': State, p: nat, c: nat)
    requires LeaveRel(s, s', p) && MayLeave(s, p) && ShapeOk(s) && HistOk(s) && OwnOk(s) && ProcsOk(s) && ClientsOk(s, {})
    requires 0 <= c < |s.hist| && Distinct(s.clients)
    requires s.hist[c].current.Some? && s.hist[c].current.value.p == p
    ensures WaiterStays(s', c)
  {
    DropClientElements(s.clients, p);
    if s.hist[c].next.Some? {
      var n := s.hist[c].next.value;
      assert n.p == p ==> c in PendSet(s, p);
      assert s.procs[n.p].active != [];
    }
  }

  lemma LeaveStartsLoop(s: State, s': State, p: nat)
    requires Inv(s) && LeaveRel(s, s', p) && MayLeave(s, p)
    ensures FreeLoop(s', p, 0)
  {
    LeaveBase(s, s', p);
    assert PendSet(s', p) == PendSet(s, p);
    forall c | 0 <= c < |s'.hist| && s'.hist[c].current.Some? && s'.hist[c].current.value.p == p
      ensures WaiterStays(s', c)
    {
      WaiterStillClient(s, s', p, c);
    }
  }

  lemma LoopEnds(s: State, p: nat)
    requires p in s.procs && FreeLoop(s, p, |s.procs[p].threads|)
    ensures GoneRel(s, PutRef(s, p), p)
  {
    ClientProcOk(s, p);
    AllParkedInactive(s, p);
  }

  lemma RemoveClientForm(s: State, p: nat, m: State)
    requires p in s.clients && p in s.procs && p in m.procs
    requires var r := FreeKthreads(Leaving(s, p), p, |s.procs[p].threads|); r.Done? && r.state == m
    ensures RemoveClient(s, p) == Done(PutRef(m, p), None)
  {
  }

  /** Detaching a process parks all its kthreads, drops the table's reference and keeps the invariant. */
  lemma RemoveClientSafe(s: State, p: nat)
    requires Inv(s) && MayLeave(s, p)
    ensures var r := RemoveClient(s, p); r.Done? && Inv(r.state) && p !in r.state.clients
  {
    NotKilled(s, {}, p);
    var s1 := Leaving(s, p);
    LeaveForm(s, p);
    LeaveStartsLoop(s, s1, p);
    var n := |s.procs[p].threads|;
    FreeKthreadsSafe(s1, p, n);
    var m := FreeKthreads(s1, p, n).state;
    RemoveClientForm(s, p, m);
    LoopEnds(m, p);
    DyingNamed(m, {p});
    GoneInv(m, PutRef(m, p), p);
  }
}
