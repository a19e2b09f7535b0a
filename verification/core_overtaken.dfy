/**
 * Preemption may take a process below its guarantee: the bursting flag compares the cores it holds, not those it will
 * keep. A run that does so, and the exact condition.
 */
module CoreOvertaken {
  import opened Collections
  import opened CoreState
  import opened CoreInvariant
  import opened CoreMoves
  import opened CoreSteps
  import opened CoreGuarantee
  import opened CoreAdd
  import opened CorePark
  import opened CoreLifecycle
  import opened CoreRuns

  /** The cores process v will have once the preemptions in flight are carried out. */
  function Keeps(s: State, v: nat): int
    requires v in s.procs
  {
    |s.procs[v].active| - s.procs[v].inflight
  }

  /**
   * A preemption leaves its victim at or above its guarantee if and only if the victim was to keep more than its guarantee
   * before.
   */
  lemma PreemptExact(s: State, core: nat, t: Tid)
    requires Reservable(s, t, core) && Busy(s, core) && s.hist[core].next.None? && s.hist[core].current.Some?
    requires s.hist[core].current.value.p in s.procs && s.hist[core].current.value.p != t.p
    ensures var v, s' := s.hist[core].current.value.p, Preempt(s, core, t);
            v in s'.procs && s'.procs[v].guaranteed == s.procs[v].guaranteed
            && (Keeps(s', v) >= s'.procs[v].guaranteed <==> Keeps(s, v) > s.procs[v].guaranteed)
  {
    PreemptForm(s, core, t);
  }

  /* What adding a core changes, apart from the core. */

  ghost predicate SameSizes(a: Proc, b: Proc) {
    a.guaranteed == b.guaranteed && a.threads == b.threads && a.active == b.active
  }

  /** One more kthread of the process is active, on the core. */
  ghost predicate Grown(a: Proc, b: Proc, core: nat) {
    && b.guaranteed == a.guaranteed && |b.threads| == |a.threads| && |b.active| == |a.active| + 1
    && forall k :: 0 <= k < |a.threads| ==> b.threads[k].core == a.threads[k].core || b.threads[k].core == core
  }

  ghost predicate SameElsewhere(s: State, s': State) {
    s'.online == s.online && s'.cpus == s.cpus && s'.clients == s.clients && s'.released == s.released
  }

  ghost predicate Resized(s: State, s': State, p: nat, core: nat) {
    && SameElsewhere(s, s') && s'.procs.Keys == s.procs.Keys && p in s.procs
    && Grown(s.procs[p], s'.procs[p], core)
    && forall q :: q in s.procs && q != p ==> SameSizes(s.procs[q], s'.procs[q])
  }

  /** Only process p's record changed, and in it nothing that counts here. */
  ghost predicate Touched(s: State, s': State, p: nat) {
    && SameElsewhere(s, s') && s'.hist == s.hist && s'.avail == s.avail && s'.nrAvail == s.nrAvail
    && p in s.procs && p in s'.procs && s'.procs == s.procs[p := s'.procs[p]] && SameSizes(s.procs[p], s'.procs[p])
  }

  lemma TouchedTwice(s: State, s1: State, s2: State, p: nat)
    requires Touched(s, s1, p) && Touched(s1, s2, p)
    ensures Touched(s, s2, p)
  {
  }

  lemma FlagTouches(s: State, p: nat)
    requires p in s.procs
    ensures Touched(s, s, p) && Touched(s, SetBursting(s, p), p)
    ensures Touched(s, SetOverloaded(s, p), p) && Touched(s, ClearOverloaded(s, p), p)
  {
    assert s.procs[p := s.procs[p]] == s.procs;
  }

  lemma PollTouches(s: State, t: Tid)
    requires t.p in s.procs
    ensures Touched(s, PollThread(s, t), t.p)
  {
    assert s.procs[t.p := s.procs[t.p]] == s.procs;
  }

  lemma CountTouches(s: State, v: nat)
    requires v in s.procs
    ensures Touched(s, WithProc(s, v, s.procs[v].(inflight := s.procs[v].inflight + 1)), v)
  {
  }

  lemma ActivateResizes(s: State, t: Tid, core: nat)
    requires Named(s, t)
    ensures Resized(s, WithProc(s, t.p, Activate(s.procs[t.p], t.k, core)), t.p, core)
  {
  }

  /** The marks and the poll slot that follow the activation. */
  lemma ReserveTouches(s1: State, t: Tid)
    requires t.p in s1.procs
    ensures var s2 := if |s1.procs[t.p].active| > s1.procs[t.p].guaranteed then SetBursting(s1, t.p) else s1;
            t.p in s2.procs && Touched(s1, PollThread(ClearOverloaded(s2, t.p), t), t.p)
  {
    var s2 := if |s1.procs[t.p].active| > s1.procs[t.p].guaranteed then SetBursting(s1, t.p) else s1;
    FlagTouches(s1, t.p);
    FlagTouches(s2, t.p);
    PollTouches(ClearOverloaded(s2, t.p), t);
    TouchedTwice(s1, s2, ClearOverloaded(s2, t.p), t.p);
    TouchedTwice(s1, ClearOverloaded(s2, t.p), PollThread(ClearOverloaded(s2, t.p), t), t.p);
  }

  lemma ReserveResizes(s: State, t: Tid, core: nat)
    requires Named(s, t)
    ensures var s' := ThreadReserve(s, t, core);
            Resized(s, s', t.p, core) && s'.hist == s.hist && s'.avail == s.avail && s'.nrAvail == s.nrAvail
  {
    var s1 := WithProc(s, t.p, Activate(s.procs[t.p], t.k, core));
    ActivateResizes(s, t, core);
    ReserveTouches(s1, t);
    ResizedThenTouched(s, s1, ThreadReserve(s, t, core), t.p, core, t.p);
  }

  lemma ResizedThenTouched(s: State, s1: State, s2: State, p: nat, core: nat, v: nat)
    requires Resized(s, s1, p, core) && Touched(s1, s2, v)
    ensures Resized(s, s2, p, core)
  {
  }

  lemma TouchedThenResized(s: State, s1: State, s2: State, p: nat, core: nat, v: nat)
    requires Touched(s, s1, v) && Resized(s1, s2, p, core)
    ensures Resized(s, s2, p, core)
  {
  }

  lemma WakeResizes(s: State, core: nat, t: Tid)
    requires WakeOnCore(s, core, t).Done? && Named(s, t) && Th(s, t).parked && s.hist[core].prev.None?
    ensures var s' := WakeOnCore(s, core, t).state;
            Resized(s, s', t.p, core) && s'.avail == s.avail - {core}
            && s'.hist == s.hist[core := Core(Some(t), s.hist[core].current, None)]
  {
    var s1 := CoreReserve(s, core, t);
    ReserveResizes(s1, t, core);
    assert Touched(s, s1.(hist := s.hist, avail := s.avail, nrAvail := s.nrAvail), t.p);
    assert Resized(s, ThreadReserve(s1, t, core), t.p, core);
  }

  /** The victim is marked overloaded and counts one more preemption. */
  function Robbed(s: State, v: nat): State
    requires v in s.procs
  {
    var m := SetOverloaded(s, v);
    WithProc(m, v, m.procs[v].(inflight := m.procs[v].inflight + 1))
  }

  lemma RobbedTouches(s: State, v: nat)
    requires v in s.procs
    ensures Touched(s, Robbed(s, v), v)
  {
    var m := SetOverloaded(s, v);
    FlagTouches(s, v);
    CountTouches(m, v);
    TouchedTwice(s, m, Robbed(s, v), v);
  }

  lemma PreemptResizes(s: State, core: nat, t: Tid)
    requires core < |s.hist| && Named(s, t) && s.hist[core].current.Some? && s.hist[core].current.value.p in s.procs
    ensures var s' := Preempt(s, core, t);
            Resized(s, s', t.p, core) && s'.avail == s.avail
            && s'.hist == s.hist[core := s.hist[core].(next := Some(t))]
  {
    var v := s.hist[core].current.value.p;
    var s1 := ThreadReserve(s, t, core);
    ReserveResizes(s, t, core);
    RobbedTouches(s1, v);
    ResizedThenTouched(s, s1, Robbed(s1, v), t.p, core, v);
    HistAside(s, Robbed(s1, v), Preempt(s, core, t), t.p, core);
  }

  lemma HistAside(s: State, s1: State, s2: State, p: nat, core: nat)
    requires Resized(s, s1, p, core) && s2 == s1.(hist := s2.hist)
    ensures Resized(s, s2, p, core)
  {
  }

  lemma PickTouches(s: State, p: nat, core: nat)
    requires p in s.procs && core < |s.hist|
    ensures Touched(s, PickThreadForProc(s, p, core).state, p)
  {
    assert s.procs[p := s.procs[p]] == s.procs;
  }

  /** Adding an idle core: it goes to a kthread of p. */
  lemma AddIdle(s: State, p: nat, core: nat)
    requires Inv(s) && p in s.clients && |s.procs[p].active| < |s.procs[p].threads| && s.nrAvail > 0
    requires PickCoreForProc(s, p) == Some(core) && core < |s.hist| && s.hist[core] == Core(None, None, None)
    ensures var r := AddCore(s, p);
            r.Done? && Inv(r.state) && Resized(s, r.state, p, core) && r.state.avail == s.avail - {core}
            && r.woken.Some? && r.woken.value.p == p && r.state.hist == s.hist[core := Core(r.woken, None, None)]
  {
    PickCoreExact(s, p);
    AddCoreKeeps(s, p);
    AddCoreForm(s, p, core);
    ClientProcOk(s, p);
    PickThreadExact(s, p, core);
    PickTouches(s, p, core);
    var picked := PickThreadForProc(s, p, core);
    WakeResizes(picked.state, core, picked.thread.value);
    TouchedThenResized(s, picked.state, AddCore(s, p).state, p, core, p);
  }

  /** Preempting a core: a kthread of p waits for it. */
  lemma AddBusy(s: State, p: nat, core: nat)
    requires Inv(s) && p in s.clients && |s.procs[p].active| < |s.procs[p].threads| && s.nrAvail == 0
    requires |s.procs[p].active| < s.procs[p].guaranteed && PickCoreForProc(s, p) == Some(core) && core < |s.hist|
    ensures var r := AddCore(s, p);
            r.Done? && Inv(r.state) && Resized(s, r.state, p, core) && r.state.avail == s.avail
            && r.woken.Some? && r.woken.value.p == p && r.state.hist == s.hist[core := s.hist[core].(next := r.woken)]
  {
    PickCoreExact(s, p);
    AddCoreKeeps(s, p);
    AddCoreForm(s, p, core);
    ClientProcOk(s, p);
    IdleCount(s, p);
    PickThreadExact(s, p, core);
    PickTouches(s, p, core);
    AddOnBusyForm(s, p, core);
    var picked := PickThreadForProc(s, p, core);
    PreemptResizes(picked.state, core, picked.thread.value);
    TouchedThenResized(s, picked.state, AddCore(s, p).state, p, core, p);
  }

  /* The run: three cores; process 0 (guarantee 1) holds two of them, process 1 (none) the third; 2 and 3 (1 each) join. */

  function Guarantee(q: nat): nat {
    if q == 1 then 0 else 1
  }

  function Joined(n: nat): seq<nat> {
    seq(n, i => i)
  }

  /** Processes 0 .. n-1 are attached. */
  ghost predicate Scene(s: State, n: nat) {
    && s.cpus == 3 && |s.hist| == 3 && s.online == {0, 1, 2} && s.released == [] && s.clients == Joined(n)
    && (forall q: nat :: q in s.procs <==> q < n)
    && (forall q: nat :: q < n ==> s.procs[q].guaranteed == Guarantee(q))
  }

  lemma {:induction false} SumJoined(procs: map<nat, Proc>, n: nat)
    requires n <= 3 && forall q: nat :: q < n ==> q in procs && procs[q].guaranteed == Guarantee(q)
    ensures forall q :: q in Joined(n) ==> q in procs
    ensures SumGuaranteed(procs, Joined(n)) == (if n == 0 then 0 else if n < 3 then 1 else 2)
  {
    if n > 0 {
      SumJoined(procs, n - 1);
      assert Joined(n) == Joined(n - 1) + [n - 1];
      SumSplit(procs, Joined(n - 1), [n - 1]);
    }
  }

  /** The next process is admitted. */
  lemma Admitted(s: State, n: nat)
    requires Inv(s) && Scene(s, n) && n <= 3
    ensures MayJoin(s, n, Guarantee(n))
  {
    SceneAdmits(s, n);
  }

  lemma SceneAdmits(s: State, n: nat)
    requires Scene(s, n) && n <= 3
    ensures n !in s.procs && n !in s.released && forall q :: q in s.clients ==> q in s.procs
    ensures Admissible(|s.online|, SumGuaranteed(s.procs, s.clients), Guarantee(n))
  {
    SumJoined(s.procs, n);
    assert |{0, 1, 2}| == 3;
  }

  /** Its kthreads are placed on core 0, and nothing else changes. */
  ghost predicate Enters(s: State, m: State, n: nat, k: nat) {
    && m == s.(procs := m.procs, clients := s.clients + [n])
    && n !in s.procs && n in m.procs && m.procs == s.procs[n := m.procs[n]]
    && m.procs[n].active == [] && |m.procs[n].threads| == k && m.procs[n].guaranteed == Guarantee(n)
    && (forall j :: 0 <= j < k ==> m.procs[n].threads[j].core == 0)
  }

  lemma EnrollEnters(s: State, n: nat, k: nat)
    requires Scene(s, n)
    ensures Enters(s, Enrolled(s, n, Guarantee(n), k), n, k)
  {
    assert NextAvail({0, 1, 2}, 3, 0) == 0;
  }

  lemma SceneGrows(s: State, m: State, n: nat, k: nat)
    requires Scene(s, n) && Enters(s, m, n, k)
    ensures Scene(m, n + 1)
  {
    assert Joined(n + 1) == Joined(n) + [n];
  }

  lemma SceneKept(s: State, s': State, p: nat, core: nat, n: nat)
    requires Scene(s, n) && |s'.hist| == 3 && Resized(s, s', p, core)
    ensures Scene(s', n)
  {
  }

  /** Where p's kthreads last ran. */
  ghost predicate AtZero(s: State, p: nat) {
    p in s.procs && forall j :: 0 <= j < |s.procs[p].threads| ==> s.procs[p].threads[j].core == 0
  }

  ghost predicate Wanting(s: State, p: nat) {
    p in s.procs && |s.procs[p].active| < |s.procs[p].threads|
  }

  /** A process whose kthreads last ran on core 0 gets the lowest idle core. */
  lemma PickLowest(s: State, p: nat, core: nat)
    requires ShapeOk(s) && HistOk(s) && ProcsOk(s) && Wanting(s, p) && AtZero(s, p) && s.nrAvail > 0
    requires core in s.avail && forall c :: c in s.avail ==> core <= c
    ensures PickCoreForProc(s, p) == Some(core)
  {
    PickCoreExact(s, p);
  }

  /** With no idle core it gets the lowest core that can be preempted. */
  lemma PickLowestBusy(s: State, p: nat, core: nat)
    requires ShapeOk(s) && HistOk(s) && ProcsOk(s) && Wanting(s, p) && AtZero(s, p) && s.nrAvail == 0
    requires PickCoreForProc(s, p).Some?
    requires Preemptable(s, core) && forall c: nat :: c < core ==> !Preemptable(s, c)
    ensures PickCoreForProc(s, p) == Some(core)
  {
    PickCoreExact(s, p);
  }

  ghost predicate Owned(s: State, c: nat, p: nat) {
    c < |s.hist| && s.hist[c].current.Some? && s.hist[c].current.value.p == p
  }

  /**
   * Processes below n are attached; process 0's cores are those below `cores`, those from `low` are idle, those below
   * `waited` are waited for.
   */
  ghost predicate Stage(s: State, n: nat, cores: nat, low: nat, waited: nat) {
    && Scene(s, n) && cores <= low <= 3 && cores <= 2 && waited <= 2
    && (forall c: nat :: c in s.avail <==> low <= c < 3)
    && (forall c :: 0 <= c < cores ==> Owned(s, c, 0))
    && (forall c :: 0 <= c < 3 ==> (s.hist[c].next.Some? <==> c < waited))
    && (forall c :: low <= c < 3 ==> s.hist[c] == Core(None, None, None))
    && (n > 0 ==> |s.procs[0].active| == cores && |s.procs[0].threads| == 2 && (low <= 1 ==> AtZero(s, 0)))
  }

  lemma StageEnters(s: State, m: State, n: nat, k: nat, cores: nat, low: nat, waited: nat)
    requires Stage(s, n, cores, low, waited) && Enters(s, m, n, k) && (n == 0 ==> k == 2 && cores == 0)
    ensures Stage(m, n + 1, cores, low, waited)
  {
    SceneGrows(s, m, n, k);
    forall c | 0 <= c < cores
      ensures Owned(m, c, 0)
    {
      assert Owned(s, c, 0);
    }
  }

  lemma StageGranted(s: State, s': State, n: nat, cores: nat, low: nat, p: nat, t: Option<Tid>)
    requires Stage(s, n, cores, low, 0) && low < 3 && Resized(s, s', p, low) && s'.avail == s.avail - {low}
    requires t.Some? && t.value.p == p && s'.hist == s.hist[low := Core(t, None, None)]
    requires p == 0 ==> low == cores < 2
    ensures Stage(s', n, if p == 0 then cores + 1 else cores, low + 1, 0)
  {
    SceneKept(s, s', p, low, n);
    forall c | 0 <= c < cores
      ensures Owned(s', c, 0)
    {
      assert Owned(s, c, 0);
    }
  }

  lemma StagePreempted(s: State, s': State, n: nat, waited: nat, p: nat, t: Option<Tid>)
    requires Stage(s, n, 2, 3, waited) && waited < 2 && p != 0 && Resized(s, s', p, waited) && s'.avail == s.avail
    requires t.Some? && s'.hist == s.hist[waited := s.hist[waited].(next := t)]
    ensures Stage(s', n, 2, 3, waited + 1)
  {
    SceneKept(s, s', p, waited, n);
    forall c | 0 <= c < 2
      ensures Owned(s', c, 0)
    {
      assert Owned(s, c, 0);
    }
  }

  lemma StageTouched(s: State, s': State, n: nat, cores: nat, low: nat, waited: nat, p: nat)
    requires Stage(s, n, cores, low, waited) && Touched(s, s', p)
    ensures Stage(s', n, cores, low, waited)
  {
    forall c | 0 <= c < cores
      ensures Owned(s', c, 0)
    {
      assert Owned(s, c, 0);
    }
  }

  /** Process 0 bursts with two cores, so those not waited for can be preempted. */
  lemma CanPreempt(s: State, n: nat, waited: nat)
    requires FlagsOk(s) && ClientsOk(s, {}) && Stage(s, n, 2, 3, waited) && n > 0 && waited < 2
    ensures Preemptable(s, waited) && forall c: nat :: c < waited ==> !Preemptable(s, c)
  {
    assert Joined(n)[0] == 0;
    assert Owned(s, waited, 0);
    NotKilled(s, {}, 0);
  }

  lemma IdleExact(s: State, n: nat, cores: nat, low: nat, waited: nat)
    requires ShapeOk(s) && Stage(s, n, cores, low, waited)
    ensures s.nrAvail > 0 <==> low < 3
  {
    if low < 3 {
      SubsetCount({low}, s.avail);
    } else {
      assert s.avail == {};
    }
  }

  lemma LastJoined(m: State, n: nat)
    requires Scene(m, n + 1)
    ensures n in m.clients && 0 in m.clients
  {
    assert Joined(n + 1)[n] == n && Joined(n + 1)[0] == 0;
  }

  /* Adding a core at a stage. */

  /** The step succeeded and led to such a stage. */
  ghost predicate Settles(r: Outcome, n: nat, cores: nat, low: nat, waited: nat) {
    r.Done? && Stage(r.state, n, cores, low, waited)
  }

  /** Process n is enrolled and waits for its first core. */
  ghost predicate Newcomer(m: State, n: nat) {
    && n in m.clients && Wanting(m, n) && AtZero(m, n)
    && m.procs[n].active == [] && m.procs[n].guaranteed == Guarantee(n)
  }

  /** The lowest idle core goes to process p. */
  lemma TakesIdle(m: State, n: nat, p: nat, cores: nat, cores': nat, low: nat)
    requires Inv(m) && Stage(m, n, cores, low, 0) && p in m.clients && Wanting(m, p) && AtZero(m, p)
    requires low < 3 && (p == 0 ==> low == cores < 2) && cores' == if p == 0 then cores + 1 else cores
    ensures m.nrAvail > 0 && Settles(AddCore(m, p), n, cores', low + 1, 0)
  {
    IdleExact(m, n, cores, low, 0);
    PickLowest(m, p, low);
    AddIdle(m, p, low);
    var r := AddCore(m, p);
    StageGranted(m, r.state, n, cores, low, p, r.woken);
  }

  /** With no core idle, process 0's lowest core not waited for is preempted. */
  lemma TakesBusy(m: State, n: nat, p: nat, waited: nat)
    requires Inv(m) && Stage(m, n, 2, 3, waited) && waited < 2 && n > 0 && p != 0
    requires Newcomer(m, p) && Guarantee(p) == 1
    ensures Settles(AddCore(m, p), n, 2, 3, waited + 1)
  {
    IdleExact(m, n, 2, 3, waited);
    CanPreempt(m, n, waited);
    PickCoreSucceeds(m, p);
    PickLowestBusy(m, p, waited);
    AddBusy(m, p, waited);
    var r := AddCore(m, p);
    StagePreempted(m, r.state, n, waited, p, r.woken);
  }

  /* The run, one event at a time. */

  /** The events lead from boot on three cores to s. */
  ghost predicate Came(es: seq<Event>, s: State) {
    Reaches(Boot(3, {0, 1, 2}), es, s)
  }

  lemma CameInv(es: seq<Event>, s: State)
    requires Came(es, s)
    ensures Inv(s)
  {
    BootInv(3, {0, 1, 2});
    ReachesInv(Boot(3, {0, 1, 2}), es, s);
  }

  lemma CameFurther(es: seq<Event>, s: State, e: Event)
    requires Came(es, s) && Inv(s) && Allowed(s, e) && Apply(s, e).Done?
    ensures Came(es + [e], Apply(s, e).state)
  {
    LongerRun(Boot(3, {0, 1, 2}), es, s, e, Apply(s, e).state);
  }

  /** Attaching process n: it is enrolled. */
  ghost predicate Enrols(s: State, n: nat, g: nat, k: nat, cores: nat, low: nat, waited: nat) {
    exists m :: m == Enrolled(s, n, g, k) && Inv(m) && Stage(m, n + 1, cores, low, waited) && Newcomer(m, n)
  }

  lemma EnrollInvSafe(es: seq<Event>, s: State, n: nat, k: nat)
    requires Came(es, s) && Scene(s, n) && n <= 3
    ensures Inv(Enrolled(s, n, Guarantee(n), k))
  {
    CameInv(es, s);
    Admitted(s, n);
    EnrollForm(s, n, Guarantee(n), k);
    EnrollInv(s, Enrolled(s, n, Guarantee(n), k), n);
  }

  lemma ArrivesStage(s: State, n: nat, k: nat, cores: nat, low: nat, waited: nat)
    requires Stage(s, n, cores, low, waited) && (n == 0 ==> k == 2 && cores == 0) && k > 0
    ensures var m := Enrolled(s, n, Guarantee(n), k); Stage(m, n + 1, cores, low, waited) && Newcomer(m, n)
  {
    var m := Enrolled(s, n, Guarantee(n), k);
    EnrollEnters(s, n, k);
    StageEnters(s, m, n, k, cores, low, waited);
    LastJoined(m, n);
  }

  lemma Arrives(es: seq<Event>, s: State, n: nat, k: nat, cores: nat, low: nat, waited: nat)
    requires Came(es, s) && Stage(s, n, cores, low, waited) && n <= 3 && (n == 0 ==> k == 2 && cores == 0) && k > 0
    ensures Enrols(s, n, Guarantee(n), k, cores, low, waited)
  {
    EnrollInvSafe(es, s, n, k);
    ArrivesStage(s, n, k, cores, low, waited);
  }

  lemma StartsIdle(s: State, n: nat, g: nat, k: nat, cores: nat, cores': nat, low: nat)
    requires Enrols(s, n, g, k, cores, low, 0)
    requires low < 3 && (n == 0 ==> low == cores < 2) && cores' == if n == 0 then cores + 1 else cores
    ensures s.nrAvail > 0 && Settles(AddClient(s, n, g, k), n + 1, cores', low + 1, 0)
  {
    var m :| m == Enrolled(s, n, g, k) && Inv(m) && Stage(m, n + 1, cores, low, 0) && Newcomer(m, n);
    TakesIdle(m, n + 1, n, cores, cores', low);
  }

  lemma StartsBusy(s: State, n: nat, g: nat, waited: nat)
    requires Enrols(s, n, g, 1, 2, 3, waited) && waited < 2 && n > 1
    ensures Settles(AddClient(s, n, g, 1), n + 1, 2, 3, waited + 1)
  {
    var m :| m == Enrolled(s, n, g, 1) && Inv(m) && Stage(m, n + 1, 2, 3, waited) && Newcomer(m, n);
    TakesBusy(m, n + 1, n, waited);
  }

  lemma CameAttached(es: seq<Event>, s: State, n: nat, g: nat, k: nat)
    requires Came(es, s) && Scene(s, n) && n <= 3 && g == Guarantee(n) && (g > 0 || s.nrAvail > 0)
    requires AddClient(s, n, g, k).Done?
    ensures Came(es + [Attach(n, g, k)], AddClient(s, n, g, k).state)
  {
    CameInv(es, s);
    Admitted(s, n);
    CameFurther(es, s, Attach(n, g, k));
  }

  lemma AttachIdle(es: seq<Event>, s: State, n: nat, g: nat, k: nat, cores: nat, cores': nat, low: nat) returns (s': State)
    requires Came(es, s) && Stage(s, n, cores, low, 0) && n <= 3 && g == Guarantee(n) && low < 3 && k > 0
    requires (n == 0 ==> k == 2 && low == cores == 0) && cores' == if n == 0 then cores + 1 else cores
    ensures Came(es + [Attach(n, g, k)], s') && Stage(s', n + 1, cores', low + 1, 0)
  {
    Arrives(es, s, n, k, cores, low, 0);
    StartsIdle(s, n, g, k, cores, cores', low);
    CameAttached(es, s, n, g, k);
    s' := AddClient(s, n, g, k).state;
  }

  lemma AttachBusy(es: seq<Event>, s: State, n: nat, g: nat, waited: nat) returns (s': State)
    requires Came(es, s) && Stage(s, n, 2, 3, waited) && 1 < n <= 3 && g == Guarantee(n) && waited < 2
    ensures Came(es + [Attach(n, g, 1)], s') && Stage(s', n + 1, 2, 3, waited + 1)
  {
    Arrives(es, s, n, 1, 2, 3, waited);
    StartsBusy(s, n, g, waited);
    CameAttached(es, s, n, g, 1);
    s' := AddClient(s, n, g, 1).state;
  }

  lemma OverloadStage(s: State, low: nat)
    requires Stage(s, 1, 1, low, 0)
    ensures 0 in s.clients && |s.procs[0].active| == s.procs[0].guaranteed
    ensures AdjustClient(s, 0, true) == Done(SetOverloaded(Calmed(s, 0), 0), None)
    ensures Stage(SetOverloaded(Calmed(s, 0), 0), 1, 1, low, 0)
  {
    var m := Calmed(s, 0);
    LastJoined(s, 0);
    FlagTouches(s, 0);
    FlagTouches(m, 0);
    TouchedTwice(s, m, SetOverloaded(m, 0), 0);
    StageTouched(s, SetOverloaded(m, 0), 1, 1, low, 0, 0);
  }

  lemma CameAdjusted(es: seq<Event>, s: State)
    requires Came(es, s) && 0 in s.clients && AdjustClient(s, 0, true).Done?
    ensures Came(es + [Adjust(0, true)], AdjustClient(s, 0, true).state)
  {
    CameInv(es, s);
    CameFurther(es, s, Adjust(0, true));
  }

  /** Process 0 reports congestion at its guarantee, and is put on the overloaded list. */
  lemma Overload(es: seq<Event>, s: State, low: nat) returns (s': State)
    requires Came(es, s) && Stage(s, 1, 1, low, 0)
    ensures Came(es + [Adjust(0, true)], s') && Stage(s', 1, 1, low, 0)
  {
    OverloadStage(s, low);
    CameAdjusted(es, s);
    s' := AdjustClient(s, 0, true).state;
  }

  lemma WantsSecond(s: State)
    requires Stage(s, 1, 1, 1, 0)
    ensures Wanting(s, 0) && AtZero(s, 0) && 0 in s.clients
  {
    LastJoined(s, 0);
  }

  lemma SecondCore(es: seq<Event>, s: State)
    requires Came(es, s) && Stage(s, 1, 1, 1, 0)
    ensures 0 in s.clients && s.nrAvail > 0 && Settles(AddCore(s, 0), 1, 2, 2, 0)
  {
    CameInv(es, s);
    WantsSecond(s);
    TakesIdle(s, 1, 0, 1, 2, 1);
  }

  lemma CameSpared(es: seq<Event>, s: State)
    requires Came(es, s) && 0 in s.clients && s.nrAvail > 0 && AddCore(s, 0).Done?
    ensures Came(es + [Spare(0)], AddCore(s, 0).state)
  {
    CameInv(es, s);
    CameFurther(es, s, Spare(0));
  }

  /** It gets a second core, one more than its guarantee. */
  lemma Burst(es: seq<Event>, s: State) returns (s': State)
    requires Came(es, s) && Stage(s, 1, 1, 1, 0)
    ensures Came(es + [Spare(0)], s') && Stage(s', 1, 2, 2, 0)
  {
    SecondCore(es, s);
    CameSpared(es, s);
    s' := AddCore(s, 0).state;
  }

  lemma BootStage()
    ensures Came([], Boot(3, {0, 1, 2})) && Stage(Boot(3, {0, 1, 2}), 0, 0, 0, 0)
  {
    EmptyRun(Boot(3, {0, 1, 2}));
  }

  /** Three cores; process 0 (guarantee 1) bursts to two, process 1 (none) takes the third, then 2 and 3 (1 each) join. */
  function Takeover(): seq<Event> {
    [Attach(0, 1, 2), Adjust(0, true), Spare(0), Attach(1, 0, 1), Attach(2, 1, 1), Attach(3, 1, 1)]
  }

  lemma Opening() returns (s: State)
    ensures Came([] + [Attach(0, 1, 2)] + [Adjust(0, true)] + [Spare(0)], s) && Stage(s, 1, 2, 2, 0)
  {
    BootStage();
    s := AttachIdle([], Boot(3, {0, 1, 2}), 0, 1, 2, 0, 1, 0);
    s := Overload([] + [Attach(0, 1, 2)], s, 1);
    s := Burst([] + [Attach(0, 1, 2)] + [Adjust(0, true)], s);
  }

  lemma Closing(es: seq<Event>, s: State) returns (s': State)
    requires Came(es, s) && Stage(s, 1, 2, 2, 0)
    ensures Came(es + [Attach(1, 0, 1)] + [Attach(2, 1, 1)] + [Attach(3, 1, 1)], s') && Stage(s', 4, 2, 3, 2)
  {
    s' := AttachIdle(es, s, 1, 0, 1, 2, 2, 2);
    s' := AttachBusy(es + [Attach(1, 0, 1)], s', 2, 1, 0);
    s' := AttachBusy(es + [Attach(1, 0, 1)] + [Attach(2, 1, 1)], s', 3, 1, 1);
  }

  lemma TakeoverForm()
    ensures [] + [Attach(0, 1, 2)] + [Adjust(0, true)] + [Spare(0)] + [Attach(1, 0, 1)] + [Attach(2, 1, 1)]
            + [Attach(3, 1, 1)] == Takeover()
  {
  }

  lemma KeepsNone(s: State)
    requires InflightOk(s) && Stage(s, 4, 2, 3, 2)
    ensures 0 in s.clients && 0 in s.procs && s.procs[0].guaranteed == 1 && Keeps(s, 0) <= 0
  {
    assert Owned(s, 0, 0) && Owned(s, 1, 0);
    SubsetCount({0, 1}, PreemptedSet(s, 0));
    LastJoined(s, 3);
  }

  /** An allowed run from boot after which process 0, a client with guarantee 1, is to keep none of its two cores. */
  lemma BelowGuarantee() returns (s: State)
    ensures Reaches(Boot(3, {0, 1, 2}), Takeover(), s)
    ensures 0 in s.clients && 0 in s.procs && s.procs[0].guaranteed == 1 && Keeps(s, 0) <= 0
    ensures |s.hist| == 3 && s.hist[0].next.Some?
  {
    s := Opening();
    s := Closing([] + [Attach(0, 1, 2)] + [Adjust(0, true)] + [Spare(0)], s);
    TakeoverForm();
    CameInv(Takeover(), s);
    KeepsNone(s);
  }
}
