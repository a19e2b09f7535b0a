/** Runs of the daemon: every sequence of the allocator's entry points keeps the invariant and reaches no BUG. */
module CoreRuns {
  import opened Collections
  import opened CoreState
  import opened CoreInvariant
  import opened CoreMoves
  import opened CoreSteps
  import opened CoreGuarantee
  import opened CoreAdd
  import opened CorePark
  import opened CoreLifecycle

  /** The state after cores_init: every online core idle, no process attached. */
  function Boot(cpus: nat, online: set<nat>): State {
    State(cpus, online, online, |online|, seq(cpus, c => Core(None, None, None)), map[], [], [], [], map[], [], [])
  }

  lemma BootInv(cpus: nat, online: set<nat>)
    requires online != {} && forall c :: c in online ==> c < cpus
    ensures Inv(Boot(cpus, online))
  {
  }

  /** What the daemon's main loop can do next. */
  datatype Event =
    | Attach(p: nat, guaranteed: nat, threadCount: nat)
    | Adjust(p: nat, congested: bool)
    | Spare(p: nat)
    | Send(p: nat)
    | Parked(t: Tid, inFlight: bool)
    | Mark(p: nat)
    | Detach(p: nat)

  function Apply(s: State, e: Event): Outcome {
    match e
    case Attach(p, g, n) => AddClient(s, p, g, n)
    case Adjust(p, congested) => AdjustClient(s, p, congested)
    case Spare(p) => GrantSpare(s, p)
    case Send(p) => RxSend(s, p)
    case Parked(t, inFlight) => Park(s, t, inFlight, false)
    case Mark(p) => MarkRemoved(s, p)
    case Detach(p) => RemoveClient(s, p)
  }

  /**
   * What the environment has to respect: only clients are served, only running kthreads park, a
   * process joins with a guarantee or onto an idle core, and a removed process waits for no core.
   */
  ghost predicate Allowed(s: State, e: Event)
    requires Inv(s)
  {
    match e
    case Attach(p, g, n) => MayJoin(s, p, g) && (g > 0 || s.nrAvail > 0)
    case Adjust(p, congested) => p in s.clients
    case Spare(p) => p in s.clients
    case Send(p) => p in s.clients
    case Parked(t, inFlight) => Running(s, t) && WaiterNotRemoved(s, Th(s, t).core)
    case Mark(p) => p in s.clients
    case Detach(p) => MayLeave(s, p)
  }

  /** Whoever waits for the core has not been removed meanwhile. */
  ghost predicate WaiterNotRemoved(s: State, core: nat) {
    core < |s.hist| && s.hist[core].next.Some? ==>
      s.hist[core].next.value.p in s.procs && !s.procs[s.hist[core].next.value.p].removed
  }

  /** A process's preempted cores are cores it runs on, so `active - inflight` never wraps. */
  lemma InflightWithinActive(s: State, p: nat)
    requires Inv(s) && p in s.procs
    ensures 0 <= s.procs[p].inflight <= |s.procs[p].active|
  {
    PreemptedAreRunning(s, p);
    OccupiedWithinActive(s, p, PreemptedSet(s, p));
  }

  lemma PreemptedAreRunning(s: State, p: nat)
    requires NoHole(s) && HistOk(s)
    ensures forall c :: c in PreemptedSet(s, p) ==> c < |s.hist| && Busy(s, c) && s.hist[c].current.Some? && s.hist[c].current.value.p == p
  {
  }

  /** The unsigned 32-bit subtraction in cores_adjust_assignments is exact. */
  lemma SpareExact(s: State, p: nat)
    requires Inv(s) && p in s.procs && |s.procs[p].active| < 0x1_0000_0000
    ensures (|s.procs[p].active| - s.procs[p].inflight) % 0x1_0000_0000 == |s.procs[p].active| - s.procs[p].inflight
  {
    InflightWithinActive(s, p);
    SmallMod(|s.procs[p].active| - s.procs[p].inflight);
  }

  lemma SmallMod(x: int)
    requires 0 <= x < 0x1_0000_0000
    ensures x % 0x1_0000_0000 == x
  {
  }

  lemma AddCoreKeeps(s: State, p: nat)
    requires Inv(s) && p in s.clients
    requires |s.procs[p].active| < s.procs[p].guaranteed || s.nrAvail > 0
    ensures AddCore(s, p).Done? && Inv(AddCore(s, p).state)
  {
    AddCoreSafe(s, p);
  }

  /* What one client's turn does. */

  /** Process p is on the overloaded list, in front if it was not there before; nothing else differs. */
  ghost predicate Marked(s: State, s': State, p: nat) {
    && p in s.procs && p in s'.procs && s'.procs[p].overloaded && s'.procs == s.procs[p := s.procs[p].(overloaded := true)]
    && s'.overloaded == (if p in s.overloaded then s.overloaded else [p] + s.overloaded)
    && s' == s.(procs := s'.procs, overloaded := s'.overloaded)
  }

  lemma MarkExact(s: State, p: nat)
    requires FlagsOk(s) && p in s.procs
    ensures Marked(s, SetOverloaded(s, p), p)
  {
    if s.procs[p].overloaded {
      assert s.procs[p] == s.procs[p].(overloaded := true);
      assert s.procs == s.procs[p := s.procs[p]];
    }
  }

  /** A process that asks for a core gets one, unless all its kthreads are active. */
  ghost predicate Supplied(s: State, p: nat, r: Outcome) {
    p in s.procs && if |s.procs[p].active| < |s.procs[p].threads| then Extended(s, p, r) else r == Done(s, None)
  }

  lemma AddCoreSupplies(s: State, p: nat)
    requires Inv(s) && p in s.clients
    requires |s.procs[p].active| < s.procs[p].guaranteed || s.nrAvail > 0
    ensures Supplied(s, p, AddCore(s, p))
  {
    IdleCount(s, p);
    AddCoreSafe(s, p);
  }

  /** A congested client below its guarantee is given a core; at or above it, it is marked; otherwise nothing happens. */
  ghost predicate Served(m: State, p: nat, congested: bool, r: Outcome) {
    && p in m.procs
    && (!congested ==> r == Done(m, None))
    && (congested && |m.procs[p].active| < m.procs[p].guaranteed ==> Supplied(m, p, r))
    && (congested && |m.procs[p].active| >= m.procs[p].guaranteed ==> r.Done? && r.woken.None? && Marked(m, r.state, p))
  }

  lemma ServeSafe(s: State, p: nat, congested: bool)
    requires Inv(s) && p in s.clients
    ensures p in s.procs
    ensures var r := Serve(s, p, congested); r.Done? && Inv(r.state) && Served(s, p, congested, r)
  {
    NotKilled(s, {}, p);
    if congested {
      if |s.procs[p].active| < s.procs[p].guaranteed {
        AddCoreKeeps(s, p);
        AddCoreSupplies(s, p);
      } else {
        SetOverloadedInv(s, {}, p);
        MarkExact(s, p);
      }
    }
  }

  lemma CalmedInv(s: State, p: nat)
    requires Inv(s) && p in s.clients
    ensures p in s.procs && Inv(Calmed(s, p)) && p in Calmed(s, p).clients
  {
    NotKilled(s, {}, p);
    ClearOverloadedInv(s, {}, p);
  }

  /** Process p is off the overloaded list; nothing else differs. */
  ghost predicate Unmarked(s: State, s': State, p: nat) {
    && p in s.procs && s'.procs == s.procs[p := s.procs[p].(overloaded := false)]
    && p !in s'.overloaded && (forall q :: q != p ==> (q in s'.overloaded <==> q in s.overloaded))
    && s' == s.(procs := s'.procs, overloaded := s'.overloaded)
  }

  /** The mark goes exactly when the client keeps at least one core once the preemptions in flight are carried out. */
  lemma CalmedExact(s: State, p: nat)
    requires Inv(s) && p in s.procs && |s.procs[p].active| < 0x1_0000_0000
    ensures if |s.procs[p].active| > s.procs[p].inflight then Unmarked(s, Calmed(s, p), p) else Calmed(s, p) == s
  {
    InflightWithinActive(s, p);
    CalmedForm(s, p);
  }

  lemma CalmedForm(s: State, p: nat)
    requires FlagsOk(s) && p in s.procs && 0 <= s.procs[p].inflight <= |s.procs[p].active| < 0x1_0000_0000
    ensures if |s.procs[p].active| > s.procs[p].inflight then Unmarked(s, Calmed(s, p), p) else Calmed(s, p) == s
  {
    SmallMod(|s.procs[p].active| - s.procs[p].inflight);
    UnmarkExact(s, p);
  }

  lemma UnmarkExact(s: State, p: nat)
    requires FlagsOk(s) && p in s.procs
    ensures Unmarked(s, ClearOverloaded(s, p), p)
  {
    WithoutElements(s.overloaded, p);
    if !s.procs[p].overloaded {
      assert s.procs[p] == s.procs[p].(overloaded := false);
      assert s.procs == s.procs[p := s.procs[p]];
    }
  }

  /** The client's mark is brought up to date, as CalmedExact says, and then it is served. */
  lemma AdjustSafe(s: State, p: nat, congested: bool)
    requires Inv(s) && p in s.clients
    ensures p in s.procs
    ensures var r := AdjustClient(s, p, congested); r.Done? && Inv(r.state) && Served(Calmed(s, p), p, congested, r)
  {
    CalmedInv(s, p);
    ServeSafe(Calmed(s, p), p, congested);
  }

  /** While a core is idle an overloaded process is given one; with none idle nothing happens. */
  lemma SpareSafe(s: State, p: nat)
    requires Inv(s) && p in s.clients
    ensures var r := GrantSpare(s, p); r.Done? && Inv(r.state)
    ensures if s.nrAvail > 0 then Supplied(s, p, GrantSpare(s, p)) else GrantSpare(s, p) == Done(s, None)
  {
    AvailNat(s);
    if s.nrAvail != 0 {
      AddCoreSafe(s, p);
      AddCoreSupplies(s, p);
    }
  }

  lemma AvailNat(s: State)
    requires ShapeOk(s)
    ensures s.nrAvail >= 0
  {
  }

  /**
   * A packet for a process that has no core: the process is given one if it has a guarantee or a core is idle, and is
   * marked overloaded otherwise.
   */
  ghost predicate Delivered(s: State, p: nat, r: Outcome) {
    && p in s.procs
    && (s.procs[p].active != [] ==> r == Done(s, None))
    && (s.procs[p].active == [] && (s.procs[p].guaranteed > 0 || s.nrAvail > 0) ==> Supplied(s, p, r))
    && (s.procs[p].active == [] && s.procs[p].guaranteed == 0 && s.nrAvail == 0 ==>
          r.Done? && r.woken.None? && Marked(s, r.state, p))
  }

  lemma SendSafe(s: State, p: nat)
    requires Inv(s) && p in s.clients
    ensures var r := RxSend(s, p); r.Done? && Inv(r.state) && Delivered(s, p, r)
  {
    NotKilled(s, {}, p);
    AvailNat(s);
    if |s.procs[p].active| == 0 && (s.procs[p].guaranteed > 0 || s.nrAvail > 0) {
      SendAdds(s, p);
    } else {
      SetOverloadedInv(s, {}, p);
      SendMarks(s, p);
    }
  }

  lemma SendAdds(s: State, p: nat)
    requires Inv(s) && p in s.clients && |s.procs[p].active| == 0 && (s.procs[p].guaranteed > 0 || s.nrAvail > 0)
    ensures var r := RxSend(s, p); r == AddCore(s, p) && r.Done? && Inv(r.state) && Supplied(s, p, r)
  {
    AddCoreKeeps(s, p);
    AddCoreSupplies(s, p);
  }

  lemma SendMarks(s: State, p: nat)
    requires FlagsOk(s) && p in s.procs && s.nrAvail >= 0
    requires !(|s.procs[p].active| == 0 && (s.procs[p].guaranteed > 0 || s.nrAvail > 0))
    ensures RxSend(s, p) == Done(if |s.procs[p].active| > 0 then s else SetOverloaded(s, p), None)
    ensures Delivered(s, p, RxSend(s, p))
  {
    MarkExact(s, p);
  }

  /** The kthread rx_send_to_runtime queues the packet to. */
  function RxTarget(s: State, p: nat, hash: nat): Option<Tid> {
    if p !in s.procs then None
    else if |s.procs[p].active| > 0 then Some(Tid(p, s.procs[p].active[hash % |s.procs[p].active|]))
    else if s.procs[p].guaranteed > 0 || s.nrAvail > 0 then
      if AddCore(s, p).Done? then AddCore(s, p).woken else None
    else Front(p, s.procs[p].idle)
  }

  /** Whichever core the process is given next, this is the kthread that runs on it. */
  ghost predicate WokenNext(s: State, t: Tid) {
    t.p in s.procs && forall core: nat :: core < |s.hist| ==> PickThreadForProc(s, t.p, core).thread == Some(t)
  }

  /** A packet is queued to a kthread of the process that has, or waits for, a core, or else to the one woken next. */
  lemma SendTarget(s: State, p: nat, hash: nat)
    requires Inv(s) && p in s.clients && |s.procs[p].threads| > 0
    ensures var t, r := RxTarget(s, p, hash), RxSend(s, p);
            && r.Done? && t.Some? && t.value.p == p
            && if s.procs[p].active == [] && s.procs[p].guaranteed == 0 && s.nrAvail == 0 then WokenNext(r.state, t.value)
               else Unparked(r.state, t.value)
  {
    SendSafe(s, p);
    ClientProcOk(s, p);
    AvailNat(s);
    if s.procs[p].active != [] {
      ActiveIsUnparked(s, p, hash % |s.procs[p].active|);
    } else if s.procs[p].guaranteed > 0 || s.nrAvail > 0 {
      SendAdds(s, p);
      ExtendedUnparked(s, p, AddCore(s, p));
    } else {
      IdleCount(s, p);
      SendMarks(s, p);
      FrontNext(s, RxSend(s, p).state, p);
    }
  }

  lemma ActiveIsUnparked(s: State, p: nat, i: nat)
    requires p in s.procs && ProcOk(s.procs[p]) && i < |s.procs[p].active|
    ensures Unparked(s, Tid(p, s.procs[p].active[i]))
  {
  }

  lemma ExtendedUnparked(s: State, p: nat, r: Outcome)
    requires Extended(s, p, r) && OwnOk(r.state)
    ensures Unparked(r.state, r.woken.value)
  {
    var c := PickCoreForProc(s, p).value;
    if c !in s.avail {
      assert r.state.hist[c].next == r.woken;
    }
  }

  lemma FrontNext(s: State, s': State, p: nat)
    requires Marked(s, s', p) && ProcOk(s.procs[p]) && s.procs[p].active == [] && s.procs[p].idle != []
    ensures WokenNext(s', Tid(p, s.procs[p].idle[0]))
  {
    forall core: nat | core < |s'.hist|
      ensures PickThreadForProc(s', p, core).thread == Some(Tid(p, s.procs[p].idle[0]))
    {
      PickThreadExact(s', p, core);
    }
  }

  lemma ParkedSafe(s: State, t: Tid, inFlight: bool)
    requires Inv(s) && Running(s, t) && WaiterNotRemoved(s, Th(s, t).core)
    ensures var r := Park(s, t, inFlight, false); r.Done? && Inv(r.state) && PassedOn(s, t, inFlight, false, r)
  {
    OccupantsAreClients(s, Th(s, t).core);
    ParkSafe(s, {}, t, inFlight, false);
  }

  lemma MarkSafe(s: State, p: nat)
    requires Inv(s) && p in s.clients
    ensures var r := MarkRemoved(s, p); r.Done? && Inv(r.state)
  {
    NotKilled(s, {}, p);
    PlainFlagInv(s, MarkRemoved(s, p).state, {}, p);
  }

  /** Every allowed step succeeds and keeps the invariant. */
  lemma StepSafe(s: State, e: Event)
    requires Inv(s) && Allowed(s, e)
    ensures var r := Apply(s, e); r.Done? && Inv(r.state)
  {
    match e
    case Attach(p, g, n) => AddClientSafe(s, p, g, n);
    case Adjust(p, congested) => AdjustSafe(s, p, congested);
    case Spare(p) => SpareSafe(s, p);
    case Send(p) => SendSafe(s, p);
    case Parked(t, inFlight) => ParkedSafe(s, t, inFlight);
    case Mark(p) => MarkSafe(s, p);
    case Detach(p) => RemoveClientSafe(s, p);
  }

  /** states[i] is the state after the first i events of a run that respects Allowed. */
  ghost predicate Run(states: seq<State>, events: seq<Event>) {
    && |states| == |events| + 1
    && (forall i :: 0 <= i < |events| ==>
          Proper(states[i], events[i]) && Leads(states[i], events[i], states[i + 1]))
  }

  ghost predicate Proper(s: State, e: Event) {
    Inv(s) ==> Allowed(s, e)
  }

  ghost predicate Leads(s: State, e: Event, s': State) {
    Apply(s, e).Done? ==> Apply(s, e).state == s'
  }

  lemma LeadsSafely(s: State, e: Event, s': State)
    requires Inv(s) && Allowed(s, e) && Leads(s, e, s')
    ensures Apply(s, e).Done? && Inv(s')
  {
    StepSafe(s, e);
  }

  /** No event of any run from a state satisfying the invariant reaches a BUG, and the invariant holds throughout. */
  lemma {:induction false} RunKeepsInv(states: seq<State>, events: seq<Event>, n: nat)
    requires Run(states, events) && Inv(states[0]) && n < |states|
    ensures Inv(states[n])
    ensures n < |events| ==> Apply(states[n], events[n]).Done?
  {
    if n > 0 {
      RunKeepsInv(states, events, n - 1);
      LeadsSafely(states[n - 1], events[n - 1], states[n]);
    }
    if n < |events| {
      LeadsSafely(states[n], events[n], states[n + 1]);
    }
  }

  /** In particular no run of the daemon from boot reaches a BUG. */
  lemma RunSafe(states: seq<State>, events: seq<Event>, cpus: nat, online: set<nat>, n: nat)
    requires Run(states, events) && states[0] == Boot(cpus, online)
    requires online != {} && forall c :: c in online ==> c < cpus
    requires n < |states|
    ensures Inv(states[n])
    ensures n < |events| ==> Apply(states[n], events[n]).Done?
  {
    BootInv(cpus, online);
    RunKeepsInv(states, events, n);
  }

  /** The events lead from s to s' in some run. */
  ghost predicate Reaches(s: State, events: seq<Event>, s': State) {
    exists states :: Run(states, events) && states[0] == s && states[|events|] == s'
  }

  lemma ReachesInv(s: State, events: seq<Event>, s': State)
    requires Inv(s) && Reaches(s, events, s')
    ensures Inv(s')
  {
    var states :| Run(states, events) && states[0] == s && states[|events|] == s';
    RunKeepsInv(states, events, |events|);
  }

  lemma EmptyRun(s: State)
    ensures Reaches(s, [], s)
  {
    assert Run([s], []);
  }

  /** An allowed event prolongs a run. */
  lemma LongerRun(s: State, events: seq<Event>, m: State, e: Event, s': State)
    requires Reaches(s, events, m) && Inv(m) && Allowed(m, e) && Leads(m, e, s')
    ensures Reaches(s, events + [e], s')
  {
    OneStepRun(m, e, s');
    AppendRun(s, events, m, [m, s'], [e]);
  }

  lemma OneStepRun(m: State, e: Event, s': State)
    requires Proper(m, e) && Leads(m, e, s')
    ensures Run([m, s'], [e])
  {
  }

  lemma AppendRun(s: State, events: seq<Event>, m: State, b: seq<State>, ys: seq<Event>)
    requires Reaches(s, events, m) && Run(b, ys) && b[0] == m
    ensures Reaches(s, events + ys, b[|ys|])
  {
    var states :| Run(states, events) && states[0] == s && states[|events|] == m;
    PrefixRun(states, events, b, ys);
  }

  lemma PrefixRun(a: seq<State>, xs: seq<Event>, b: seq<State>, ys: seq<Event>)
    requires Run(a, xs) && Run(b, ys) && a[|xs|] == b[0]
    ensures Run(a + b[1..], xs + ys)
    ensures (a + b[1..])[0] == a[0] && (a + b[1..])[|xs + ys|] == b[|ys|]
  {
    var ss := a + b[1..];
    var es := xs + ys;
    forall i | 0 <= i < |es|
      ensures Proper(ss[i], es[i]) && Leads(ss[i], es[i], ss[i + 1])
    {
      if i < |xs| {
        assert ss[i] == a[i] && ss[i + 1] == a[i + 1] && es[i] == xs[i];
      } else {
        assert ss[i] == b[i - |xs|] && ss[i + 1] == b[i - |xs| + 1] && es[i] == ys[i - |xs|];
      }
    }
  }

  lemma JoinRuns(s: State, xs: seq<Event>, m: State, ys: seq<Event>, s': State)
    requires Reaches(s, xs, m) && Reaches(m, ys, s')
    ensures Reaches(s, xs + ys, s')
  {
    var a :| Run(a, xs) && a[0] == s && a[|xs|] == m;
    var b :| Run(b, ys) && b[0] == m && b[|ys|] == s';
    PrefixRun(a, xs, b, ys);
  }

  /* What the invariant says about ownership, in the terms of the daemon. */

  /** An unparked thread is either running on its core or waiting for it, never both. */
  lemma ExactlyOnePlace(s: State, t: Tid)
    requires Inv(s) && Unparked(s, t)
    ensures var c := Th(s, t).core;
            && c < |s.hist| && Busy(s, c)
            && (s.hist[c].current == Some(t) <==> s.hist[c].next != Some(t))
            && (forall d :: 0 <= d < |s.hist| && d != c ==>
                  s.hist[d].next != Some(t) && (Busy(s, d) ==> s.hist[d].current != Some(t)))
  {
    assert Placed(s, t);
  }

  ghost function BusySet(s: State): set<nat> {
    set c | c in s.online && c !in s.avail
  }

  ghost function WaitedSet(s: State): set<nat> {
    set c | 0 <= c < |s.hist| && s.hist[c].next.Some?
  }

  ghost function RunningThreads(s: State): set<Tid> {
    set t | t in s.tsIdx && Running(s, t)
  }

  ghost function WaitingThreads(s: State): set<Tid> {
    set t | t in s.tsIdx && !Running(s, t)
  }

  lemma RunningCount(s: State)
    requires HistOk(s) && OwnOk(s) && PolledOk(s) && ShapeOk(s)
    ensures |RunningThreads(s)| == |BusySet(s)|
  {
    var owner := (c: nat) => if c < |s.hist| && s.hist[c].current.Some? then s.hist[c].current.value else Tid(0, 0);
    var home := (t: Tid) => if Named(s, t) then Th(s, t).core else 0;
    forall t | t in RunningThreads(s)
      ensures exists c :: c in BusySet(s) && owner(c) == t
    {
      assert owner(Th(s, t).core) == t;
    }
    CoveredCount(RunningThreads(s), BusySet(s), owner);
    forall c | c in BusySet(s)
      ensures exists t :: t in RunningThreads(s) && home(t) == c
    {
      assert Unparked(s, s.hist[c].current.value);
      assert home(owner(c)) == c;
    }
    CoveredCount(BusySet(s), RunningThreads(s), home);
  }

  lemma WaitingCount(s: State)
    requires HistOk(s) && OwnOk(s) && PolledOk(s) && ShapeOk(s)
    ensures |WaitingThreads(s)| == |WaitedSet(s)|
  {
    var waiter := (c: nat) => if c < |s.hist| && s.hist[c].next.Some? then s.hist[c].next.value else Tid(0, 0);
    var home := (t: Tid) => if Named(s, t) then Th(s, t).core else 0;
    forall t | t in WaitingThreads(s)
      ensures exists c :: c in WaitedSet(s) && waiter(c) == t
    {
      assert Unparked(s, t);
      assert Placed(s, t);
      assert waiter(Th(s, t).core) == t;
    }
    CoveredCount(WaitingThreads(s), WaitedSet(s), waiter);
    forall c | c in WaitedSet(s)
      ensures exists t :: t in WaitingThreads(s) && home(t) == c
    {
      assert Unparked(s, s.hist[c].next.value);
      assert home(waiter(c)) == c;
    }
    CoveredCount(WaitedSet(s), WaitingThreads(s), home);
  }

  /** nrts: the daemon polls one thread per busy core and one per pending preemption. */
  lemma PolledCount(s: State)
    requires Inv(s)
    ensures |s.ts| == |BusySet(s)| + |WaitedSet(s)|
  {
    RunningCount(s);
    WaitingCount(s);
    PolledSplit(s);
  }

  lemma PolledSplit(s: State)
    requires PolledOk(s)
    ensures |s.ts| == |RunningThreads(s)| + |WaitingThreads(s)|
  {
    DistinctCount(s.ts);
    assert Elements(s.ts) == RunningThreads(s) + WaitingThreads(s);
    assert RunningThreads(s) !! WaitingThreads(s);
  }

  /** A process stays in memory exactly as long as something names it. */
  lemma InMemoryWhileNamed(s: State, p: nat)
    requires Inv(s)
    ensures p in s.procs <==> p in s.clients || CurSet(s, p) != {} || PrevSet(s, p) != {} || PollSet(s, p) != {}
    ensures p in s.procs ==> p !in s.released
    ensures p in s.procs ==>
              s.procs[p].refs == (if p in s.clients then 1 else 0) + |CurSet(s, p)| + |PrevSet(s, p)| + |PollSet(s, p)|
  {
    if p !in s.procs {
      UnusedName(s, p);
    }
  }
}
