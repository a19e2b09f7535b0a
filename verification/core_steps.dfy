/**
 * The allocator's decisions and entry points (hwalloc/cores.c, rx.c, dataplane.c). A BUG(), a
 * BUG_ON, a failed assert and a null dereference all yield Bug; that no run reaches it is proved in
 * CoreRuns.
 */
module CoreSteps {
  import opened Collections
  import opened CoreState
  import opened CoreMoves

  datatype Outcome = Done(state: State, woken: Option<Tid>) | Bug

  datatype Picked = Picked(state: State, thread: Option<Tid>)

  function Front(p: nat, idle: seq<nat>): Option<Tid> {
    if idle == [] then None else Some(Tid(p, idle[0]))
  }

  function Back(p: nat, idle: seq<nat>): Option<Tid> {
    if idle == [] then None else Some(Tid(p, idle[|idle| - 1]))
  }

  /** A history slot holding a parked kthread of p. */
  predicate Reusable(s: State, slot: Option<Tid>, p: nat) {
    slot.Some? && slot.value.p == p && Named(s, slot.value) && Th(s, slot.value).parked
  }

  /** pick_thread_for_proc */
  function PickThreadForProc(s: State, p: nat, core: nat): Picked
    requires p in s.procs && core < |s.hist|
  {
    var pr := s.procs[p];
    if pr.launched then
      Picked(WithProc(s, p, pr.(launched := false)), Front(p, pr.idle))
    else if pr.overloaded && |pr.active| == 0 then
      Picked(s, Front(p, pr.idle))
    else if Reusable(s, s.hist[core].current, p) then
      Picked(s, s.hist[core].current)
    else if Reusable(s, s.hist[core].prev, p) then
      Picked(s, s.hist[core].prev)
    else
      Picked(s, Back(p, pr.idle))
  }

  /** The core's owner is bursting and nobody waits for the core yet. */
  predicate Preemptable(s: State, c: nat) {
    && c < |s.hist| && s.hist[c].current.Some? && s.hist[c].next.None?
    && s.hist[c].current.value.p in s.procs && s.procs[s.hist[c].current.value.p].bursting
  }

  /** bitmap_find_next_set on the availability bitmap: the first available core at or after pos, or n. */
  function NextAvail(avail: set<nat>, n: nat, pos: nat): nat
    decreases n - pos
  {
    if pos >= n then n else if pos in avail then pos else NextAvail(avail, n, pos + 1)
  }

  /** The scan for a core of a bursting process. */
  function NextPreemptable(s: State, c: nat): Option<nat>
    decreases s.cpus - c
  {
    if c >= s.cpus then None
    else if Preemptable(s, c) then Some(c)
    else NextPreemptable(s, c + 1)
  }

  /** pick_core_for_proc; None is its BUG(). */
  function PickCoreForProc(s: State, p: nat): Option<nat> {
    if p !in s.procs || s.procs[p].idle == [] || s.procs[p].idle[0] >= |s.procs[p].threads| then None
    else
      var core := s.procs[p].threads[s.procs[p].idle[0]].core;
      if core in s.avail then Some(core)
      else if s.nrAvail == 0 && Preemptable(s, core) && s.hist[core].current.value.p != p then Some(core)
      else
        var low := NextAvail(s.avail, s.cpus, 0);
        if low != s.cpus then Some(low) else NextPreemptable(s, 0)
  }

  /** wake_kthread_on_core, without the affinity and eventfd calls. */
  function WakeOnCore(s: State, core: nat, t: Tid): Outcome {
    if core !in s.avail || core >= |s.hist| || (s.hist[core].next.Some? && s.hist[core].next != Some(t)) then Bug
    else if s.hist[core].prev.Some? && s.hist[core].prev.value.p !in s.procs then Bug
    else if !Named(DropPrev(s, core), t) then Bug
    else
      var s1 := CoreReserve(s, core, t);
      Done(if Th(s1, t).parked then ThreadReserve(s1, t, core) else s1, Some(t))
  }

  /** cores_add_core */
  function AddCore(s: State, p: nat): Outcome {
    if p !in s.procs then Bug
    else if |s.procs[p].active| == |s.procs[p].threads| then Done(s, None)
    else
      var core := PickCoreForProc(s, p);
      if core.None? || core.value >= |s.hist| then Bug
      else AddOn(s, p, core.value)
  }

  /** The rest of cores_add_core, once the core is chosen. */
  function AddOn(s: State, p: nat, core: nat): Outcome
    requires p in s.procs && core < |s.hist|
  {
    var picked := PickThreadForProc(s, p, core);
    if picked.thread.None? || !Named(picked.state, picked.thread.value)
       || picked.thread.value.k !in picked.state.procs[p].available then Bug
    else if core in picked.state.avail then WakeOnCore(picked.state, core, picked.thread.value)
    else if s.hist[core].current.None? || s.hist[core].current.value.p !in picked.state.procs || s.hist[core].next.Some?
    then Bug
    else Done(Preempt(picked.state, core, picked.thread.value), picked.thread)
  }

  predicate WantsMore(s: State, slot: Option<Tid>) {
    && slot.Some? && slot.value.p in s.procs
    && !s.procs[slot.value.p].removed && s.procs[slot.value.p].overloaded
  }

  /** pick_thread_for_core */
  function PickThreadForCore(s: State, core: nat): Picked
    requires core < |s.hist|
  {
    var c := s.hist[core];
    if c.next.Some? && c.next.value.p in s.procs && !s.procs[c.next.value.p].removed then
      if c.current.Some? && c.current.value.p in s.procs then
        var v := c.current.value.p;
        Picked(WithProc(s, v, s.procs[v].(inflight := s.procs[v].inflight - 1)), c.next)
      else Picked(s, c.next)
    else if s.overloaded == [] then Picked(s, None)
    else if WantsMore(s, c.current) then PickThreadForProc(s, c.current.value.p, core)
    else if WantsMore(s, c.prev) then PickThreadForProc(s, c.prev.value.p, core)
    else if s.overloaded[0] in s.procs then PickThreadForProc(s, s.overloaded[0], core)
    else Picked(s, None)
  }

  /** Wake the chosen thread, if any, on the core just ceded. */
  function Resume(picked: Picked, core: nat): Outcome {
    if picked.thread.None? then Done(picked.state, None) else WakeOnCore(picked.state, core, picked.thread.value)
  }

  /** cores_park_kthread; inFlight says that commands are still queued to the thread. */
  function Park(s: State, t: Tid, inFlight: bool, force: bool): Outcome {
    if !Named(s, t) || Th(s, t).core >= |s.hist| || Th(s, t).core in s.avail || t.k in s.procs[t.p].available then Bug
    else if s.hist[Th(s, t).core].next.None? && !force && inFlight then Done(s, None)
    else if !Movable(s.procs[t.p], t.k) || (t in s.tsIdx && s.tsIdx[t] >= |s.ts|) then Bug
    else
      var core := Th(s, t).core;
      Resume(PickThreadForCore(Cede(s, t), core), core)
  }

  /** rx_send_to_runtime's choice of a thread, without the enqueue itself. */
  function RxSend(s: State, p: nat): Outcome {
    if p !in s.procs then Bug
    else if |s.procs[p].active| > 0 then Done(s, None)
    else if s.procs[p].guaranteed > 0 || s.nrAvail > 0 then AddCore(s, p)
    else Done(SetOverloaded(s, p), None)
  }

  /** A client keeps its overloaded mark only if it was preempted down to 0 cores; the subtraction is unsigned 32-bit. */
  function Calmed(s: State, p: nat): State
    requires p in s.procs
  {
    var spare := (|s.procs[p].active| - s.procs[p].inflight) % 0x1_0000_0000;
    if spare > 0 then ClearOverloaded(s, p) else s
  }

  /** A congested client gets a core up to its guarantee, and a mark beyond it. */
  function Serve(s: State, p: nat, congested: bool): Outcome
    requires p in s.procs
  {
    if !congested then Done(s, None)
    else if |s.procs[p].active| < s.procs[p].guaranteed then AddCore(s, p)
    else Done(SetOverloaded(s, p), None)
  }

  /** One client's turn in cores_adjust_assignments. */
  function AdjustClient(s: State, p: nat, congested: bool): Outcome {
    if p !in s.procs then Bug else Serve(Calmed(s, p), p, congested)
  }

  /** One overloaded process's turn in the second loop of cores_adjust_assignments. */
  function GrantSpare(s: State, p: nat): Outcome {
    if s.nrAvail == 0 then Done(s, None) else AddCore(s, p)
  }

  /** control_create_proc's admission test, in exact arithmetic, on the guarantees admitted so far. */
  predicate Admissible(total: nat, admitted: nat, guaranteed: nat) {
    guaranteed + admitted <= total
  }

  /** The record cores_init_proc starts from: every kthread parked and placed on the first online core. */
  function FreshProc(guaranteed: nat, threadCount: nat, core: nat): Proc {
    Proc(guaranteed, seq(threadCount, i => Thread(true, core, 0)), [], seq(threadCount, i => i),
         Below(threadCount), 0, false, false, true, false, false, 1)
  }

  /** dp_clients_add_client followed by cores_init_proc. */
  function AddClient(s: State, p: nat, guaranteed: nat, threadCount: nat): Outcome {
    AddCore(Enrolled(s, p, guaranteed, threadCount), p)
  }

  function Enrolled(s: State, p: nat, guaranteed: nat, threadCount: nat): State {
    s.(procs := s.procs[p := FreshProc(guaranteed, threadCount, NextAvail(s.online, s.cpus, 0))],
       clients := s.clients + [p])
  }

  /** The control plane marks the process as leaving. */
  function MarkRemoved(s: State, p: nat): Outcome {
    if p !in s.procs then Bug else Done(WithProc(s, p, s.procs[p].(removed := true)), None)
  }

  /** A loop over kthread indices k .. n-1 that stops at the first Bug. */
  function ForEachKthread(step: (State, nat) -> Outcome, s: State, k: nat, n: nat): Outcome
    decreases n - k
  {
    if k >= n then Done(s, None)
    else
      var r := step(s, k);
      if r.Bug? then Bug else ForEachKthread(step, r.state, k + 1, n)
  }

  /** One turn of cores_free_proc's loop: a kthread outside available_threads is parked by force. */
  function FreeKthread(s: State, p: nat, k: nat): Outcome {
    if p !in s.procs then Bug
    else if k in s.procs[p].available then Done(s, None)
    else Park(s, Tid(p, k), false, true)
  }

  function FreeTurnOf(p: nat): (State, nat) -> Outcome {
    (m: State, k: nat) => FreeKthread(m, p, k)
  }

  /** cores_free_proc's loop. */
  function FreeKthreads(s: State, p: nat, n: nat): Outcome {
    ForEachKthread(FreeTurnOf(p), s, 0, n)
  }

  /** The client table without p, the last entry moved into its place. */
  function DropClient(clients: seq<nat>, p: nat): seq<nat>
    requires p in clients
  {
    var i := IndexOf(clients, p);
    clients[i := clients[|clients| - 1]][..|clients| - 1]
  }

  function IndexOf(clients: seq<nat>, p: nat): (i: nat)
    requires p in clients
    ensures i < |clients| && clients[i] == p
    ensures forall j :: 0 <= j < i ==> clients[j] != p
  {
    if clients[0] == p then 0 else 1 + IndexOf(clients[1..], p)
  }

  /** The state at the start of cores_free_proc's loop. */
  function Leaving(s: State, p: nat): State
    requires p in s.procs && p in s.clients
  {
    var s1 := WithProc(s.(clients := DropClient(s.clients, p)), p, s.procs[p].(kill := true));
    ClearOverloaded(ClearBursting(s1, p), p)
  }

  /** dp_clients_remove_client */
  function RemoveClient(s: State, p: nat): Outcome {
    if p !in s.clients then Done(s, None)
    else if p !in s.procs then Bug
    else
      var r := FreeKthreads(Leaving(s, p), p, |s.procs[p].threads|);
      if r.Bug? || p !in r.state.procs then Bug
      else Done(PutRef(r.state, p), None)
  }
}
