/**
 * The data of the core allocator (hwalloc/cores.c, hwalloc/defs.h): cores, processes, their
 * kthreads, and the redundant lists, counters and back-indices that must agree.
 * Processes are named by a number that is never reused; kthread k of process p is Tid(p, k).
 */
module CoreState {
  import opened Collections

  datatype Tid = Tid(p: nat, k: nat)

  /** One entry of core_history; `next` is the thread that preempted the core. */
  datatype Core = Core(current: Option<Tid>, prev: Option<Tid>, next: Option<Tid>)

  /** The allocator's part of struct thread; atIdx is the position in the active array. */
  datatype Thread = Thread(parked: bool, core: nat, atIdx: nat)

  /** struct proc. `available` is the available_threads bitmap, `idle` the idle list, front first. */
  datatype Proc = Proc(
    guaranteed: nat,
    threads: seq<Thread>,
    active: seq<nat>,
    idle: seq<nat>,
    available: set<nat>,
    inflight: int,
    overloaded: bool,
    bursting: bool,
    launched: bool,
    removed: bool,
    kill: bool,
    refs: int)

  /**
   * The daemon's globals. `ts`/`tsIdx` are the polling array and its back-indices (a thread outside
   * tsIdx has ts_idx -1); `released` lists the processes handed back to the control plane.
   */
  datatype State = State(
    cpus: nat,
    online: set<nat>,
    avail: set<nat>,
    nrAvail: int,
    hist: seq<Core>,
    procs: map<nat, Proc>,
    overloaded: seq<nat>,
    bursting: seq<nat>,
    ts: seq<Tid>,
    tsIdx: map<Tid, nat>,
    clients: seq<nat>,
    released: seq<nat>)

  predicate Named(s: State, t: Tid) {
    t.p in s.procs && t.k < |s.procs[t.p].threads|
  }

  function Th(s: State, t: Tid): Thread
    requires Named(s, t)
  {
    s.procs[t.p].threads[t.k]
  }

  predicate Unparked(s: State, t: Tid) {
    Named(s, t) && !Th(s, t).parked
  }

  predicate Busy(s: State, c: nat) {
    c in s.online && c !in s.avail
  }

  function WithProc(s: State, p: nat, pr: Proc): State {
    s.(procs := s.procs[p := pr])
  }

  /* Reference counts (proc_get, proc_put and the release callback). */

  function GetRef(s: State, p: nat): State
    requires p in s.procs
  {
    WithProc(s, p, s.procs[p].(refs := s.procs[p].refs + 1))
  }

  function PutRef(s: State, p: nat): State
    requires p in s.procs
  {
    if s.procs[p].refs == 1 then
      s.(procs := s.procs - {p}, released := s.released + [p])
    else
      WithProc(s, p, s.procs[p].(refs := s.procs[p].refs - 1))
  }

  /* The overloaded and bursting lists and their flags. */

  function SetOverloaded(s: State, p: nat): State
    requires p in s.procs
  {
    if s.procs[p].overloaded then s
    else WithProc(s, p, s.procs[p].(overloaded := true)).(overloaded := [p] + s.overloaded)
  }

  function ClearOverloaded(s: State, p: nat): State
    requires p in s.procs
  {
    if !s.procs[p].overloaded then s
    else WithProc(s, p, s.procs[p].(overloaded := false)).(overloaded := Without(s.overloaded, p))
  }

  function SetBursting(s: State, p: nat): State
    requires p in s.procs
  {
    if s.procs[p].bursting then s
    else WithProc(s, p, s.procs[p].(bursting := true)).(bursting := [p] + s.bursting)
  }

  function ClearBursting(s: State, p: nat): State
    requires p in s.procs
  {
    if !s.procs[p].bursting then s
    else WithProc(s, p, s.procs[p].(bursting := false)).(bursting := Without(s.bursting, p))
  }

  /* The polling array: append on poll, swap-remove on unpoll. */

  function PollThread(s: State, t: Tid): State
    requires t.p in s.procs
  {
    if t in s.tsIdx then s
    else GetRef(s, t.p).(ts := s.ts + [t], tsIdx := s.tsIdx[t := |s.ts|])
  }

  function UnpollThread(s: State, t: Tid): State
    requires t.p in s.procs
    requires t in s.tsIdx ==> s.tsIdx[t] < |s.ts|
  {
    if t !in s.tsIdx then s
    else
      var i := s.tsIdx[t];
      var last := s.ts[|s.ts| - 1];
      PutRef(s.(ts := s.ts[i := last][..|s.ts| - 1], tsIdx := s.tsIdx[last := i] - {t}), t.p)
  }

  /* Moving a kthread between a process's idle list and its active array. */

  function Activate(pr: Proc, k: nat, core: nat): Proc
    requires k < |pr.threads|
  {
    pr.(available := pr.available - {k},
        threads := pr.threads[k := Thread(false, core, |pr.active|)],
        active := pr.active + [k],
        idle := Without(pr.idle, k))
  }

  predicate Movable(pr: Proc, k: nat) {
    && k < |pr.threads|
    && pr.threads[k].atIdx < |pr.active|
    && pr.active[|pr.active| - 1] < |pr.threads|
  }

  function Deactivate(pr: Proc, k: nat): Proc
    requires Movable(pr, k)
  {
    var at := pr.threads[k].atIdx;
    var last := |pr.active| - 1;
    var moved := pr.active[last];
    var threads := pr.threads[moved := pr.threads[moved].(atIdx := at)];
    pr.(available := pr.available + {k},
        threads := threads[k := threads[k].(parked := true)],
        active := pr.active[at := moved][..last],
        idle := [k] + pr.idle)
  }

  /** thread_reserve */
  function ThreadReserve(s: State, t: Tid, core: nat): State
    requires Named(s, t)
  {
    var s1 := WithProc(s, t.p, Activate(s.procs[t.p], t.k, core));
    var s2 := if |s1.procs[t.p].active| > s1.procs[t.p].guaranteed then SetBursting(s1, t.p) else s1;
    PollThread(ClearOverloaded(s2, t.p), t)
  }

  /** thread_cede */
  function ThreadCede(s: State, t: Tid): State
    requires t.p in s.procs && Movable(s.procs[t.p], t.k)
    requires t in s.tsIdx ==> s.tsIdx[t] < |s.ts|
  {
    var s1 := WithProc(s, t.p, Deactivate(s.procs[t.p], t.k));
    var s2 := if |s1.procs[t.p].active| == s1.procs[t.p].guaranteed then ClearBursting(s1, t.p) else s1;
    UnpollThread(s2, t)
  }

  /** The state in which the reference held by core_history[core].prev has been dropped. */
  function DropPrev(s: State, core: nat): State
    requires core < |s.hist|
    requires s.hist[core].prev.Some? ==> s.hist[core].prev.value.p in s.procs
  {
    if s.hist[core].prev.Some? then PutRef(s, s.hist[core].prev.value.p) else s
  }

  /** core_reserve */
  function CoreReserve(s: State, core: nat, t: Tid): State
    requires core < |s.hist|
    requires s.hist[core].prev.Some? ==> s.hist[core].prev.value.p in s.procs
    requires t.p in DropPrev(s, core).procs
  {
    GetRef(DropPrev(s, core), t.p)
      .(avail := s.avail - {core},
        nrAvail := s.nrAvail - 1,
        hist := s.hist[core := Core(Some(t), s.hist[core].current, None)])
  }

  /** core_cede */
  function CoreCede(s: State, core: nat): State {
    s.(avail := s.avail + {core}, nrAvail := s.nrAvail + 1)
  }
}
