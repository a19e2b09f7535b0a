/**
 * What the redundant structures of the core allocator agree on between steps. Every conjunct is a
 * named predicate, so that a step lemma can be proved one conjunct at a time.
 */
module CoreInvariant {
  import opened Collections
  import opened CoreState

  /* Sets of cores and threads that the counters count. */

  /** Cores whose `current` slot names process p (whether or not the core is still in use). */
  ghost function CurSet(s: State, p: nat): set<nat> {
    set c | 0 <= c < |s.hist| && s.hist[c].current.Some? && s.hist[c].current.value.p == p
  }

  ghost function PrevSet(s: State, p: nat): set<nat> {
    set c | 0 <= c < |s.hist| && s.hist[c].prev.Some? && s.hist[c].prev.value.p == p
  }

  /** Cores on which a thread of p waits for the preempted owner to leave. */
  ghost function PendSet(s: State, p: nat): set<nat> {
    set c | 0 <= c < |s.hist| && s.hist[c].next.Some? && s.hist[c].next.value.p == p
  }

  /** Cores of p that somebody is preempting. */
  ghost function PreemptedSet(s: State, p: nat): set<nat> {
    set c | 0 <= c < |s.hist| && s.hist[c].next.Some? && s.hist[c].current.Some? && s.hist[c].current.value.p == p
  }

  ghost function PollSet(s: State, p: nat): set<Tid> {
    set t | t in s.tsIdx && t.p == p
  }

  /* The conjuncts. */

  ghost predicate ShapeOk(s: State) {
    && |s.hist| == s.cpus
    && (forall c :: c in s.online ==> c < s.cpus)
    && s.online != {}
    && s.avail <= s.online
    && s.nrAvail == |s.avail|
  }

  ghost predicate HistOk(s: State) {
    forall c :: 0 <= c < |s.hist| ==>
      && (s.hist[c].current.Some? ==> Named(s, s.hist[c].current.value))
      && (s.hist[c].prev.Some? ==> Named(s, s.hist[c].prev.value))
      && (s.hist[c].next.Some? ==> c in s.online && s.hist[c].current.Some?)
      && (s.hist[c].current.Some? ==> c in s.online)
      && (Busy(s, c) ==> s.hist[c].current.Some?)
  }

  /** Running owners, waiting preemptors, and nobody else, are unparked; each on its own core. */
  ghost predicate OwnOk(s: State) {
    && (forall c :: 0 <= c < |s.hist| && Busy(s, c) && s.hist[c].current.Some? ==>
          Unparked(s, s.hist[c].current.value) && Th(s, s.hist[c].current.value).core == c)
    && (forall c :: 0 <= c < |s.hist| && s.hist[c].next.Some? ==>
          && Unparked(s, s.hist[c].next.value) && Th(s, s.hist[c].next.value).core == c
          && s.hist[c].current != s.hist[c].next)
    && (forall t :: Unparked(s, t) ==> Placed(s, t))
  }

  ghost predicate Placed(s: State, t: Tid)
    requires Named(s, t)
  {
    var c := Th(s, t).core;
    && c < |s.hist|
    && ((Busy(s, c) && s.hist[c].current == Some(t)) || s.hist[c].next == Some(t))
  }

  /** The per-process arrays: active/idle/available partition the kthreads, with exact back-indices. */
  ghost predicate ProcOk(pr: Proc) {
    && (forall i :: 0 <= i < |pr.active| ==>
          pr.active[i] < |pr.threads| && !pr.threads[pr.active[i]].parked && pr.threads[pr.active[i]].atIdx == i)
    && (forall k :: 0 <= k < |pr.threads| && !pr.threads[k].parked ==>
          pr.threads[k].atIdx < |pr.active| && pr.active[pr.threads[k].atIdx] == k)
    && Distinct(pr.idle)
    && (forall k: nat :: k in pr.idle <==> k < |pr.threads| && pr.threads[k].parked)
    && (forall k: nat :: k in pr.available <==> k < |pr.threads| && pr.threads[k].parked)
  }

  ghost predicate ProcsOk(s: State) {
    forall p :: p in s.procs ==>
      && ProcOk(s.procs[p])
      && (forall k :: 0 <= k < |s.procs[p].threads| ==> s.procs[p].threads[k].core in s.online)
  }

  /** A process outside the client table is marked killed and, unless still dying, runs nothing. */
  ghost predicate ClientsOk(s: State, dying: set<nat>) {
    && Distinct(s.clients)
    && (forall p :: p in s.clients ==> p in s.procs)
    && (forall p :: p in s.procs ==> (p in s.clients <==> !s.procs[p].kill))
    && (forall p :: p in s.procs && s.procs[p].kill && p !in dying ==> s.procs[p].active == [])
    && (forall p :: p in dying ==> p in s.procs && s.procs[p].kill)
  }

  ghost predicate FlagsOk(s: State) {
    && Distinct(s.overloaded)
    && Distinct(s.bursting)
    && (forall p :: p in s.overloaded ==> p in s.procs)
    && (forall p :: p in s.bursting ==> p in s.procs)
    && (forall p :: p in s.procs ==>
          && (p in s.overloaded <==> s.procs[p].overloaded)
          && (p in s.bursting <==> s.procs[p].bursting)
          && (s.procs[p].overloaded ==> !s.procs[p].kill)
          && (s.procs[p].bursting <==> !s.procs[p].kill && |s.procs[p].active| > s.procs[p].guaranteed))
  }

  ghost predicate InflightOk(s: State) {
    forall p :: p in s.procs ==> s.procs[p].inflight == |PreemptedSet(s, p)|
  }

  /** The polling array holds exactly the unparked threads, once each, with exact back-indices. */
  ghost predicate PolledOk(s: State) {
    && (forall i :: 0 <= i < |s.ts| ==> s.ts[i] in s.tsIdx && s.tsIdx[s.ts[i]] == i)
    && (forall t :: t in s.tsIdx ==> s.tsIdx[t] < |s.ts| && s.ts[s.tsIdx[t]] == t)
    && (forall t :: t in s.tsIdx <==> Unparked(s, t))
  }

  ghost function Refs(s: State, dying: set<nat>, p: nat): nat {
    (if p in s.clients || p in dying then 1 else 0) + |CurSet(s, p)| + |PrevSet(s, p)| + |PollSet(s, p)|
  }

  ghost predicate RefsOk(s: State, dying: set<nat>) {
    forall p :: p in s.procs ==> s.procs[p].refs == Refs(s, dying, p) && s.procs[p].refs > 0
  }

  ghost predicate PendOk(s: State) {
    forall p :: p in s.procs ==> |PendSet(s, p)| <= s.procs[p].guaranteed
  }

  /** Sum of the guarantees of the listed processes. */
  ghost function SumGuaranteed(procs: map<nat, Proc>, clients: seq<nat>): nat
    requires forall p :: p in clients ==> p in procs
  {
    if clients == [] then 0
    else procs[clients[0]].guaranteed + SumGuaranteed(procs, clients[1..])
  }

  /** What control_create_proc's admission test maintains. */
  ghost predicate AdmittedOk(s: State)
    requires forall p :: p in s.clients ==> p in s.procs
  {
    SumGuaranteed(s.procs, s.clients) <= |s.online|
  }

  /** Every process is released at most once, and never while it is still in memory. */
  ghost predicate ReleasedOk(s: State) {
    && Distinct(s.released)
    && (forall p :: p in s.released ==> p !in s.procs)
  }

  /** No core is idle while a preemptor still waits for it. */
  ghost predicate NoHole(s: State) {
    forall c :: 0 <= c < |s.hist| && s.hist[c].next.Some? ==> Busy(s, c)
  }

  /** Everything except NoHole, which fails for an instant between a cede and the hand-over. */
  ghost predicate Base(s: State, dying: set<nat>) {
    && ShapeOk(s)
    && HistOk(s)
    && OwnOk(s)
    && ProcsOk(s)
    && ClientsOk(s, dying)
    && FlagsOk(s)
    && InflightOk(s)
    && PolledOk(s)
    && RefsOk(s, dying)
    && PendOk(s)
    && AdmittedOk(s)
    && ReleasedOk(s)
  }

  ghost predicate Inv(s: State) {
    Base(s, {}) && NoHole(s)
  }

  /* The per-process lemmas. */

  lemma ActivateOk(pr: Proc, k: nat, core: nat)
    requires ProcOk(pr) && k < |pr.threads| && pr.threads[k].parked
    ensures ProcOk(Activate(pr, k, core))
  {
    WithoutElements(pr.idle, k);
  }

  lemma DeactivateOk(pr: Proc, k: nat)
    requires ProcOk(pr) && k < |pr.threads| && !pr.threads[k].parked
    ensures Movable(pr, k)
    ensures ProcOk(Deactivate(pr, k))
    ensures |Deactivate(pr, k).active| == |pr.active| - 1 && Deactivate(pr, k).idle == [k] + pr.idle
  {
    var r := Deactivate(pr, k);
    assert forall j :: j in r.idle <==> j == k || j in pr.idle;
    assert forall n :: 1 <= n < |r.idle| ==> r.idle[n] in pr.idle;
  }

  /** A process with a kthread to spare has one on its idle list. */
  lemma IdleExists(pr: Proc)
    requires ProcOk(pr)
    ensures |pr.active| <= |pr.threads|
    ensures |pr.active| + |pr.idle| == |pr.threads|
  {
    var all := Below(|pr.threads|);
    DistinctCount(pr.active);
    DistinctCount(pr.idle);
    BelowElements(|pr.threads|);
    forall k: nat | k < |pr.threads|
      ensures k in pr.active || k in pr.idle
    {
    }
    assert Elements(pr.active) + Elements(pr.idle) == all;
    assert Elements(pr.active) !! Elements(pr.idle);
  }
}
