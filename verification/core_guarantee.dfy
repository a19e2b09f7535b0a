/**
 * The guarantee argument: while admitted guarantees fit the machine, a process below its guarantee
 * always finds a core, so the BUG() at the end of pick_core_for_proc is unreachable.
 */
module CoreGuarantee {
  import opened Collections
  import opened CoreState
  import opened CoreInvariant
  import opened CoreMoves
  import opened CoreSteps

  ghost function ChargedTo(cores: set<nat>, charge: map<nat, nat>, q: nat): set<nat> {
    set c | c in cores && c in charge && charge[c] == q
  }

  /** Setting aside the cores charged to q leaves every other client's as they were. */
  lemma SetAside(cores: set<nat>, charge: map<nat, nat>, q: nat)
    ensures var mine := ChargedTo(cores, charge, q); |cores| == |mine| + |cores - mine|
    ensures forall r :: r != q ==> ChargedTo(cores - ChargedTo(cores, charge, q), charge, r) == ChargedTo(cores, charge, r)
  {
    var mine := ChargedTo(cores, charge, q);
    assert cores == mine + (cores - mine);
    forall r | r != q
      ensures ChargedTo(cores - mine, charge, r) == ChargedTo(cores, charge, r)
    {
    }
  }

  /** Pigeonhole: cores charged to clients within their guarantees number at most the sum, and one less if p has slack. */
  lemma {:induction false} ChargesFit(procs: map<nat, Proc>, clients: seq<nat>, cores: set<nat>, charge: map<nat, nat>, p: nat)
    requires Distinct(clients) && forall q :: q in clients ==> q in procs
    requires forall c :: c in cores ==> c in charge && charge[c] in clients
    requires forall q :: q in clients ==>
               |ChargedTo(cores, charge, q)| + (if q == p then 1 else 0) <= procs[q].guaranteed
    ensures |cores| + (if p in clients then 1 else 0) <= SumGuaranteed(procs, clients)
  {
    if clients == [] {
      assert cores == {};
    } else {
      var q := clients[0];
      DistinctTail(clients);
      SetAside(cores, charge, q);
      ChargesFit(procs, clients[1..], cores - ChargedTo(cores, charge, q), charge, p);
    }
  }

  /** Whoever runs on or waits for a core is a client. */
  lemma OccupantsAreClients(s: State, c: nat)
    requires Inv(s) && Busy(s, c)
    ensures c < |s.hist| && s.hist[c].current.Some? && s.hist[c].current.value.p in s.clients
    ensures s.hist[c].next.Some? ==> s.hist[c].next.value.p in s.clients
  {
    var t := s.hist[c].current.value;
    assert s.procs[t.p].active != [];
    if s.hist[c].next.Some? {
      var n := s.hist[c].next.value;
      assert s.procs[n.p].active != [];
    }
  }

  /** Each core with an unprotected owner is charged to it, every other core to the thread waiting for it. */
  ghost function Charges(s: State): map<nat, nat>
    requires Inv(s) && s.avail == {}
    requires forall c :: c in s.online ==> !Preemptable(s, c)
  {
    map c | c in s.online :: ChargeOf(s, c)
  }

  ghost function ChargeOf(s: State, c: nat): (q: nat)
    requires Inv(s) && Busy(s, c) && !Preemptable(s, c)
    ensures q in s.clients
  {
    OccupantsAreClients(s, c);
    var owner := s.hist[c].current.value.p;
    if s.procs[owner].bursting then s.hist[c].next.value.p else owner
  }

  lemma ChargeMeans(s: State, c: nat, q: nat)
    requires Inv(s) && Busy(s, c) && !Preemptable(s, c) && ChargeOf(s, c) == q
    ensures c < |s.hist|
    ensures || (s.hist[c].next.Some? && s.hist[c].next.value.p == q)
            || (!s.procs[q].bursting && s.hist[c].current.Some? && s.hist[c].current.value.p == q)
  {
    OccupantsAreClients(s, c);
  }

  lemma ChargeWithinGuarantee(s: State, q: nat)
    requires Inv(s) && s.avail == {} && q in s.clients
    requires forall c :: c in s.online ==> !Preemptable(s, c)
    ensures s.procs[q].bursting ==> |ChargedTo(s.online, Charges(s), q)| <= s.procs[q].guaranteed
    ensures !s.procs[q].bursting ==> |ChargedTo(s.online, Charges(s), q)| <= |s.procs[q].active|
  {
    var mine := ChargedTo(s.online, Charges(s), q);
    forall c | c in mine
      ensures c < |s.hist| && Busy(s, c)
      ensures || (s.hist[c].next.Some? && s.hist[c].next.value.p == q)
              || (!s.procs[q].bursting && s.hist[c].current.Some? && s.hist[c].current.value.p == q)
    {
      ChargeMeans(s, c, q);
    }
    CoverFits(s, q, mine);
  }

  lemma CoverFits(s: State, q: nat, mine: set<nat>)
    requires OwnOk(s) && ProcsOk(s) && PendOk(s) && q in s.procs
    requires forall c :: c in mine ==> c < |s.hist| && Busy(s, c)
    requires forall c :: c in mine ==>
               || (s.hist[c].next.Some? && s.hist[c].next.value.p == q)
               || (!s.procs[q].bursting && s.hist[c].current.Some? && s.hist[c].current.value.p == q)
    ensures s.procs[q].bursting ==> |mine| <= s.procs[q].guaranteed
    ensures !s.procs[q].bursting ==> |mine| <= |s.procs[q].active|
  {
    if s.procs[q].bursting {
      assert mine <= PendSet(s, q);
      SubsetCount(mine, PendSet(s, q));
    } else {
      OccupiedWithinActive(s, q, mine);
    }
  }

  /** With every core taken, a client below its guarantee can preempt somebody. */
  lemma GuaranteeHolds(s: State, p: nat)
    requires Inv(s) && p in s.clients && s.nrAvail == 0
    requires |s.procs[p].active| < s.procs[p].guaranteed
    ensures exists c :: c in s.online && Preemptable(s, c)
  {
    if forall c :: c in s.online ==> !Preemptable(s, c) {
      forall q | q in s.clients
        ensures |ChargedTo(s.online, Charges(s), q)| + (if q == p then 1 else 0) <= s.procs[q].guaranteed
      {
        ChargeWithinGuarantee(s, q);
      }
      ChargesFit(s.procs, s.clients, s.online, Charges(s), p);
      assert false;
    }
  }

  lemma {:induction false} NextAvailFirst(avail: set<nat>, n: nat, pos: nat)
    requires pos <= n
    ensures var r := NextAvail(avail, n, pos);
            && pos <= r <= n
            && (r < n ==> r in avail)
            && (forall c: nat :: pos <= c < r ==> c !in avail)
    decreases n - pos
  {
    if pos < n && pos !in avail {
      NextAvailFirst(avail, n, pos + 1);
    }
  }

  lemma {:induction false} NextPreemptableFirst(s: State, c: nat)
    ensures var r := NextPreemptable(s, c);
            && (r.Some? ==> c <= r.value < s.cpus && Preemptable(s, r.value))
            && (r.None? ==> forall d: nat :: c <= d < s.cpus ==> !Preemptable(s, d))
            && (r.Some? ==> forall d: nat :: c <= d < r.value ==> !Preemptable(s, d))
    decreases s.cpus - c
  {
    if c < s.cpus && !Preemptable(s, c) {
      NextPreemptableFirst(s, c + 1);
    }
  }

  /**
   * pick_core_for_proc exactly: an idle core whenever there is one; otherwise a core of a bursting
   * process that nobody preempts yet, failing if and only if there is no such core. The core the
   * process ran on last comes first, then the lowest-numbered one.
   */
  lemma PickCoreExact(s: State, p: nat)
    requires ShapeOk(s) && HistOk(s) && ProcsOk(s) && p in s.procs && |s.procs[p].active| < |s.procs[p].threads|
    ensures var r := PickCoreForProc(s, p);
            && (s.nrAvail > 0 ==> r.Some? && r.value in s.avail)
            && (s.nrAvail == 0 && r.Some? ==> r.value in s.online && r.value !in s.avail && Preemptable(s, r.value))
            && (r.None? <==> s.nrAvail == 0 && forall c :: c in s.online ==> !Preemptable(s, c))
    ensures s.procs[p].idle != [] && s.procs[p].idle[0] < |s.procs[p].threads|
    ensures var r, last := PickCoreForProc(s, p), s.procs[p].threads[s.procs[p].idle[0]].core;
            && (last in s.avail ==> r == Some(last))
            && (s.nrAvail > 0 && last !in s.avail ==> forall c :: c in s.avail ==> r.value <= c)
            && (s.nrAvail == 0 && Preemptable(s, last) && s.hist[last].current.value.p != p ==> r == Some(last))
            && (s.nrAvail == 0 && r.Some? && r != Some(last) ==> forall c: nat :: c < r.value ==> !Preemptable(s, c))
  {
    var pr := s.procs[p];
    IdleExists(pr);
    assert pr.idle[0] in pr.idle;
    var core := pr.threads[pr.idle[0]].core;
    assert core in s.online;
    NextAvailFirst(s.avail, s.cpus, 0);
    NextPreemptableFirst(s, 0);
    if s.nrAvail > 0 {
      var c :| c in s.avail;
    } else {
      assert s.avail == {};
      assert forall c: nat :: c < s.cpus && Preemptable(s, c) ==> c in s.online;
    }
  }

  /** The BUG() at the end of pick_core_for_proc is unreachable for a client below its guarantee. */
  lemma PickCoreSucceeds(s: State, p: nat)
    requires Inv(s) && p in s.clients && |s.procs[p].active| < |s.procs[p].threads|
    requires |s.procs[p].active| < s.procs[p].guaranteed || s.nrAvail > 0
    ensures PickCoreForProc(s, p).Some?
  {
    PickCoreExact(s, p);
    if s.nrAvail == 0 {
      GuaranteeHolds(s, p);
    }
  }
}
