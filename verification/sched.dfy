/**
 * The runtime scheduler as a whole (runtime/sched.c): any number of kthreads, each with a work-stealing ring, an
 * overflow list, a targeted queue and at most one running thread, interleaving the micro-steps of ready, throw,
 * schedule, steal and join. Switching stacks is an abstract change of the running thread.
 */
module Sched {
  import opened Collections
  import opened Wrapping
  import R = RunQueue
  import P = RunQueueProof
  import Q = RunQueueRuns
  import T = Targeted

  /**
   * `hand` holds the threads in transit: those only a local variable of code running on this kthread refers to. Code that
   * is preempted with such threads, as the wake loop of join_kthread may be, takes them along to the next kthread.
   * `victim` is the kthread being stolen from; while it is set this kthread holds its own lock.
   */
  datatype Kthread = Kthread(
    ring: R.Ring,
    target: T.Target,
    hand: seq<nat>,
    running: Option<nat>,
    parked: bool,
    victim: Option<nat>)

  datatype System = System(ks: seq<Kthread>, asleep: seq<nat>)

  datatype Action =
    | Wake(i: nat, k: nat)          // a sleeping thread is picked to be made ready
    | Sleep(i: nat)                 // the running thread blocks
    | Yield(i: nat)                 // the running thread gives way and is to be queued again
    | Switch(i: nat)                // the thread in hand runs
    | Fetch(i: nat, n: nat)         // the n-th thread in hand comes next
    | Carry(i: nat, j: nat, n: nat) // the n-th thread in hand moves to kthread j with the code that holds it
    | Park(i: nat)
    | Unpark(i: nat)
    | OnRing(i: nat, j: nat, a: R.Step)
    | OnTarget(i: nat, j: nat, b: T.Step)

  predicate OwnerStep(a: R.Step) {
    a.DoStart? || a.DoSpill? || a.DoFill? || a.DoPublish? || a.DoCount? || a.DoPop? || a.DoReset? || a.DoDrain?
    || a.DoAccept?
  }

  function AsSeq(o: Option<nat>): seq<nat> {
    if o.Some? then [o.value] else []
  }

  /** Who may do what to whose ring, given who holds whose lock. */
  predicate MayStep(s: System, i: nat, j: nat, a: R.Step)
    requires i < |s.ks| && j < |s.ks|
  {
    if OwnerStep(a) then i == j && !s.ks[i].parked
    else if a.DoThrow? then i != j && !s.ks[j].parked && s.ks[j].victim.None?
    else if a.DoJoin? then i != j && s.ks[j].parked && s.ks[j].victim.None?
    else if a.DoLock? then i != j && !s.ks[i].parked && s.ks[i].victim.None? && s.ks[j].victim.None?
    else i != j && s.ks[i].victim == Some(j)
  }

  ghost predicate Sound(s: System) {
    forall i :: 0 <= i < |s.ks| ==> P.Inv(s.ks[i].ring) && T.Inv(s.ks[i].target)
  }

  ghost predicate Enabled(s: System, act: Action)
    requires Sound(s)
  {
    && act.i < |s.ks|
    && var k := s.ks[act.i];
       match act
       case Wake(i, n) => n < |s.asleep| && !k.parked
       case Sleep(i) => k.running.Some?
       case Yield(i) => k.running.Some?
       case Switch(i) => k.running.None? && k.hand != [] && !k.parked
       case Fetch(i, n) => n < |k.hand|
       case Carry(i, j, n) => j < |s.ks| && j != i && n < |k.hand|
       case Park(i) => k.running.None? && k.ring.owner.Free? && k.victim.None? && !k.parked
       case Unpark(i) => k.parked
       case OnRing(i, j, a) => j < |s.ks| && MayStep(s, i, j, a) && R.Enabled(s.ks[j].ring, a) && Q.Given(a) <= k.hand
       case OnTarget(i, j, b) =>
         && j < |s.ks|
         && (if b.DoPop? || b.DoReset? then i == j else i != j && !s.ks[j].parked)
         && T.Enabled(s.ks[j].target, b) && T.Given(b) <= k.hand
  }

  function WithoutAt(s: seq<nat>, k: nat): seq<nat>
    requires k < |s|
  {
    s[..k] + s[k + 1..]
  }

  function SetK(s: System, i: nat, k: Kthread): System
    requires i < |s.ks|
  {
    s.(ks := s.ks[i := k])
  }

  function Hold(s: System, i: nat, given: seq<nat>, taken: seq<nat>): System
    requires i < |s.ks| && given <= s.ks[i].hand
  {
    SetK(s, i, s.ks[i].(hand := s.ks[i].hand[|given|..] + taken))
  }

  function Aim(s: System, i: nat, j: nat, a: R.Step): System
    requires i < |s.ks|
  {
    SetK(s, i, s.ks[i].(victim :=
      if a.DoLock? then Some(j) else if a.DoFinish? || a.DoOverflow? then None else s.ks[i].victim))
  }

  ghost function Apply(s: System, act: Action): System
    requires Sound(s) && Enabled(s, act)
  {
    var k := s.ks[act.i];
    match act
    case Wake(i, n) => SetK(s, i, k.(hand := k.hand + [s.asleep[n]])).(asleep := WithoutAt(s.asleep, n))
    case Sleep(i) => SetK(s, i, k.(running := None)).(asleep := s.asleep + [k.running.value])
    case Yield(i) => SetK(s, i, k.(running := None, hand := k.hand + [k.running.value]))
    case Switch(i) => SetK(s, i, k.(running := Some(k.hand[0]), hand := k.hand[1..]))
    case Fetch(i, n) => SetK(s, i, k.(hand := [k.hand[n]] + WithoutAt(k.hand, n)))
    case Carry(i, j, n) =>
      SetK(SetK(s, i, k.(hand := WithoutAt(k.hand, n))), j, s.ks[j].(hand := s.ks[j].hand + [k.hand[n]]))
    case Park(i) => SetK(s, i, k.(parked := true))
    case Unpark(i) => SetK(s, i, k.(parked := false))
    case OnRing(i, j, a) =>
      var s1 := SetK(s, j, s.ks[j].(ring := R.Apply(s.ks[j].ring, a)));
      Aim(Hold(s1, i, Q.Given(a), Q.Taken(s.ks[j].ring, a)), i, j, a)
    case OnTarget(i, j, b) =>
      var s1 := SetK(s, j, s.ks[j].(target := T.Apply(s.ks[j].target, b)));
      Hold(s1, i, T.Given(b), T.Taken(s.ks[j].target, b))
  }

  /* Counting a thread over the whole system. */

  ghost predicate Sized(k: Kthread) {
    k.ring.taken <= |k.ring.log| && k.target.taken <= |k.target.log|
  }

  ghost predicate AllSized(s: System) {
    forall i :: 0 <= i < |s.ks| ==> Sized(s.ks[i])
  }

  ghost function At(k: Kthread, x: nat): nat
    requires Sized(k)
  {
    Q.Held(k.ring, x) + T.Held(k.target, x) + Count(k.hand, x) + Count(AsSeq(k.running), x)
  }

  ghost function Weights(s: System, x: nat): seq<nat>
    requires AllSized(s)
  {
    seq(|s.ks|, i requires 0 <= i < |s.ks| => At(s.ks[i], x))
  }

  ghost function Total(s: System, x: nat): nat
    requires AllSized(s)
  {
    SumOf(Weights(s, x)) + Count(s.asleep, x)
  }

  /** Changing one kthread changes the total by that kthread's change. */
  lemma Replace(s: System, i: nat, k: Kthread, x: nat)
    requires AllSized(s) && i < |s.ks| && Sized(k)
    ensures AllSized(SetK(s, i, k))
    ensures Total(SetK(s, i, k), x) + At(s.ks[i], x) == Total(s, x) + At(k, x)
  {
    SumUpdate(Weights(s, x), i, At(k, x));
    assert Weights(SetK(s, i, k), x) == Weights(s, x)[i := At(k, x)];
  }

  lemma ReplaceSound(s: System, i: nat, k: Kthread)
    requires Sound(s) && i < |s.ks| && P.Inv(k.ring) && T.Inv(k.target)
    ensures Sound(SetK(s, i, k))
  {
  }

  lemma SumAsleep(s: System, s': System, x: nat)
    requires AllSized(s) && s.ks == s'.ks
    ensures AllSized(s') && Total(s', x) == Total(s, x) - Count(s.asleep, x) + Count(s'.asleep, x)
  {
    assert Weights(s', x) == Weights(s, x);
  }

  lemma HandCount(hand: seq<nat>, given: seq<nat>, taken: seq<nat>, x: nat)
    requires given <= hand
    ensures Count(hand[|given|..] + taken, x) + Count(given, x) == Count(hand, x) + Count(taken, x)
  {
    assert hand[..|given|] == given;
    CountSplit(hand, |given|, x);
    CountAppend(hand[|given|..], taken, x);
  }

  lemma HoldTotal(s: System, i: nat, given: seq<nat>, taken: seq<nat>, x: nat)
    requires AllSized(s) && i < |s.ks| && given <= s.ks[i].hand
    ensures AllSized(Hold(s, i, given, taken))
    ensures Total(Hold(s, i, given, taken), x) + Count(given, x) == Total(s, x) + Count(taken, x)
  {
    var k := s.ks[i];
    Replace(s, i, k.(hand := k.hand[|given|..] + taken), x);
    HandCount(k.hand, given, taken, x);
  }

  lemma WakeTotal(s: System, i: nat, n: nat, x: nat)
    requires AllSized(s) && i < |s.ks| && n < |s.asleep|
    ensures var k := s.ks[i];
            var s' := SetK(s, i, k.(hand := k.hand + [s.asleep[n]])).(asleep := WithoutAt(s.asleep, n));
            AllSized(s') && Total(s', x) == Total(s, x)
  {
    var k := s.ks[i];
    var k' := k.(hand := k.hand + [s.asleep[n]]);
    Replace(s, i, k', x);
    CountAppend(k.hand, [s.asleep[n]], x);
    CountRemove(s.asleep, n, x);
    SumAsleep(SetK(s, i, k'), SetK(s, i, k').(asleep := WithoutAt(s.asleep, n)), x);
  }

  lemma SleepTotal(s: System, i: nat, x: nat)
    requires AllSized(s) && i < |s.ks| && s.ks[i].running.Some?
    ensures var k := s.ks[i];
            var s' := SetK(s, i, k.(running := None)).(asleep := s.asleep + [k.running.value]);
            AllSized(s') && Total(s', x) == Total(s, x)
  {
    var k := s.ks[i];
    Replace(s, i, k.(running := None), x);
    CountAppend(s.asleep, [k.running.value], x);
    SumAsleep(SetK(s, i, k.(running := None)), SetK(s, i, k.(running := None)).(asleep := s.asleep + [k.running.value]), x);
  }

  lemma YieldTotal(s: System, i: nat, x: nat)
    requires AllSized(s) && i < |s.ks| && s.ks[i].running.Some?
    ensures var k := s.ks[i];
            var s' := SetK(s, i, k.(running := None, hand := k.hand + [k.running.value]));
            AllSized(s') && Total(s', x) == Total(s, x)
  {
    var k := s.ks[i];
    CountAppend(k.hand, [k.running.value], x);
    Replace(s, i, k.(running := None, hand := k.hand + [k.running.value]), x);
  }

  lemma SwitchTotal(s: System, i: nat, x: nat)
    requires AllSized(s) && i < |s.ks| && s.ks[i].running.None? && s.ks[i].hand != []
    ensures var k := s.ks[i];
            var s' := SetK(s, i, k.(running := Some(k.hand[0]), hand := k.hand[1..]));
            AllSized(s') && Total(s', x) == Total(s, x)
  {
    var k := s.ks[i];
    CountAppend([k.hand[0]], k.hand[1..], x);
    assert k.hand == [k.hand[0]] + k.hand[1..];
    Replace(s, i, k.(running := Some(k.hand[0]), hand := k.hand[1..]), x);
  }

  lemma FetchTotal(s: System, i: nat, n: nat, x: nat)
    requires AllSized(s) && i < |s.ks| && n < |s.ks[i].hand|
    ensures var k := s.ks[i];
            var s' := SetK(s, i, k.(hand := [k.hand[n]] + WithoutAt(k.hand, n)));
            AllSized(s') && Total(s', x) == Total(s, x)
  {
    var k := s.ks[i];
    CountRemove(k.hand, n, x);
    CountAppend([k.hand[n]], WithoutAt(k.hand, n), x);
    Replace(s, i, k.(hand := [k.hand[n]] + WithoutAt(k.hand, n)), x);
  }

  lemma CarryTotal(s: System, i: nat, j: nat, n: nat, x: nat)
    requires AllSized(s) && i < |s.ks| && j < |s.ks| && j != i && n < |s.ks[i].hand|
    ensures var k := s.ks[i];
            var s' := SetK(SetK(s, i, k.(hand := WithoutAt(k.hand, n))), j, s.ks[j].(hand := s.ks[j].hand + [k.hand[n]]));
            AllSized(s') && Total(s', x) == Total(s, x)
  {
    var k := s.ks[i];
    var s1 := SetK(s, i, k.(hand := WithoutAt(k.hand, n)));
    CountRemove(k.hand, n, x);
    Replace(s, i, k.(hand := WithoutAt(k.hand, n)), x);
    CountAppend(s.ks[j].hand, [k.hand[n]], x);
    Replace(s1, j, s.ks[j].(hand := s.ks[j].hand + [k.hand[n]]), x);
  }

  lemma AimTotal(s: System, i: nat, j: nat, a: R.Step, x: nat)
    requires AllSized(s) && i < |s.ks|
    ensures AllSized(Aim(s, i, j, a)) && Total(Aim(s, i, j, a), x) == Total(s, x)
  {
    Replace(s, i, Aim(s, i, j, a).ks[i], x);
  }

  /** The bookkeeping of any step on another structure of the system: `k'` holds what it was given and not what was taken. */
  lemma ExchangeTotal(s: System, i: nat, j: nat, k': Kthread, given: seq<nat>, taken: seq<nat>, x: nat)
    requires AllSized(s) && i < |s.ks| && j < |s.ks| && Sized(k') && k'.hand == s.ks[j].hand && given <= s.ks[i].hand
    requires At(k', x) + Count(taken, x) == At(s.ks[j], x) + Count(given, x)
    ensures AllSized(Hold(SetK(s, j, k'), i, given, taken))
    ensures Total(Hold(SetK(s, j, k'), i, given, taken), x) == Total(s, x)
  {
    Replace(s, j, k', x);
    HoldTotal(SetK(s, j, k'), i, given, taken, x);
  }

  lemma RingTotal(s: System, i: nat, j: nat, a: R.Step, x: nat)
    requires AllSized(s) && i < |s.ks| && j < |s.ks| && P.Inv(s.ks[j].ring) && R.Enabled(s.ks[j].ring, a)
    requires Q.Given(a) <= s.ks[i].hand
    ensures P.Inv(R.Apply(s.ks[j].ring, a))
    ensures var s1 := SetK(s, j, s.ks[j].(ring := R.Apply(s.ks[j].ring, a)));
            var s' := Aim(Hold(s1, i, Q.Given(a), Q.Taken(s.ks[j].ring, a)), i, j, a);
            AllSized(s') && Total(s', x) == Total(s, x)
  {
    var k := s.ks[j];
    Q.Balance(k.ring, a, x);
    var k' := k.(ring := R.Apply(k.ring, a));
    ExchangeTotal(s, i, j, k', Q.Given(a), Q.Taken(k.ring, a), x);
    AimTotal(Hold(SetK(s, j, k'), i, Q.Given(a), Q.Taken(k.ring, a)), i, j, a, x);
  }

  lemma TargetTotal(s: System, i: nat, j: nat, b: T.Step, x: nat)
    requires AllSized(s) && i < |s.ks| && j < |s.ks| && T.Inv(s.ks[j].target) && T.Enabled(s.ks[j].target, b)
    requires T.Given(b) <= s.ks[i].hand
    ensures T.Inv(T.Apply(s.ks[j].target, b))
    ensures var s1 := SetK(s, j, s.ks[j].(target := T.Apply(s.ks[j].target, b)));
            var s' := Hold(s1, i, T.Given(b), T.Taken(s.ks[j].target, b));
            AllSized(s') && Total(s', x) == Total(s, x)
  {
    var k := s.ks[j];
    T.Balance(k.target, b, x);
    ExchangeTotal(s, i, j, k.(target := T.Apply(k.target, b)), T.Given(b), T.Taken(k.target, b), x);
  }

  /** Every step of every kthread conserves every thread. */
  lemma StepConserves(s: System, act: Action, x: nat)
    requires Sound(s) && Enabled(s, act)
    ensures AllSized(s) && AllSized(Apply(s, act)) && Total(Apply(s, act), x) == Total(s, x)
  {
    match act
    case Wake(i, n) => WakeTotal(s, i, n, x);
    case Sleep(i) => SleepTotal(s, i, x);
    case Yield(i) => YieldTotal(s, i, x);
    case Switch(i) => SwitchTotal(s, i, x);
    case Fetch(i, n) => FetchTotal(s, i, n, x);
    case Carry(i, j, n) => CarryTotal(s, i, j, n, x);
    case Park(i) => Replace(s, i, s.ks[i].(parked := true), x);
    case Unpark(i) => Replace(s, i, s.ks[i].(parked := false), x);
    case OnRing(i, j, a) => RingTotal(s, i, j, a, x);
    case OnTarget(i, j, b) => TargetTotal(s, i, j, b, x);
  }

  /** Every step keeps every ring and every targeted queue sound. */
  lemma StepSound(s: System, act: Action)
    requires Sound(s) && Enabled(s, act)
    ensures Sound(Apply(s, act))
  {
    match act
    case OnRing(i, j, a) =>
      P.StepKeeps(s.ks[j].ring, a);
      ReplaceSound(s, j, s.ks[j].(ring := R.Apply(s.ks[j].ring, a)));
    case OnTarget(i, j, b) =>
      T.StepKeeps(s.ks[j].target, b);
      ReplaceSound(s, j, s.ks[j].(target := T.Apply(s.ks[j].target, b)));
    case Carry(i, j, n) =>
      ReplaceSound(s, i, s.ks[i].(hand := WithoutAt(s.ks[i].hand, n)));
    case _ => ReplaceSound(s, act.i, Apply(s, act).ks[act.i]);
  }

  ghost predicate Run(ss: seq<System>, acts: seq<Action>) {
    && |ss| == |acts| + 1
    && ss[0] == FreshSystem(|ss[0].ks|, ss[0].asleep) && Distinct(ss[0].asleep)
    && forall n :: 0 <= n < |acts| && Sound(ss[n]) ==> Enabled(ss[n], acts[n]) && ss[n + 1] == Apply(ss[n], acts[n])
  }

  /** Kthreads at start-up: nothing queued, nothing running. */
  function FreshKthread(): Kthread {
    Kthread(Q.Initial(seq(R.RQ_SIZE, _ => 0)), T.Target(seq(T.RRQ_SIZE, _ => 0), 0, 0, T.Idle, [], 0, 0), [], None, false, None)
  }

  function FreshSystem(n: nat, asleep: seq<nat>): System {
    System(seq(n, _ => FreshKthread()), asleep)
  }

  /** A system at start-up is sound and holds each of its threads exactly once. */
  lemma FreshHoldsOnce(n: nat, asleep: seq<nat>, x: nat)
    requires Distinct(asleep)
    ensures Sound(FreshSystem(n, asleep)) && (x in asleep ==> Total(FreshSystem(n, asleep), x) == 1)
  {
    ZeroSum(Weights(FreshSystem(n, asleep), x));
    if x in asleep {
      CountDistinct(asleep, x);
    }
  }

  lemma {:induction false} RunConserves(ss: seq<System>, acts: seq<Action>, n: nat, x: nat)
    requires Run(ss, acts) && n <= |acts|
    ensures Sound(ss[n]) && Sound(ss[0]) && Total(ss[n], x) == Total(ss[0], x)
  {
    FreshHoldsOnce(|ss[0].ks|, ss[0].asleep, x);
    if n > 0 {
      RunConserves(ss, acts, n - 1, x);
      StepSound(ss[n - 1], acts[n - 1]);
      StepConserves(ss[n - 1], acts[n - 1], x);
    }
  }

  /* Exactly one place. */

  datatype Place =
    | Asleep
    | RingOf(i: nat)        // in kthread i's ring
    | OverflowOf(i: nat)    // on its overflow list
    | PushOf(i: nat)        // being pushed by it
    | TargetOf(i: nat)      // in its targeted queue
    | ThrowOf(i: nat)       // being thrown to it
    | HandOf(i: nat)        // in transit on it
    | RunningOn(i: nat)

  ghost predicate Exists(s: System, p: Place) {
    p.Asleep? || p.i < |s.ks|
  }

  ghost function Contents(s: System, p: Place): seq<nat>
    requires AllSized(s) && Exists(s, p)
  {
    match p
    case Asleep => s.asleep
    case RingOf(i) => P.Window(s.ks[i].ring)
    case OverflowOf(i) => s.ks[i].ring.overflow
    case PushOf(i) => Q.InHand(s.ks[i].ring.owner)
    case TargetOf(i) => T.Window(s.ks[i].target)
    case ThrowOf(i) => T.InHand(s.ks[i].target.thrower)
    case HandOf(i) => s.ks[i].hand
    case RunningOn(i) => AsSeq(s.ks[i].running)
  }

  lemma PlaceWithin(s: System, p: Place, x: nat)
    requires AllSized(s) && Exists(s, p) && !p.Asleep?
    ensures Count(Contents(s, p), x) <= Weights(s, x)[p.i]
  {
  }

  lemma PlacesWithin(s: System, p: Place, q: Place, x: nat)
    requires AllSized(s) && Exists(s, p) && Exists(s, q) && !p.Asleep? && !q.Asleep? && p != q && p.i == q.i
    ensures Count(Contents(s, p), x) + Count(Contents(s, q), x) <= Weights(s, x)[p.i]
  {
  }

  lemma TwoPlaces(s: System, p: Place, q: Place, x: nat)
    requires AllSized(s) && Exists(s, p) && Exists(s, q) && p != q
    ensures Count(Contents(s, p), x) + Count(Contents(s, q), x) <= Total(s, x)
  {
    var w := Weights(s, x);
    if p.Asleep? {
      PlaceWithin(s, q, x);
      SumPart(w, q.i);
    } else if q.Asleep? {
      PlaceWithin(s, p, x);
      SumPart(w, p.i);
    } else if p.i != q.i {
      PlaceWithin(s, p, x);
      PlaceWithin(s, q, x);
      SumParts(w, if p.i < q.i then p.i else q.i, if p.i < q.i then q.i else p.i);
    } else {
      PlacesWithin(s, p, q, x);
      SumPart(w, p.i);
    }
  }

  lemma FindPlace(s: System, x: nat) returns (p: Place)
    requires AllSized(s) && Total(s, x) > 0
    ensures Exists(s, p) && Count(Contents(s, p), x) > 0
  {
    if Count(s.asleep, x) > 0 {
      p := Asleep;
    } else {
      var i := SumPositive(Weights(s, x));
      var k := s.ks[i];
      p := if Count(P.Window(k.ring), x) > 0 then RingOf(i)
           else if Count(k.ring.overflow, x) > 0 then OverflowOf(i)
           else if Count(Q.InHand(k.ring.owner), x) > 0 then PushOf(i)
           else if Count(T.Window(k.target), x) > 0 then TargetOf(i)
           else if Count(T.InHand(k.target.thrower), x) > 0 then ThrowOf(i)
           else if Count(k.hand, x) > 0 then HandOf(i)
           else RunningOn(i);
    }
  }

  /**
   * In every run from start-up each thread is at every moment in exactly
   * one place: asleep, in one ring, on one overflow list, in one targeted queue, in transit, or running on one
   * kthread. In particular a running thread is in no queue.
   */
  lemma ExactlyOnePlace(ss: seq<System>, acts: seq<Action>, n: nat, x: nat) returns (p: Place)
    requires Run(ss, acts) && n <= |acts| && x in ss[0].asleep
    ensures Sound(ss[n])
    ensures Exists(ss[n], p) && Count(Contents(ss[n], p), x) == 1
    ensures forall q :: Exists(ss[n], q) && q != p ==> x !in Contents(ss[n], q)
  {
    RunConserves(ss, acts, n, x);
    FreshHoldsOnce(|ss[0].ks|, ss[0].asleep, x);
    var s := ss[n];
    p := FindPlace(s, x);
    var other := if p.Asleep? then Asleep else if p == RingOf(p.i) then OverflowOf(p.i) else RingOf(p.i);
    if other != p {
      TwoPlaces(s, p, other, x);
    }
    forall q | Exists(s, q) && q != p
      ensures x !in Contents(s, q)
    {
      TwoPlaces(s, p, q, x);
      CountPositive(Contents(s, q), x);
    }
  }
}
