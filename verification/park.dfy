/**
 * How many kthreads stay awake (runtime/kthread.c): a kthread parks by reading, decrementing and, if too few would
 * remain, undoing an atomic counter. Any number of kthreads interleave these steps.
 */
module Park {
  import opened Collections

  /** Where a kthread is. Between its decrement and its decision it remembers the value it saw. */
  datatype Stage = Unattached | Awake | Checked | Decremented(remaining: int) | Undoing | Parked

  datatype State = State(spinks: nat, running: int, stages: seq<Stage>)

  datatype Step = Attach(i: nat) | Read(i: nat) | Decrement(i: nat) | Decide(i: nat) | Undo(i: nat) | Wake(i: nat)

  predicate Enabled(s: State, a: Step) {
    && a.i < |s.stages|
    && match a
       case Attach(i) => s.stages[i].Unattached?
       case Read(i) => s.stages[i].Awake?
       case Decrement(i) => s.stages[i].Checked?
       case Decide(i) => s.stages[i].Decremented?
       case Undo(i) => s.stages[i].Undoing?
       case Wake(i) => s.stages[i].Parked?
  }

  function Apply(s: State, a: Step): State
    requires Enabled(s, a)
  {
    match a
    case Attach(i) => s.(running := s.running + 1, stages := s.stages[i := Awake])
    case Read(i) => if AsUnsigned(s.running) <= s.spinks then s else s.(stages := s.stages[i := Checked])
    case Decrement(i) => s.(running := s.running - 1, stages := s.stages[i := Decremented(s.running - 1)])
    case Decide(i) =>
      s.(stages := s.stages[i := if AsUnsigned(s.stages[i].remaining) < s.spinks then Undoing else Parked])
    case Undo(i) => s.(running := s.running + 1, stages := s.stages[i := Awake])
    case Wake(i) => s.(running := s.running + 1, stages := s.stages[i := Awake])
  }

  /** The comparisons with spinks mix a signed with an unsigned int: the signed one is converted first. */
  function AsUnsigned(a: int): nat {
    a % 0x1_0000_0000
  }

  /** Counted as running. */
  function Running(st: Stage): nat {
    if st.Awake? || st.Checked? then 1 else 0
  }

  /** Decremented the counter and will find that too few remain, or is about to undo it. */
  function Returning(st: Stage, spinks: nat): nat {
    if st.Undoing? || (st.Decremented? && st.remaining < spinks) then 1 else 0
  }

  function RunningOnes(s: State): seq<nat> {
    seq(|s.stages|, i requires 0 <= i < |s.stages| => Running(s.stages[i]))
  }

  function ReturningOnes(s: State): seq<nat> {
    seq(|s.stages|, i requires 0 <= i < |s.stages| => Returning(s.stages[i], s.spinks))
  }

  /** The kthread parked, or will: it saw enough others remaining. */
  predicate Committed(st: Stage, spinks: nat) {
    st.Parked? || (st.Decremented? && st.remaining >= spinks)
  }

  ghost predicate Inv(s: State) {
    && s.running == SumOf(RunningOnes(s))
    && (forall i :: 0 <= i < |s.stages| && s.stages[i].Decremented? ==> 0 <= s.stages[i].remaining < |s.stages|)
    && (forall i :: 0 <= i < |s.stages| && Committed(s.stages[i], s.spinks) ==>
      SumOf(RunningOnes(s)) + SumOf(ReturningOnes(s)) >= s.spinks)
  }

  lemma SumsChange(s: State, i: nat, st: Stage, running: int)
    requires i < |s.stages|
    ensures var s' := s.(running := running, stages := s.stages[i := st]);
            SumOf(RunningOnes(s')) == SumOf(RunningOnes(s)) - Running(s.stages[i]) + Running(st)
            && SumOf(ReturningOnes(s')) == SumOf(ReturningOnes(s)) - Returning(s.stages[i], s.spinks) + Returning(st, s.spinks)
  {
    var s' := s.(running := running, stages := s.stages[i := st]);
    SumUpdate(RunningOnes(s), i, Running(st));
    assert RunningOnes(s') == RunningOnes(s)[i := Running(st)];
    SumUpdate(ReturningOnes(s), i, Returning(st, s.spinks));
    assert ReturningOnes(s') == ReturningOnes(s)[i := Returning(st, s.spinks)];
  }

  lemma {:induction false} SumBound(w: seq<nat>)
    requires forall i :: 0 <= i < |w| ==> w[i] <= 1
    ensures SumOf(w) <= |w|
  {
    if w != [] {
      SumBound(w[..|w| - 1]);
    }
  }

  /** One kthread moves on: the counter follows, and either no one is lost to the floor or enough remain. */
  lemma ChangeKeeps(s: State, i: nat, st: Stage, running: int)
    requires Inv(s) && i < |s.stages|
    requires running == s.running - Running(s.stages[i]) + Running(st)
    requires st.Decremented? ==> 0 <= st.remaining < |s.stages|
    requires
      || (Running(st) + Returning(st, s.spinks) >= Running(s.stages[i]) + Returning(s.stages[i], s.spinks)
          && (Committed(st, s.spinks) ==> Committed(s.stages[i], s.spinks)))
      || running >= s.spinks
    ensures Inv(s.(running := running, stages := s.stages[i := st]))
  {
    SumsChange(s, i, st, running);
  }

  /** Every step keeps the floor; kthreads are counted by an int, so there are fewer than 2^31. */
  lemma StepKeeps(s: State, a: Step)
    requires Inv(s) && Enabled(s, a) && |s.stages| < 0x8000_0000
    ensures Inv(Apply(s, a))
  {
    SumBound(RunningOnes(s));
    match a
    case Attach(i) => ChangeKeeps(s, i, Awake, s.running + 1);
    case Read(i) => ChangeKeeps(s, i, Checked, s.running);
    case Decrement(i) =>
      SumPart(RunningOnes(s), i);
      ChangeKeeps(s, i, Decremented(s.running - 1), s.running - 1);
    case Decide(i) => ChangeKeeps(s, i, if s.stages[i].remaining < s.spinks then Undoing else Parked, s.running);
    case Undo(i) => ChangeKeeps(s, i, Awake, s.running + 1);
    case Wake(i) => ChangeKeeps(s, i, Awake, s.running + 1);
  }

  /** A kthread parks exactly when, undisturbed, it finds more than spinks running; otherwise it stays awake. */
  lemma ParksExact(s: State, i: nat)
    requires Inv(s) && i < |s.stages| < 0x8000_0000 && s.stages[i].Awake?
    ensures Enabled(s, Read(i))
    ensures s.running <= s.spinks <==> Apply(s, Read(i)).stages[i].Awake?
    ensures s.running > s.spinks ==>
              var s1 := Apply(s, Read(i));
              && Enabled(s1, Decrement(i)) && Enabled(Apply(s1, Decrement(i)), Decide(i))
              && var s2 := Apply(Apply(s1, Decrement(i)), Decide(i));
                 s2.stages == s.stages[i := Parked] && s2.running == s.running - 1
  {
    SumBound(RunningOnes(s));
  }

  /** After its decrement a kthread goes on to park exactly when at least spinks remain, and undoes it otherwise. */
  lemma DecideExact(s: State, i: nat)
    requires Inv(s) && i < |s.stages| < 0x8000_0000 && s.stages[i].Decremented?
    ensures Enabled(s, Decide(i))
    ensures Apply(s, Decide(i)).stages[i] == if s.stages[i].remaining >= s.spinks then Parked else Undoing
  {
  }

  ghost predicate Run(ss: seq<State>, steps: seq<Step>) {
    && |ss| == |steps| + 1
    && ss[0].running == 0 && |ss[0].stages| < 0x8000_0000
    && (forall i :: 0 <= i < |ss[0].stages| ==> ss[0].stages[i] == Unattached)
    && forall n :: 0 <= n < |steps| ==> Enabled(ss[n], steps[n]) && ss[n + 1] == Apply(ss[n], steps[n])
  }

  lemma {:induction false} RunKeeps(ss: seq<State>, steps: seq<Step>, n: nat)
    requires Run(ss, steps) && n <= |steps|
    ensures Inv(ss[n]) && |ss[n].stages| == |ss[0].stages| && ss[n].spinks == ss[0].spinks
  {
    if n == 0 {
      ZeroSum(RunningOnes(ss[0]));
    } else {
      RunKeeps(ss, steps, n - 1);
      StepKeeps(ss[n - 1], steps[n - 1]);
    }
  }

  /**
   * In every run: the counter is exactly the number of kthreads counted as running and never negative; a value read
   * back by a decrement is never negative, so the mixed comparison is the plain one; and while any kthread is parked
   * or will park, at least spinks others run or are on their way back.
   */
  lemma SpinningFloor(ss: seq<State>, steps: seq<Step>, n: nat, i: nat)
    requires Run(ss, steps) && n <= |steps| && i < |ss[n].stages|
    ensures var s := ss[n];
            s.running == SumOf(RunningOnes(s)) >= 0
            && (s.stages[i].Decremented? ==> AsUnsigned(s.stages[i].remaining) == s.stages[i].remaining)
            && (Committed(s.stages[i], s.spinks) ==> s.running + SumOf(ReturningOnes(s)) >= s.spinks)
  {
    RunKeeps(ss, steps, n);
  }

  /** When nobody is between a decrement and its undo, a parked kthread means at least spinks are counted as running. */
  lemma QuietFloor(ss: seq<State>, steps: seq<Step>, n: nat, i: nat)
    requires Run(ss, steps) && n <= |steps| && i < |ss[n].stages| && ss[n].stages[i].Parked?
    requires forall j :: 0 <= j < |ss[n].stages| ==> !ss[n].stages[j].Decremented? && !ss[n].stages[j].Undoing?
    ensures ss[n].running >= ss[n].spinks
  {
    SpinningFloor(ss, steps, n, i);
    ZeroSum(ReturningOnes(ss[n]));
  }
}
