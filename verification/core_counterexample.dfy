/**
 * A run of three admissible attachments on one core that ends in the BUG() of pick_core_for_proc,
 * although the last process is below its guarantee: the second process joins with neither a
 * guarantee nor an idle core, and uses up the only core that could have been preempted.
 */
module CoreCounterexample {
  import opened Collections
  import opened CoreState
  import opened CoreInvariant
  import opened CoreMoves
  import opened CoreSteps
  import opened CoreRuns

  /** A process with one parked kthread that has just been attached. */
  function Joining(g: nat): Proc {
    Proc(g, [Thread(true, 0, 0)], [], [0], {0}, 0, false, false, true, false, false, 1)
  }

  /** The same process once its kthread holds a core or waits for one. */
  function Started(g: nat, refs: nat): Proc {
    Proc(g, [Thread(false, 0, 0)], [0], [], {}, 0, false, 1 > g, false, false, false, refs)
  }

  lemma JoiningForm(g: nat)
    ensures FreshProc(g, 1, 0) == Joining(g)
  {
    assert Below(1) == Below(0) + {0};
    assert seq(1, i => i) == [0];
    assert seq(1, i => Thread(true, 0, 0)) == [Thread(true, 0, 0)];
  }

  lemma StartingForm(g: nat, refs: nat)
    ensures Reserved(Joining(g).(launched := false, refs := refs), 0, 0, 1) == Started(g, refs + 1)
  {
    assert Without([0], 0) == [];
    assert [] + [0] == [0];
    assert [Thread(true, 0, 0)][0 := Thread(false, 0, 0)] == [Thread(false, 0, 0)];
    assert {0} - {0} == {};
  }

  /** Process 0, without a guarantee, runs on the only core. */
  function OneRunning(): State {
    State(1, {0}, {}, 0, [Core(Some(Tid(0, 0)), None, None)], map[0 := Started(0, 3)],
          [], [0], [Tid(0, 0)], map[Tid(0, 0) := 0], [0], [])
  }

  /** Process 1, without a guarantee either, waits for that core. */
  function OneWaiting(): State {
    State(1, {0}, {}, 0, [Core(Some(Tid(0, 0)), None, Some(Tid(1, 0)))],
          map[0 := Started(0, 3).(overloaded := true, inflight := 1), 1 := Started(0, 2)],
          [0], [1, 0], [Tid(0, 0), Tid(1, 0)], map[Tid(0, 0) := 0, Tid(1, 0) := 1], [0, 1], [])
  }

  /** Process 0 attached, its kthread chosen, the only core still idle. */
  function FirstPicked(): State {
    State(1, {0}, {0}, 1, [Core(None, None, None)], map[0 := Joining(0).(launched := false)], [], [], [], map[], [0], [])
  }

  lemma FirstWakes()
    ensures WakeOnCore(FirstPicked(), 0, Tid(0, 0)) == Done(OneRunning(), Some(Tid(0, 0)))
  {
    var t := Tid(0, 0);
    var r := CoreReserve(FirstPicked(), 0, t);
    assert r.procs == map[0 := Joining(0).(launched := false, refs := 2)];
    assert r.hist == [Core(Some(t), None, None)];
    StartingForm(0, 2);
    ReserveForm(r, t, 0);
    assert ThreadReserve(r, t, 0).procs == map[0 := Started(0, 3)];
    assert ThreadReserve(r, t, 0) == OneRunning();
  }

  lemma FirstJoins()
    ensures AddClient(Boot(1, {0}), 0, 0, 1) == Done(OneRunning(), Some(Tid(0, 0)))
  {
    var s := Enrolled(Boot(1, {0}), 0, 0, 1);
    JoiningForm(0);
    assert s.procs == map[0 := Joining(0)];
    assert s.hist == [Core(None, None, None)];
    assert PickCoreForProc(s, 0) == Some(0);
    var m := PickThreadForProc(s, 0, 0).state;
    assert m.procs == map[0 := Joining(0).(launched := false)];
    assert m == FirstPicked();
    FirstWakes();
  }

  lemma SecondJoins()
    ensures AddClient(OneRunning(), 1, 0, 1) == Done(OneWaiting(), Some(Tid(1, 0)))
  {
    var t := Tid(1, 0);
    var s := Enrolled(OneRunning(), 1, 0, 1);
    JoiningForm(0);
    assert s.procs == map[0 := Started(0, 3), 1 := Joining(0)];
    assert Preemptable(s, 0);
    assert PickCoreForProc(s, 1) == Some(0);
    var m := PickThreadForProc(s, 1, 0).state;
    assert m.procs == map[0 := Started(0, 3), 1 := Joining(0).(launched := false)];
    StartingForm(0, 1);
    PreemptForm(m, 0, t);
    var r := Preempt(m, 0, t);
    assert r.procs == OneWaiting().procs;
    assert r.hist == OneWaiting().hist;
    assert r == OneWaiting();
  }

  lemma ThirdFails()
    ensures AddClient(OneWaiting(), 2, 1, 1) == Bug
  {
    var s := Enrolled(OneWaiting(), 2, 1, 1);
    JoiningForm(1);
    assert s.procs[2] == Joining(1);
    assert !Preemptable(s, 0);
    assert NextAvail(s.avail, s.cpus, 0) == 1;
    assert NextPreemptable(s, 0) == NextPreemptable(s, 1) == None;
    assert PickCoreForProc(s, 2) == None;
  }

  /** The guarantees 0, 0 and 1 fit one core, yet attaching the three processes in turn reaches BUG(). */
  lemma GuaranteeLost()
    ensures var a := AddClient(Boot(1, {0}), 0, 0, 1);
            && a.Done?
            && var b := AddClient(a.state, 1, 0, 1);
            && b.Done?
            && Admissible(|{0}|, 0 + 0, 1)
            && AddClient(b.state, 2, 1, 1) == Bug
  {
    FirstJoins();
    SecondJoins();
    ThirdFails();
  }
}
