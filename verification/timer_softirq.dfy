/** Firing expired timers (runtime/timer.c, timer_softirq). */
module TimerSoftirq {
  import opened TimerHeap
  import opened Timer
  import opened TimerRuns

  /** While a handler runs and the lock is free, `calls` are made, by it or by others; afterwards the clock reads `now`. */
  datatype Turn = Turn(calls: seq<Call>, now: nat)

  /** The call was made, or it would have been a BUG or a misuse and did not happen. */
  ghost predicate Made(w: World, c: Call, w': World) {
    w' == w || Step(w, c, w')
  }

  /** The calls lead from w to w'. */
  ghost predicate AllMade(w: World, calls: seq<Call>, w': World)
    decreases |calls|
  {
    if calls == [] then w' == w
    else
      var before, last := calls[..|calls| - 1], calls[|calls| - 1];
      exists m :: AllMade(w, before, m) && Made(m, last, w')
  }

  lemma AllMadeNext(w: World, calls: seq<Call>, i: nat, m: World, w': World)
    requires i < |calls| && AllMade(w, calls[..i], m) && Made(m, calls[i], w')
    ensures AllMade(w, calls[..i + 1], w')
  {
    var next := calls[..i + 1];
    assert next[..|next| - 1] == calls[..i] && next[|next| - 1] == calls[i];
  }

  /** timer_init */
  method InitOn(ks: seq<Timers>, ents: Entries, e: nat, ghost w: World) returns (ghost w': World)
    requires Shows(w, ks, ents)
    modifies ents.armed
    ensures Shows(w', ks, ents) && Made(w, InitCall(e), w')
  {
    w' := w;
    if e >= ents.idx.Length {
      return;
    }
    var j := ents.localk[e];
    if j < |ks| && ents.idx[e] < ks[j].timern && ks[j].timers[ents.idx[e]].e == e {
      return;
    }
    w' := w.(armed := w.armed[e := false], fired := w.fired - {e}, dropped := w.dropped - {e});
    ents.armed[e] := false;
  }

  method Start(ks: seq<Timers>, ents: Entries, j: nat, e: nat, deadline: nat, ghost w: World) returns (ghost w': World)
    requires Shows(w, ks, ents) && Good(w)
    modifies ks, set k | k in ks :: k.timers, ents.idx, ents.armed, ents.localk
    ensures Shows(w', ks, ents) && Made(w, StartCall(j, e, deadline), w')
  {
    w' := w;
    if j < |ks| && e < ents.idx.Length {
      var ok;
      ok, w' := StartOn(ks, ents, j, e, deadline, w);
    }
  }

  method Cancel(ks: seq<Timers>, ents: Entries, e: nat, ghost w: World) returns (ghost w': World)
    requires Shows(w, ks, ents) && Good(w)
    modifies ks, set k | k in ks :: k.timers, ents.idx, ents.armed, ents.localk
    ensures Shows(w', ks, ents) && Made(w, CancelCall(e), w')
  {
    w' := w;
    if e < ents.idx.Length && ents.localk[e] < |ks| {
      var r;
      r, w' := CancelOn(ks, ents, e, w);
    }
  }

  method Fire(ks: seq<Timers>, ents: Entries, j: nat, ghost w: World) returns (ghost w': World)
    requires Shows(w, ks, ents) && Good(w)
    modifies ks, set k | k in ks :: k.timers, ents.idx, ents.armed, ents.localk
    ensures Shows(w', ks, ents) && Made(w, FireCall(j), w')
  {
    w' := w;
    if j < |ks| && ks[j].timern > 0 {
      var s;
      s, w' := FireOn(ks, ents, j, w);
    }
  }

  method Merge(ks: seq<Timers>, ents: Entries, j: nat, r: nat, ghost w: World) returns (ghost w': World)
    requires Shows(w, ks, ents) && Good(w)
    modifies ks, set k | k in ks :: k.timers, ents.idx, ents.armed, ents.localk
    ensures Shows(w', ks, ents) && Made(w, MergeCall(j, r), w')
  {
    w' := w;
    if j < |ks| && r < |ks| && j != r && (ks[j].timern + ks[r].timern < MAX_TIMERS || ks[r].timern == 0) {
      var ok;
      ok, w' := MergeOn(ks, ents, j, r, w);
    }
  }

  method Act(ks: seq<Timers>, ents: Entries, c: Call, ghost w: World) returns (ghost w': World)
    requires Shows(w, ks, ents) && Good(w)
    modifies ks, set k | k in ks :: k.timers, ents.idx, ents.armed, ents.localk
    ensures Shows(w', ks, ents) && Good(w') && Made(w, c, w')
  {
    w' := Dispatch(ks, ents, c, w);
    MadeGood(w, c, w');
  }

  method Dispatch(ks: seq<Timers>, ents: Entries, c: Call, ghost w: World) returns (ghost w': World)
    requires Shows(w, ks, ents) && Good(w)
    modifies ks, set k | k in ks :: k.timers, ents.idx, ents.armed, ents.localk
    ensures Shows(w', ks, ents) && Made(w, c, w')
  {
    match c
    case InitCall(e) => w' := InitOn(ks, ents, e, w);
    case StartCall(j, e, deadline) => w' := Start(ks, ents, j, e, deadline, w);
    case CancelCall(e) => w' := Cancel(ks, ents, e, w);
    case FireCall(j) => w' := Fire(ks, ents, j, w);
    case MergeCall(j, r) => w' := Merge(ks, ents, j, r, w);
  }

  lemma MadeGood(w: World, c: Call, w': World)
    requires Good(w) && Made(w, c, w')
    ensures Good(w')
  {
    if w' != w {
      StepKeeps(w, c, w');
    }
  }

  method ActAll(ks: seq<Timers>, ents: Entries, calls: seq<Call>, ghost w: World) returns (ghost w': World)
    requires Shows(w, ks, ents) && Good(w)
    modifies ks, set k | k in ks :: k.timers, ents.idx, ents.armed, ents.localk
    ensures Shows(w', ks, ents) && Good(w') && AllMade(w, calls, w')
  {
    w' := w;
    for i := 0 to |calls|
      invariant Shows(w', ks, ents) && Good(w') && AllMade(w, calls[..i], w')
    {
      ghost var m := w';
      w' := Act(ks, ents, calls[i], m);
      AllMadeNext(w, calls, i, m, w');
    }
    assert calls[..|calls|] == calls;
  }

  /** Fired at time `now`, when `before` was the heap: due, and no later than any other timer. */
  ghost predicate FiredWell(s: Slot, now: nat, before: seq<Slot>) {
    && s.deadline <= now
    && s in before
    && forall other :: other in before ==> s.deadline <= other.deadline
  }

  /** The root of kthread j's heap fires, then the calls are made. */
  ghost predicate TurnStep(w: World, j: nat, calls: seq<Call>, w': World) {
    exists m :: FireStep(w, j, m) && AllMade(m, calls, w')
  }

  method FireOne(ks: seq<Timers>, ents: Entries, j: nat, now: nat, calls: seq<Call>, ghost w: World)
    returns (s: Slot, ghost w': World)
    requires Shows(w, ks, ents) && Good(w) && j < |ks| && ks[j].timern > 0 && ks[j].timers[0].deadline <= now
    modifies ks, set k | k in ks :: k.timers, ents.idx, ents.armed, ents.localk
    ensures Shows(w', ks, ents) && Good(w') && FiredWell(s, now, w.heaps[j]) && TurnStep(w, j, calls, w')
  {
    RootFires(w, j, now);
    ghost var m;
    s, m := FireOn(ks, ents, j, w);
    FireKeeps(w, j, m);
    w' := ActAll(ks, ents, calls, m);
  }

  lemma RootFires(w: World, j: nat, now: nat)
    requires HeapsOk(w) && j < |w.heaps| && |w.heaps[j]| > 0 && w.heaps[j][0].deadline <= now
    ensures FiredWell(w.heaps[j][0], now, w.heaps[j])
  {
    forall other | other in w.heaps[j]
      ensures w.heaps[j][0].deadline <= other.deadline
    {
      RootBelow(w.heaps[j], other);
    }
  }

  /** When the root is not due, nothing is. */
  lemma NoneDue(h: seq<Slot>, now: nat)
    requires Heap(h) && (|h| > 0 ==> now < h[0].deadline)
    ensures forall s :: s in h ==> now < s.deadline
  {
    forall s | s in h
      ensures now < s.deadline
    {
      RootBelow(h, s);
    }
  }

  /** ws[n] is the state after n turns; each turn fired the timer that was due. */
  ghost predicate Story(ws: seq<World>, fired: seq<Slot>, turns: seq<Turn>, j: nat) {
    && |ws| == |fired| + 1 && |fired| < |turns|
    && (forall n :: 0 <= n < |ws| ==> j < |ws[n].heaps|)
    && (forall n :: 0 <= n < |fired| ==>
          FiredWell(fired[n], turns[n].now, ws[n].heaps[j]) && TurnStep(ws[n], j, turns[n + 1].calls, ws[n + 1]))
  }

  lemma StoryNext(ws: seq<World>, fired: seq<Slot>, turns: seq<Turn>, j: nat, s: Slot, m: World)
    requires Story(ws, fired, turns, j) && |fired| + 1 < |turns| && j < |m.heaps|
    requires FiredWell(s, turns[|fired|].now, ws[|fired|].heaps[j])
    requires TurnStep(ws[|fired|], j, turns[|fired| + 1].calls, m)
    ensures Story(ws + [m], fired + [s], turns, j)
  {
  }

  /**
   * timer_softirq on kthread j, with the clock and what happens while handlers run given by `turns`. No timer fires early,
   * each fired timer is the earliest at that moment, and unless the budget ran out no timer that was due remains.
   */
  method Softirq(ks: seq<Timers>, ents: Entries, j: nat, budget: nat, turns: seq<Turn>, ghost w: World)
    returns (fired: seq<Slot>, ghost ws: seq<World>)
    requires Shows(w, ks, ents) && Good(w) && j < |ks| && |turns| == budget + 1
    modifies ks, set k | k in ks :: k.timers, ents.idx, ents.armed, ents.localk
    ensures |fired| <= budget && Story(ws, fired, turns, j) && ws[0] == w
    ensures Shows(ws[|fired|], ks, ents) && Good(ws[|fired|])
    ensures |fired| < budget ==> forall s :: s in ws[|fired|].heaps[j] ==> turns[|fired|].now < s.deadline
  {
    fired, ws := [], [w];
    var left: nat := budget;
    var now := turns[0].now;
    ghost var last := w;
    while left > 0 && ks[j].timern > 0 && ks[j].timers[0].deadline <= now
      invariant left + |fired| == budget && Story(ws, fired, turns, j) && ws[0] == w && ws[|fired|] == last
      invariant Shows(last, ks, ents) && Good(last) && now == turns[|fired|].now
      decreases left
    {
      left := left - 1;
      ghost var m;
      var s;
      s, m := FireOne(ks, ents, j, now, turns[|fired| + 1].calls, last);
      StoryNext(ws, fired, turns, j, s, m);
      fired, ws, last := fired + [s], ws + [m], m;
      now := turns[|fired|].now;
    }
    if left > 0 {
      NoneDue(last.heaps[j], now);
    }
  }
}
