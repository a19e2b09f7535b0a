/** How rarely a handle of the item cache has to leave its own magazines. */
module TcacheBound {
  import opened Collections
  import opened Tcache

  /** Items in handle i's two magazines. */
  function Level(t: Cache, i: nat): nat
    requires i < |t.locals|
  {
    |t.locals[i].loaded| + |t.locals[i].previous|
  }

  predicate IsOp(e: Event, i: nat) {
    (e.AllocEv? || e.FreeEv?) && e.i == i
  }

  /** The operation takes the depot's lock or calls the backing store. */
  predicate Touches(t: Cache, e: Event, i: nat)
    requires i < |t.locals|
  {
    && IsOp(e, i)
    && var l := t.locals[i];
       if e.AllocEv? then l.loaded == [] && l.previous == [] else |l.loaded| >= t.cap && l.previous != []
  }

  /** A touch happens only with both magazines empty or both full, and leaves one magazine's worth, give or take one. */
  lemma TouchExact(t: Cache, e: Event, i: nat)
    requires Shaped(t) && Enabled(t, e) && i < |t.locals| && IsOp(e, i)
    requires e.AllocEv? ==> Alloc(t, i, e.supply).1.Some?
    ensures |Apply(t, e).locals| == |t.locals| && Apply(t, e).cap == t.cap
    ensures Touches(t, e, i) <==> if e.AllocEv? then Level(t, i) == 0 else Level(t, i) == 2 * t.cap
    ensures Level(Apply(t, e), i) ==
            if e.AllocEv? then (if Touches(t, e, i) then t.cap - 1 else Level(t, i) - 1)
            else (if Touches(t, e, i) then t.cap + 1 else Level(t, i) + 1)
  {
  }

  /** Nothing another handle does, and no reclaim, changes this handle's magazines. */
  lemma OthersLeaveAlone(t: Cache, e: Event, i: nat)
    requires Shaped(t) && Enabled(t, e) && i < |t.locals| && !IsOp(e, i)
    ensures |Apply(t, e).locals| == |t.locals| && Apply(t, e).cap == t.cap
    ensures Apply(t, e).locals[i] == t.locals[i]
  {
  }

  ghost predicate Path(ts: seq<Cache>, es: seq<Event>, i: nat) {
    && |ts| == |es| + 1 && Shaped(ts[0]) && i < |ts[0].locals|
    && forall n :: 0 <= n < |es| && Shaped(ts[n]) ==>
      && Enabled(ts[n], es[n]) && ts[n + 1] == Apply(ts[n], es[n])
      && (es[n].AllocEv? ==> Alloc(ts[n], es[n].i, es[n].supply).1.Some?)
  }

  lemma {:induction false} PathKeeps(ts: seq<Cache>, es: seq<Event>, i: nat, n: nat)
    requires Path(ts, es, i) && n <= |es|
    ensures Shaped(ts[n]) && |ts[n].locals| == |ts[0].locals| && ts[n].cap == ts[0].cap
  {
    if n > 0 {
      PathKeeps(ts, es, i, n - 1);
      SameShape(ts[n - 1], es[n - 1]);
    }
  }

  lemma SameShape(t: Cache, e: Event)
    requires Shaped(t) && Enabled(t, e)
    ensures |Apply(t, e).locals| == |t.locals| && Apply(t, e).cap == t.cap && Shaped(Apply(t, e))
  {
  }

  ghost predicate Uniform(ts: seq<Cache>, cap: nat, i: nat) {
    forall m :: 0 <= m < |ts| ==> i < |ts[m].locals| && ts[m].cap == cap && Shaped(ts[m])
  }

  lemma PathUniform(ts: seq<Cache>, es: seq<Event>, i: nat)
    requires Path(ts, es, i)
    ensures Uniform(ts, ts[0].cap, i)
  {
    forall m | 0 <= m < |ts|
      ensures i < |ts[m].locals| && ts[m].cap == ts[0].cap && Shaped(ts[m])
    {
      PathKeeps(ts, es, i, m);
    }
  }

  function CountTrue(b: seq<bool>): nat {
    if b == [] then 0 else CountTrue(b[..|b| - 1]) + if b[|b| - 1] then 1 else 0
  }

  /** Which events are operations on handle i. */
  function OpFlags(es: seq<Event>, i: nat): seq<bool> {
    seq(|es|, n requires 0 <= n < |es| => IsOp(es[n], i))
  }

  /** Which of them touch the depot or the backing store. */
  ghost function TouchFlags(ts: seq<Cache>, es: seq<Event>, i: nat): seq<bool>
    requires |ts| == |es| + 1 && Uniform(ts, ts[0].cap, i)
  {
    seq(|es|, n requires 0 <= n < |es| => Touches(ts[n], es[n], i))
  }

  /** Distance from the balanced state of exactly one magazine's worth. */
  function Skew(cap: nat, level: nat): nat {
    if level >= cap then level - cap else cap - level
  }

  ghost function Skews(ts: seq<Cache>, i: nat): seq<nat>
    requires |ts| > 0 && Uniform(ts, ts[0].cap, i)
  {
    seq(|ts|, n requires 0 <= n < |ts| => Skew(ts[0].cap, Level(ts[n], i)))
  }

  /** A touch costs one magazine's worth of skew, any other operation adds at most one. */
  predicate Accounted(cap: nat, before: nat, after: nat, op: bool, touch: bool) {
    if touch then op && before == cap && after == 1 else after <= before + if op then 1 else 0
  }

  lemma StepAccounts(t: Cache, e: Event, i: nat)
    requires Shaped(t) && Enabled(t, e) && i < |t.locals|
    requires e.AllocEv? ==> Alloc(t, e.i, e.supply).1.Some?
    ensures |Apply(t, e).locals| == |t.locals|
    ensures Accounted(t.cap, Skew(t.cap, Level(t, i)), Skew(t.cap, Level(Apply(t, e), i)), IsOp(e, i), Touches(t, e, i))
  {
    if IsOp(e, i) {
      TouchExact(t, e, i);
    } else {
      OthersLeaveAlone(t, e, i);
    }
  }

  ghost predicate Ledger(cap: nat, skews: seq<nat>, ops: seq<bool>, touches: seq<bool>) {
    && |skews| == |ops| + 1 == |touches| + 1
    && forall n :: 0 <= n < |ops| ==> Accounted(cap, skews[n], skews[n + 1], ops[n], touches[n])
  }

  lemma {:induction false} LedgerBound(cap: nat, skews: seq<nat>, ops: seq<bool>, touches: seq<bool>)
    requires Ledger(cap, skews, ops, touches)
    ensures cap * CountTrue(touches) + skews[|ops|] <= CountTrue(ops) + skews[0]
    ensures CountTrue(touches) > 0 ==> cap * CountTrue(touches) + 1 <= CountTrue(ops) + skews[0]
    decreases |ops|
  {
    if |ops| > 0 {
      var n := |ops| - 1;
      LedgerBound(cap, skews[..n + 1], ops[..n], touches[..n]);
      Times(cap, CountTrue(touches[..n]));
    }
  }

  lemma PathLedger(ts: seq<Cache>, es: seq<Event>, i: nat)
    requires Path(ts, es, i) && Uniform(ts, ts[0].cap, i)
    ensures Ledger(ts[0].cap, Skews(ts, i), OpFlags(es, i), TouchFlags(ts, es, i))
  {
    forall n | 0 <= n < |es|
      ensures Accounted(ts[0].cap, Skews(ts, i)[n], Skews(ts, i)[n + 1], OpFlags(es, i)[n], TouchFlags(ts, es, i)[n])
    {
      StepAccounts(ts[n], es[n], i);
    }
  }

  lemma Times(c: nat, n: nat)
    ensures c * (n + 1) == c * n + c
  {
  }

  lemma SkewBound(t: Cache, i: nat)
    requires Shaped(t) && i < |t.locals|
    ensures Skew(t.cap, Level(t, i)) <= t.cap
  {
  }

  lemma LedgerRate(cap: nat, skews: seq<nat>, ops: seq<bool>, touches: seq<bool>)
    requires Ledger(cap, skews, ops, touches) && 0 < cap && skews[0] <= cap
    ensures CountTrue(touches) <= CeilDiv(CountTrue(ops), cap)
  {
    LedgerBound(cap, skews, ops, touches);
    DivBound(cap, CountTrue(touches), CountTrue(ops));
  }

  /** n / c, rounded up. */
  function CeilDiv(n: nat, c: nat): nat
    requires c > 0
  {
    if n == 0 then 0 else if n <= c then 1 else 1 + CeilDiv(n - c, c)
  }

  lemma {:induction false} DivBound(c: nat, t: nat, n: nat)
    requires c > 0 && (t > 0 ==> c * t + 1 <= n + c)
    ensures t <= CeilDiv(n, c)
    decreases t
  {
    if t > 1 {
      Times(c, t - 1);
      Times(c, t - 2);
      Scale(c, 1, t - 1);
      DivBound(c, t - 1, n - c);
    }
  }

  lemma Scale(c: nat, a: nat, b: nat)
    requires a <= b
    ensures c * a <= c * b
  {
  }

  /**
   * Any n operations on one handle, whatever other handles and reclaims do in between, reach the depot or the backing
   * store at most ceil(n / cap) times.
   */
  lemma AmortisedBound(ts: seq<Cache>, es: seq<Event>, i: nat)
    requires Path(ts, es, i)
    ensures Uniform(ts, ts[0].cap, i)
    ensures CountTrue(TouchFlags(ts, es, i)) <= CeilDiv(CountTrue(OpFlags(es, i)), ts[0].cap)
  {
    PathUniform(ts, es, i);
    PathLedger(ts, es, i);
    SkewBound(ts[0], i);
    LedgerRate(ts[0].cap, Skews(ts, i), OpFlags(es, i), TouchFlags(ts, es, i));
  }
}
