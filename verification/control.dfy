/**
 * Admission across the daemon's two threads (hwalloc/control.c, hwalloc/dataplane.c). The control thread admits processes
 * against the sum of guarantees it knows of, and lowers it as soon as a process disconnects; the dataplane thread, which
 * hands out the cores, learns of both through a queue of messages that it reads in batches.
 */
module Control {
  import opened Collections

  /** HWALLOCD_CONTROL_BURST_SIZE */
  const BURST: nat := 4

  datatype Client = Client(p: nat, g: nat)

  datatype Msg = Add(c: Client) | Remove(c: Client)

  /**
   * `nr` is nr_guaranteed, `known` the clients that have not disconnected, `table` the dataplane's clients, `received` the
   * messages handled in the present batch. `lost` counts the disconnections the dataplane will never learn of.
   */
  datatype Daemon = Daemon(
    total: nat,
    nr: int,
    known: seq<Client>,
    queue: seq<Msg>,
    table: seq<Client>,
    received: nat,
    lost: nat)

  /** `sent` says whether the channel had room. */
  datatype Step =
    | Create(c: Client, sent: bool)
    | CreateFails(g: nat)               // after admission, for want of memory or on a bad header
    | Disconnect(c: Client, sent: bool)
    | Receive
    | EndBatch

  predicate Enabled(d: Daemon, a: Step) {
    match a
    case Create(c, sent) => c.g + d.nr <= d.total
    case CreateFails(g) => g + d.nr <= d.total
    case Disconnect(c, sent) => c in d.known
    case Receive => d.queue != []
    case EndBatch => d.queue == []
  }

  function Handle(table: seq<Client>, m: Msg): seq<Client> {
    match m
    case Add(c) => table + [c]
    case Remove(c) => Without(table, c)
  }

  /** The loop of dp_clients_rx_control_lrpcs receives before it tests for the end of the batch. */
  function Received(d: Daemon): Daemon
    requires d.queue != []
  {
    var d' := d.(queue := d.queue[1..]);
    if d.received < BURST then d'.(table := Handle(d.table, d.queue[0]), received := d.received + 1)
    else d'.(received := 0, lost := d.lost + (if d.queue[0].Remove? then 1 else 0))
  }

  function Apply(d: Daemon, a: Step): Daemon
    requires Enabled(d, a)
  {
    match a
    case Create(c, sent) =>
      if sent then d.(nr := d.nr + c.g, known := d.known + [c], queue := d.queue + [Add(c)]) else d
    case CreateFails(g) => d.(nr := d.nr + g)
    case Disconnect(c, sent) =>
      var d' := d.(nr := d.nr - c.g, known := Without(d.known, c));
      if sent then d'.(queue := d.queue + [Remove(c)]) else d'.(lost := d.lost + 1)
    case Receive => Received(d)
    case EndBatch => d.(received := 0)
  }

  /* Sums. */

  function Sum(cs: seq<Client>): nat {
    if cs == [] then 0 else cs[0].g + Sum(cs[1..])
  }

  lemma {:induction false} SumSnoc(cs: seq<Client>, c: Client)
    ensures Sum(cs + [c]) == Sum(cs) + c.g
  {
    if cs == [] {
      assert [] + [c] == [c];
    } else {
      assert (cs + [c])[1..] == cs[1..] + [c];
      SumSnoc(cs[1..], c);
    }
  }

  lemma {:induction false} WithoutSum(cs: seq<Client>, c: Client)
    ensures Sum(Without(cs, c)) == Sum(cs) - (if c in cs then c.g else 0)
    ensures multiset(Without(cs, c)) == multiset(cs) - multiset{c}
    ensures c in cs ==> |Without(cs, c)| == |cs| - 1 && Sum(cs) >= c.g
  {
    if cs != [] {
      assert cs == [cs[0]] + cs[1..];
      if cs[0] != c {
        WithoutSum(cs[1..], c);
        var r := [cs[0]] + Without(cs[1..], c);
        assert r[1..] == Without(cs[1..], c);
      }
    }
  }

  lemma {:induction false} SumMonotone(a: seq<Client>, b: seq<Client>)
    requires multiset(a) <= multiset(b)
    ensures Sum(a) <= Sum(b)
    decreases |a|
  {
    if a != [] {
      assert a == [a[0]] + a[1..];
      assert multiset(a) == multiset{a[0]} + multiset(a[1..]);
      assert a[0] in multiset(b);
      WithoutSum(b, a[0]);
      SumMonotone(a[1..], Without(b, a[0]));
    }
  }

  /* What the dataplane's table will be. */

  function Replay(table: seq<Client>, queue: seq<Msg>): seq<Client>
    decreases |queue|
  {
    if queue == [] then table else Replay(Handle(table, queue[0]), queue[1..])
  }

  lemma {:induction false} ReplaySnoc(table: seq<Client>, queue: seq<Msg>, m: Msg)
    ensures Replay(table, queue + [m]) == Handle(Replay(table, queue), m)
    decreases |queue|
  {
    if queue == [] {
      assert [] + [m] == [m];
      assert [m][1..] == [];
    } else {
      assert (queue + [m])[1..] == queue[1..] + [m];
      ReplaySnoc(Handle(table, queue[0]), queue[1..], m);
    }
  }

  lemma HandleMonotone(a: seq<Client>, b: seq<Client>, m: Msg)
    requires multiset(a) <= multiset(b)
    ensures multiset(Handle(a, m)) <= multiset(Handle(b, m))
  {
    if m.Remove? {
      WithoutSum(a, m.c);
      WithoutSum(b, m.c);
    }
  }

  lemma {:induction false} ReplayMonotone(a: seq<Client>, b: seq<Client>, queue: seq<Msg>)
    requires multiset(a) <= multiset(b)
    ensures multiset(Replay(a, queue)) <= multiset(Replay(b, queue))
    decreases |queue|
  {
    if queue != [] {
      HandleMonotone(a, b, queue[0]);
      ReplayMonotone(Handle(a, queue[0]), Handle(b, queue[0]), queue[1..]);
    }
  }

  /* While no disconnection is lost. */

  /** After each of the queued messages the dataplane's guarantees fit. */
  ghost predicate Fits(d: Daemon) {
    forall k :: 0 <= k <= |d.queue| ==> Sum(Replay(d.table, d.queue[..k])) <= d.total
  }

  ghost predicate Inv(d: Daemon) {
    && Sum(d.known) <= d.nr <= d.total
    && (d.lost == 0 ==> Fits(d) && multiset(Replay(d.table, d.queue)) <= multiset(d.known))
  }

  lemma SentKeeps(d: Daemon, m: Msg, known: seq<Client>, nr: int)
    requires Inv(d) && d.lost == 0 && nr <= d.total && Sum(known) <= nr
    requires multiset(Handle(Replay(d.table, d.queue), m)) <= multiset(known)
    ensures Inv(d.(nr := nr, known := known, queue := d.queue + [m]))
  {
    var d' := d.(nr := nr, known := known, queue := d.queue + [m]);
    ReplaySnoc(d.table, d.queue, m);
    SumMonotone(Replay(d'.table, d'.queue), known);
    forall k | 0 <= k <= |d'.queue|
      ensures Sum(Replay(d'.table, d'.queue[..k])) <= d'.total
    {
      if k <= |d.queue| {
        assert d'.queue[..k] == d.queue[..k];
      } else {
        assert d'.queue[..k] == d'.queue;
      }
    }
  }

  lemma CreateKeeps(d: Daemon, c: Client)
    requires Inv(d) && c.g + d.nr <= d.total
    ensures Inv(Apply(d, Create(c, true)))
  {
    SumSnoc(d.known, c);
    if d.lost == 0 {
      SentKeeps(d, Add(c), d.known + [c], d.nr + c.g);
    }
  }

  lemma DisconnectKeeps(d: Daemon, c: Client)
    requires Inv(d) && c in d.known
    ensures Inv(Apply(d, Disconnect(c, true)))
  {
    WithoutSum(d.known, c);
    if d.lost == 0 {
      HandleMonotone(Replay(d.table, d.queue), d.known, Remove(c));
      SentKeeps(d, Remove(c), Without(d.known, c), d.nr - c.g);
    }
  }

  lemma HandledKeeps(d: Daemon)
    requires Inv(d) && d.queue != [] && d.received < BURST
    ensures Inv(Received(d))
  {
    var d' := Received(d);
    forall k | 0 <= k <= |d'.queue| && d.lost == 0
      ensures Sum(Replay(d'.table, d'.queue[..k])) <= d'.total
    {
      assert d.queue[..k + 1][1..] == d'.queue[..k];
      assert Replay(d.table, d.queue[..k + 1]) == Replay(d'.table, d'.queue[..k]);
    }
  }

  /** A message dropped at the end of a batch that adds a client leaves the dataplane with fewer. */
  lemma DroppedKeeps(d: Daemon)
    requires Inv(d) && d.queue != [] && d.received >= BURST
    ensures Inv(Received(d))
  {
    var d' := Received(d);
    if d'.lost == 0 {
      var more := Handle(d.table, d.queue[0]);
      ReplayMonotone(d.table, more, d'.queue);
      forall k | 0 <= k <= |d'.queue|
        ensures Sum(Replay(d'.table, d'.queue[..k])) <= d'.total
      {
        assert d.queue[..k + 1][1..] == d'.queue[..k];
        assert Replay(d.table, d.queue[..k + 1]) == Replay(more, d'.queue[..k]);
        ReplayMonotone(d.table, more, d'.queue[..k]);
        SumMonotone(Replay(d.table, d'.queue[..k]), Replay(more, d'.queue[..k]));
      }
    }
  }

  lemma StepKeeps(d: Daemon, a: Step)
    requires Inv(d) && Enabled(d, a)
    ensures Inv(Apply(d, a))
  {
    match a
    case Create(c, sent) => CreateKeeps(d, c);
    case CreateFails(g) =>
    case Disconnect(c, sent) =>
      WithoutSum(d.known, c);
      DisconnectKeeps(d, c);
    case Receive =>
      if d.received < BURST {
        HandledKeeps(d);
      } else {
        DroppedKeeps(d);
      }
    case EndBatch =>
  }

  /* Runs. */

  function Start(total: nat): Daemon {
    Daemon(total, 0, [], [], [], 0, 0)
  }

  ghost predicate Run(ds: seq<Daemon>, steps: seq<Step>) {
    && |ds| == |steps| + 1 && ds[0] == Start(ds[0].total)
    && forall i :: 0 <= i < |steps| ==> Enabled(ds[i], steps[i]) && ds[i + 1] == Apply(ds[i], steps[i])
  }

  lemma {:induction false} RunKeeps(ds: seq<Daemon>, steps: seq<Step>, i: nat)
    requires Run(ds, steps) && i < |ds|
    ensures Inv(ds[i])
  {
    if i > 0 {
      RunKeeps(ds, steps, i - 1);
      StepKeeps(ds[i - 1], steps[i - 1]);
    }
  }

  /**
   * As long as no disconnection has been lost, the guarantees of the dataplane's clients fit the cores, with those of the
   * process it is to attach next.
   */
  lemma RunAdmitted(ds: seq<Daemon>, steps: seq<Step>, i: nat)
    requires Run(ds, steps) && i < |ds| && ds[i].lost == 0
    ensures Sum(ds[i].table) <= ds[i].total
    ensures var q := ds[i].queue; q != [] && q[0].Add? ==> q[0].c.g + Sum(ds[i].table) <= ds[i].total
  {
    var d := ds[i];
    RunKeeps(ds, steps, i);
    assert d.queue[..0] == [];
    if d.queue != [] && d.queue[0].Add? {
      var first := d.queue[..1];
      assert first[1..] == [] && first[0] == d.queue[0];
      assert Replay(d.table, first) == Handle(d.table, d.queue[0]);
      SumSnoc(d.table, d.queue[0].c);
    }
  }

  /* The batch. */

  /**
   * dp_clients_rx_control_lrpcs on a queue nobody adds to meanwhile: every message taken is handled if and only if no more
   * than a batch are queued; otherwise one more is taken and dropped.
   */
  method ReceiveBatch(table: seq<Client>, queue: seq<Msg>) returns (table': seq<Client>, rest: seq<Msg>)
    ensures |queue| <= BURST ==> table' == Replay(table, queue) && rest == []
    ensures |queue| > BURST ==> table' == Replay(table, queue[..BURST]) && rest == queue[BURST + 1..]
  {
    table', rest := table, queue;
    var n := 0;
    while rest != []
      invariant n <= BURST && n <= |queue| && rest == queue[n..] && table' == Replay(table, queue[..n])
      decreases |rest|
    {
      var m := rest[0];
      rest := rest[1..];
      if n >= BURST {
        return;
      }
      ReplaySnoc(table, queue[..n], m);
      assert queue[..n] + [m] == queue[..n + 1];
      table' := Handle(table', m);
      n := n + 1;
    }
    assert queue[..n] == queue;
  }

  /* A batch that loses a disconnection. */

  ghost predicate Reachable(d: Daemon) {
    exists ds: seq<Daemon>, steps: seq<Step> :: Run(ds, steps) && ds[|steps|] == d
  }

  lemma Extend(d: Daemon, a: Step, d': Daemon)
    requires Reachable(d) && Enabled(d, a) && d' == Apply(d, a)
    ensures Reachable(d')
  {
    var ds: seq<Daemon>, steps: seq<Step> :| Run(ds, steps) && ds[|steps|] == d;
    var ds', steps' := ds + [d'], steps + [a];
    forall i | 0 <= i < |steps'|
      ensures Enabled(ds'[i], steps'[i]) && ds'[i + 1] == Apply(ds'[i], steps'[i])
    {
      if i < |steps| {
        assert ds'[i] == ds[i] && ds'[i + 1] == ds[i + 1] && steps'[i] == steps[i];
      }
    }
    assert Run(ds', steps') && ds'[|steps'|] == d';
  }

  function Idlers(n: nat): seq<Client> {
    seq(n, i requires 0 <= i < n => Client(i + 1, 0))
  }

  function Arrivals(n: nat): seq<Msg> {
    seq(n, i requires 0 <= i < n => Add(Client(i + 1, 0)))
  }

  /** One process with the whole guarantee is served, and n without any have connected. */
  lemma {:induction false} Connected(total: nat, n: nat)
    ensures Reachable(Daemon(total, total, [Client(0, total)] + Idlers(n), Arrivals(n), [Client(0, total)], 0, 0))
  {
    var c := Client(0, total);
    if n == 0 {
      assert Run([Start(total)], []) && [Start(total)][0] == Start(total);
      var d1 := Daemon(total, total, [c], [Add(c)], [], 0, 0);
      Extend(Start(total), Create(c, true), d1);
      assert [Add(c)][1..] == [];
      var d2 := Daemon(total, total, [c], [], [c], 1, 0);
      Extend(d1, Receive, d2);
      Extend(d2, EndBatch, d2.(received := 0));
      assert [c] + Idlers(0) == [c];
    } else {
      Connected(total, n - 1);
      assert [c] + Idlers(n) == [c] + Idlers(n - 1) + [Client(n, 0)];
      assert Arrivals(n) == Arrivals(n - 1) + [Add(Client(n, 0))];
      Extend(Daemon(total, total, [c] + Idlers(n - 1), Arrivals(n - 1), [c], 0, 0), Create(Client(n, 0), true),
             Daemon(total, total, [c] + Idlers(n), Arrivals(n), [c], 0, 0));
    }
  }

  /** The first process disconnects; k messages of the batch have been handled. */
  lemma {:induction false} Handled(total: nat, k: nat)
    requires k <= BURST
    ensures Reachable(Daemon(total, 0, Idlers(BURST), (Arrivals(BURST) + [Remove(Client(0, total))])[k..],
                             [Client(0, total)] + Idlers(k), k, 0))
  {
    var c := Client(0, total);
    var all := Arrivals(BURST) + [Remove(c)];
    if k == 0 {
      Connected(total, BURST);
      assert ([c] + Idlers(BURST))[1..] == Idlers(BURST);
      assert all[0..] == all && [c] + Idlers(0) == [c];
      Extend(Daemon(total, total, [c] + Idlers(BURST), Arrivals(BURST), [c], 0, 0), Disconnect(c, true),
             Daemon(total, 0, Idlers(BURST), all, [c], 0, 0));
    } else {
      Handled(total, k - 1);
      assert all[k - 1..][1..] == all[k..] && all[k - 1..][0] == Add(Client(k, 0));
      assert [c] + Idlers(k) == [c] + Idlers(k - 1) + [Client(k, 0)];
      Extend(Daemon(total, 0, Idlers(BURST), all[k - 1..], [c] + Idlers(k - 1), k - 1, 0), Receive,
             Daemon(total, 0, Idlers(BURST), all[k..], [c] + Idlers(k), k, 0));
    }
  }

  /**
   * With one more message queued than a batch handles, the last is received and dropped. When it was a disconnection, the
   * guarantees of the dataplane's clients come to exceed the cores.
   */
  lemma BurstLosesRemoval(total: nat) returns (d: Daemon)
    requires total > 0
    ensures Reachable(d) && d.total == total && Sum(d.table) > total
  {
    var c, e := Client(0, total), Client(9, total);
    var all := Arrivals(BURST) + [Remove(c)];
    Handled(total, BURST);
    var d0 := Daemon(total, 0, Idlers(BURST), all[BURST..], [c] + Idlers(BURST), BURST, 0);
    assert all[BURST..] == [Remove(c)] && [Remove(c)][1..] == [];
    var d1 := d0.(queue := [], received := 0, lost := 1);
    Extend(d0, Receive, d1);
    var d2 := d1.(nr := total, known := Idlers(BURST) + [e], queue := [Add(e)]);
    Extend(d1, Create(e, true), d2);
    assert [Add(e)][1..] == [];
    d := d2.(queue := [], table := [c] + Idlers(BURST) + [e], received := 1);
    Extend(d2, Receive, d);
    SumSnoc([c] + Idlers(BURST), e);
    assert ([c] + Idlers(BURST))[1..] == Idlers(BURST);
  }
}
