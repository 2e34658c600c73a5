/** Simulated time (test/cluster.rs, src/clock.rs): the event queue, the cluster's clock and the
    clock of every node, over every run of `step`. */
module Simulator {
  import opened Types

  const NANOS: nat := 1_000_000
  const TWO_TO_31: nat := 0x8000_0000

  /** A Timespec whose arithmetic is that of the source: the product in `u32`, the sum in `i32`. */
  class TestClock {
    var sec: int
    var nsec: int

    ghost predicate Valid()
      reads this
    {
      0 <= nsec <= SECOND
    }

    ghost function Instant(): int
      reads this
    {
      sec * SECOND + nsec
    }

    constructor ()
      ensures Valid() && Instant() == 0
    {
      sec, nsec := 0, 0;
    }

    /** Not `ok` is an arithmetic overflow. The clock moves by `ms` exactly when the sum of
        nanoseconds fits in 31 bits, which any `ms` up to 1147 guarantees. A sum of exactly one
        second is left in `nsec`. */
    method SleepMs(ms: nat) returns (ok: bool)
      requires Valid()
      modifies this
      ensures ok && Instant() == old(Instant()) + ms * NANOS <==> old(nsec) + ms * NANOS < TWO_TO_31
      ensures ok ==> Instant() <= old(Instant()) + ms * NANOS
      ensures ms <= 1147 ==> old(nsec) + ms * NANOS < TWO_TO_31
      ensures old(nsec) + ms * NANOS < TWO_TO_31 ==> Valid()
    {
      var product := ms % 1_000_000 * 1_000_000;
      if product >= TWO_TO_32 {
        return false;
      }
      var ns := if product < TWO_TO_31 then product else product - TWO_TO_32;
      if nsec + ns >= TWO_TO_31 {
        return false;
      }
      nsec := nsec + ns;
      if nsec > SECOND {
        sec := sec + nsec / SECOND;
        nsec := nsec % SECOND;
      }
      return true;
    }
  }

  datatype Envelope = Envelope(from: NodeId, body: Bytes)
  datatype Event = Cron(node: NodeId) | Receive(to: NodeId, env: Envelope)

  /** A message a server has sent: to everybody, or to one node. */
  datatype Outbound = Outbound(to: Option<NodeId>, env: Envelope)

  type Queue = map<nat, seq<Event>>

  /** What is queued for a time. */
  function At(q: Queue, t: nat): seq<Event> {
    if t in q then q[t] else []
  }

  function Pushed(q: Queue, t: nat, e: Event): Queue {
    q[t := At(q, t) + [e]]
  }

  function Copies(env: Envelope, to: NodeId, n: nat): seq<Event>
    requires to <= n
    decreases n - to
  {
    if to == n then [] else [Receive(to, env)] + Copies(env, to + 1, n)
  }

  /** The deliveries that a list of outbound messages gives rise to, in order. */
  function Deliveries(out: seq<Outbound>, n: nat): seq<Event> {
    if out == [] then [] else DeliveriesOf(out[0], n) + Deliveries(out[1..], n)
  }

  function DeliveriesOf(o: Outbound, n: nat): seq<Event> {
    match o.to
    case None => Copies(o.env, 0, n)
    case Some(v) => [Receive(v, o.env)]
  }

  /** Every node has exactly one Cron queued: the one `due` points at, by time and position. */
  ghost predicate OneCronEach(q: Queue, due: seq<(nat, nat)>) {
    && (forall v: NodeId :: CronOf(q, due, v))
    && (forall t: nat, i: nat :: PointedAt(q, t, i, due))
  }

  ghost predicate CronOf(q: Queue, due: seq<(nat, nat)>, v: NodeId) {
    v < |due| ==> Holds(At(q, due[v].0), due[v].1, v)
  }

  ghost predicate Holds(events: seq<Event>, i: nat, v: NodeId) {
    i < |events| && events[i] == Cron(v)
  }

  ghost predicate PointedAt(q: Queue, t: nat, i: nat, due: seq<(nat, nat)>) {
    i < |At(q, t)| && At(q, t)[i].Cron? ==> At(q, t)[i].node < |due| && due[At(q, t)[i].node] == (t, i)
  }

  /** Every queued message is for one of the `n` nodes. */
  ghost predicate Addressed(q: Queue, n: nat) {
    forall t: nat, i: nat :: t in q && i < |q[t]| && q[t][i].Receive? ==> q[t][i].to < n
  }

  /** Nothing queued is lost or overtaken. */
  ghost predicate Grows(q: Queue, q': Queue) {
    forall t: nat :: t in q ==> t in q' && q[t] <= q'[t]
  }

  lemma PushKeeps(q: Queue, t: nat, e: Event, n: nat, q0: Queue)
    requires Addressed(q, n) && Grows(q0, q)
    requires e.Receive? ==> e.to < n
    ensures Addressed(Pushed(q, t, e), n) && Grows(q0, Pushed(q, t, e))
    ensures At(Pushed(q, t, e), t) == At(q, t) + [e]
  {
    var q' := Pushed(q, t, e);
    assert At(q, t) <= q'[t];
    forall u: nat | u in q0
      ensures u in q' && q0[u] <= q'[u]
    {
      assert q0[u] <= q[u];
    }
  }

  lemma PushReceive(q: Queue, due: seq<(nat, nat)>, t: nat, e: Event)
    requires OneCronEach(q, due) && e.Receive?
    ensures OneCronEach(Pushed(q, t, e), due)
  {
    var q' := Pushed(q, t, e);
    forall v: NodeId
      ensures CronOf(q', due, v)
    {
      assert CronOf(q, due, v);
    }
    forall u: nat, i: nat
      ensures PointedAt(q', u, i, due)
    {
      assert PointedAt(q, u, i, due);
    }
  }

  lemma CronAdded(q: Queue, due: seq<(nat, nat)>, at: nat)
    requires OneCronEach(q, due)
    ensures OneCronEach(Pushed(q, at, Cron(|due|)), due + [(at, |At(q, at)|)])
  {
    var q', due' := Pushed(q, at, Cron(|due|)), due + [(at, |At(q, at)|)];
    forall v: NodeId
      ensures CronOf(q', due', v)
    {
      assert CronOf(q, due, v);
    }
    forall t: nat, i: nat
      ensures PointedAt(q', t, i, due')
    {
      assert PointedAt(q, t, i, due);
    }
  }

  /** The queue after a list of events for one time. */
  function PushAll(q: Queue, t: nat, es: seq<Event>): Queue
    decreases es
  {
    if es == [] then q else PushAll(Pushed(q, t, es[0]), t, es[1..])
  }

  lemma {:induction false} PushAllSplit(q: Queue, t: nat, a: seq<Event>, b: seq<Event>)
    ensures PushAll(q, t, a + b) == PushAll(PushAll(q, t, a), t, b)
    decreases a
  {
    if a == [] {
      assert a + b == b;
    } else {
      assert (a + b)[1..] == a[1..] + b;
      PushAllSplit(Pushed(q, t, a[0]), t, a[1..], b);
    }
  }

  /** They stand there in order, after what was queued, and nothing else changes. */
  lemma {:induction false} PushAllAt(q: Queue, t: nat, es: seq<Event>)
    ensures At(PushAll(q, t, es), t) == At(q, t) + es
    ensures Grows(q, PushAll(q, t, es))
    ensures forall u: nat :: u != t ==> At(PushAll(q, t, es), u) == At(q, u)
    decreases es
  {
    if es != [] {
      var q1 := Pushed(q, t, es[0]);
      PushAllAt(q1, t, es[1..]);
      assert At(q1, t) + es[1..] == At(q, t) + es;
      assert Grows(q, q1);
      forall u: nat | u in q
        ensures u in PushAll(q, t, es) && q[u] <= PushAll(q, t, es)[u]
      {
        assert u in q1 && q[u] <= q1[u];
      }
    }
  }

  /** Transmitting what is left of `out` from position `k` makes `goal` of the queue. */
  ghost predicate Transmitting(q: Queue, t: nat, out: seq<Outbound>, k: nat, n: nat, goal: Queue)
    requires k <= |out|
  {
    PushAll(q, t, Deliveries(out[k..], n)) == goal
  }

  lemma OneTransmitted(q: Queue, t: nat, out: seq<Outbound>, k: nat, n: nat, goal: Queue)
    requires k < |out| && Transmitting(q, t, out, k, n, goal)
    ensures Transmitting(PushAll(q, t, DeliveriesOf(out[k], n)), t, out, k + 1, n, goal)
  {
    assert out[k..][1..] == out[k + 1..];
    PushAllSplit(q, t, DeliveriesOf(out[k], n), Deliveries(out[k + 1..], n));
  }

  // ----- a batch, half processed ---------------------------------------------------------------

  /** The Crons still to run are those from position `k` of the batch popped for `time`; every
      other node's is in the queue. */
  ghost predicate Midway(q: Queue, time: nat, batch: seq<Event>, k: nat, due: seq<(nat, nat)>) {
    && time !in q
    && (forall v: NodeId :: Waiting(q, time, batch, k, due, v))
    && (forall t: nat, i: nat :: PointedAt(q, t, i, due))
    && (forall i: nat :: k <= i ==> PointedAt(map[time := batch], time, i, due))
  }

  ghost predicate Waiting(q: Queue, time: nat, batch: seq<Event>, k: nat, due: seq<(nat, nat)>, v: NodeId) {
    v < |due| ==> if due[v].0 == time then k <= due[v].1 && Holds(batch, due[v].1, v) else CronOf(q, due, v)
  }

  lemma Popped(q: Queue, time: nat, due: seq<(nat, nat)>)
    requires OneCronEach(q, due) && time in q
    ensures Midway(q - {time}, time, q[time], 0, due)
  {
    var q', batch := q - {time}, map[time := q[time]];
    forall v: NodeId
      ensures Waiting(q', time, q[time], 0, due, v)
    {
      assert CronOf(q, due, v);
    }
    forall t: nat, i: nat
      ensures PointedAt(q', t, i, due)
    {
      assert PointedAt(q, t, i, due);
    }
    forall i: nat
      ensures PointedAt(batch, time, i, due)
    {
      assert PointedAt(q, time, i, due);
    }
  }

  lemma CronRepeats(q: Queue, time: nat, batch: seq<Event>, k: nat, due: seq<(nat, nat)>, at: nat)
    requires Midway(q, time, batch, k, due) && k < |batch| && batch[k].Cron? && time < at
    ensures batch[k].node < |due|
    ensures Midway(Pushed(q, at, batch[k]), time, batch, k + 1, due[batch[k].node := (at, |At(q, at)|)])
  {
    assert PointedAt(map[time := batch], time, k, due);
    var node := batch[k].node;
    var due' := due[node := (at, |At(q, at)|)];
    var q', next := Pushed(q, at, batch[k]), k + 1;
    forall v: NodeId
      ensures Waiting(q', time, batch, next, due', v)
    {
      assert Waiting(q, time, batch, k, due, v);
    }
    forall t: nat, i: nat
      ensures PointedAt(q', t, i, due')
    {
      assert PointedAt(q, t, i, due) && Waiting(q, time, batch, k, due, node);
    }
    forall i: nat | k + 1 <= i
      ensures PointedAt(map[time := batch], time, i, due')
    {
      assert PointedAt(map[time := batch], time, i, due);
    }
  }

  lemma ReceiveHandled(q: Queue, time: nat, batch: seq<Event>, k: nat, due: seq<(nat, nat)>)
    requires Midway(q, time, batch, k, due) && k < |batch| && batch[k].Receive?
    ensures Midway(q, time, batch, k + 1, due)
  {
    var next := k + 1;
    forall v: NodeId
      ensures Waiting(q, time, batch, next, due, v)
    {
      assert Waiting(q, time, batch, k, due, v);
    }
  }

  lemma Processed(q: Queue, time: nat, batch: seq<Event>, due: seq<(nat, nat)>)
    requires Midway(q, time, batch, |batch|, due)
    ensures OneCronEach(q, due)
  {
    forall v: NodeId
      ensures CronOf(q, due, v)
    {
      assert Waiting(q, time, batch, |batch|, due, v);
    }
  }

  /** What holds of the queue while the batch popped for `time` is run, and what of `q0`, the
      queue just after the pop, is still there. */
  ghost predicate Running(q0: Queue, due0: seq<(nat, nat)>, q: Queue, time: nat, batch: seq<Event>, k: nat,
                          due: seq<(nat, nat)>, n: nat) {
    && Midway(q, time, batch, k, due)
    && Addressed(q, n)
    && |due| == n
    && Upcoming(q, time, due)
    && Grows(q0, q)
    && OnlyCronsAdded(q0, q, time + 400)
    && Repeated(due0, due, time, k)
  }

  /** What `q` has beyond `q0` is Crons, from the time `from` on. */
  ghost predicate OnlyCronsAdded(q0: Queue, q: Queue, from: nat) {
    forall t: nat, i: nat :: CronFrom(q0, q, t, i, from)
  }

  ghost predicate CronFrom(q0: Queue, q: Queue, t: nat, i: nat, from: nat) {
    |At(q0, t)| <= i < |At(q, t)| ==> At(q, t)[i].Cron? && from <= t
  }

  /** `q0`, the queue after the pop at `now`, with `es` appended for the next millisecond and
      otherwise only Crons added, at least 400 ms ahead. */
  ghost predicate Stepped(q0: Queue, q: Queue, now: nat, es: seq<Event>) {
    && At(q, now + 1) == At(q0, now + 1) + es
    && Grows(q0, q)
    && CronsElsewhere(q0, q, now + 1, now + 400)
  }

  ghost predicate CronsElsewhere(q0: Queue, q: Queue, t1: nat, from: nat) {
    forall t: nat, i: nat :: t != t1 ==> CronFrom(q0, q, t, i, from)
  }

  lemma Untouched(q0: Queue, q: Queue, t: nat, from: nat)
    requires Grows(q0, q) && OnlyCronsAdded(q0, q, from) && t < from
    ensures At(q, t) == At(q0, t)
  {
    assert At(q0, t) <= At(q, t);
    assert CronFrom(q0, q, t, |At(q0, t)|, from);
  }

  lemma GrowsOn(q0: Queue, q1: Queue, q2: Queue)
    requires Grows(q0, q1) && Grows(q1, q2)
    ensures Grows(q0, q2)
  {
    forall u: nat | u in q0
      ensures u in q2 && q0[u] <= q2[u]
    {
      assert u in q1 && q0[u] <= q1[u];
    }
  }

  lemma OneCronAdded(q0: Queue, q: Queue, from: nat, at: nat, v: NodeId)
    requires Grows(q0, q) && OnlyCronsAdded(q0, q, from) && from <= at
    ensures OnlyCronsAdded(q0, Pushed(q, at, Cron(v)), from)
  {
    var q' := Pushed(q, at, Cron(v));
    forall t: nat, i: nat
      ensures CronFrom(q0, q', t, i, from)
    {
      assert CronFrom(q0, q, t, i, from);
    }
  }

  lemma StepResult(q0: Queue, q1: Queue, now: nat, es: seq<Event>)
    requires Grows(q0, q1) && OnlyCronsAdded(q0, q1, now + 400)
    ensures Stepped(q0, PushAll(q1, now + 1, es), now, es)
  {
    var t, q := now + 1, PushAll(q1, now + 1, es);
    PushAllAt(q1, t, es);
    Untouched(q0, q1, t, now + 400);
    GrowsOn(q0, q1, q);
    var from := now + 400;
    forall u: nat, i: nat | u != t
      ensures CronFrom(q0, q, u, i, from)
    {
      assert CronFrom(q0, q1, u, i, from) && At(q, u) == At(q1, u);
    }
  }

  /** The Crons before position `k` of the batch for `time` are due again 400 to 499 ms later,
      all others when they were. */
  ghost predicate Repeated(due0: seq<(nat, nat)>, due: seq<(nat, nat)>, time: nat, k: nat) {
    |due| == |due0| && forall v :: 0 <= v < |due| ==>
      if due0[v].0 == time && due0[v].1 < k then time + 400 <= due[v].0 < time + 500 else due[v] == due0[v]
  }

  /** All that is queued lies ahead, every Cron less than 500 ms ahead. */
  ghost predicate Upcoming(q: Queue, now: nat, due: seq<(nat, nat)>) {
    && (forall t: nat :: t in q ==> now < t)
    && (forall v :: 0 <= v < |due| ==> due[v].0 < now + 500)
  }

  ghost predicate Scheduled(q: Queue, due: seq<(nat, nat)>, now: nat, n: nat) {
    |due| == n && OneCronEach(q, due) && Addressed(q, n) && Upcoming(q, now, due)
  }

  lemma Sent(q: Queue, due: seq<(nat, nat)>, now: nat, n: nat, e: Event)
    requires Scheduled(q, due, now, n) && e.Receive? && e.to < n
    ensures Scheduled(Pushed(q, now + 1, e), due, now, n)
  {
    PushReceive(q, due, now + 1, e);
    PushKeeps(q, now + 1, e, n, q);
  }

  lemma CronRuns(q0: Queue, due0: seq<(nat, nat)>, q: Queue, time: nat, batch: seq<Event>, k: nat,
                 due: seq<(nat, nat)>, n: nat, at: nat)
    requires Running(q0, due0, q, time, batch, k, due, n) && k < |batch| && batch[k].Cron?
    requires time + 400 <= at < time + 500
    ensures batch[k].node < |due|
    ensures Running(q0, due0, Pushed(q, at, batch[k]), time, batch, k + 1, due[batch[k].node := (at, |At(q, at)|)], n)
  {
    CronRepeats(q, time, batch, k, due, at);
    assert Midway(Pushed(q, at, batch[k]), time, batch, k + 1, due[batch[k].node := (at, |At(q, at)|)]);
    PushKeeps(q, at, batch[k], n, q0);
    OneCronAdded(q0, q, time + 400, at, batch[k].node);
    DueAgain(q, time, batch, k, due0, due, at);
    StillUpcoming(q, time, due, batch[k], at);
  }

  lemma StillUpcoming(q: Queue, now: nat, due: seq<(nat, nat)>, e: Event, at: nat)
    requires Upcoming(q, now, due) && e.Cron? && e.node < |due| && now < at < now + 500
    ensures Upcoming(Pushed(q, at, e), now, due[e.node := (at, |At(q, at)|)])
  {
  }

  lemma DueAgain(q: Queue, time: nat, batch: seq<Event>, k: nat, due0: seq<(nat, nat)>, due: seq<(nat, nat)>, at: nat)
    requires Midway(q, time, batch, k, due) && k < |batch| && batch[k].Cron? && batch[k].node < |due|
    requires Repeated(due0, due, time, k) && time + 400 <= at < time + 500
    ensures Repeated(due0, due[batch[k].node := (at, |At(q, at)|)], time, k + 1)
  {
    assert PointedAt(map[time := batch], time, k, due);
    forall v: nat | v < |due| && due[v] == (time, k)
      ensures v == batch[k].node
    {
      assert Waiting(q, time, batch, k, due, v);
    }
  }

  lemma NothingRepeated(q: Queue, time: nat, batch: seq<Event>, k: nat, due0: seq<(nat, nat)>, due: seq<(nat, nat)>)
    requires Midway(q, time, batch, k, due) && k < |batch| && batch[k].Receive? && Repeated(due0, due, time, k)
    ensures Repeated(due0, due, time, k + 1)
  {
    forall v: nat | v < |due|
      ensures due[v] != (time, k)
    {
      assert Waiting(q, time, batch, k, due, v);
    }
  }

  /** The node's clock, which stood at `nsec`, has kept up with the cluster's if and only if the
      sum fits. */
  ghost predicate Moved(c: TestClock, nsec: int, ms: nat, clock: nat)
    reads c
  {
    && (c.Instant() == clock * NANOS <==> nsec + ms * NANOS < TWO_TO_31)
    && (nsec + ms * NANOS < TWO_TO_31 ==> c.Valid())
  }

  lemma Cast(nsec: int, ms: nat)
    requires 0 <= nsec <= SECOND
    ensures ms <= 1147 ==> nsec + ms * NANOS < TWO_TO_31
    ensures nsec + ms * NANOS < TWO_TO_31 ==> ms % TWO_TO_32 == ms
    ensures ms % TWO_TO_32 <= ms && (ms % TWO_TO_32 != ms ==> nsec + ms * NANOS >= TWO_TO_31)
  {
  }

  class SimCluster {
    var clock: nat
    var events: Queue
    const nodes: seq<TestClock>
    ghost var due: seq<(nat, nat)>

    ghost predicate Valid()
      reads this, nodes
    {
      && (forall i, j :: 0 <= i < j < |nodes| ==> nodes[i] != nodes[j])
      && (forall i :: 0 <= i < |nodes| ==> nodes[i].Valid() && nodes[i].Instant() == clock * NANOS)
      && Scheduled(events, due, clock, |nodes|)
    }

    /** `new_from_logs`: all clocks at zero, one Cron per node 400 to 499 ms ahead. */
    constructor (n: nat)
      ensures Valid() && fresh(nodes) && |nodes| == n && clock == 0
      ensures OnlyCronsAdded(map[], events, 400)
    {
      var clocks: seq<TestClock> := [];
      for i := 0 to n
        invariant |clocks| == i && fresh(clocks)
        invariant forall j, k :: 0 <= j < k < i ==> clocks[j] != clocks[k]
        invariant forall j :: 0 <= j < i ==> clocks[j].Valid() && clocks[j].Instant() == 0
      {
        var c := new TestClock();
        clocks := clocks + [c];
      }
      nodes, clock, events, due := clocks, 0, map[], [];
      new;
      for i := 0 to n
        invariant nodes == clocks && clock == 0 && |due| == i
        invariant forall j :: 0 <= j < n ==> clocks[j].Valid() && clocks[j].Instant() == 0
        invariant OneCronEach(events, due) && Addressed(events, n) && Upcoming(events, 0, due)
        invariant OnlyCronsAdded(map[], events, 400)
      {
        var time :| 400 <= time < 500;
        CronAdded(events, due, time);
        PushKeeps(events, time, Cron(i), n, events);
        OneCronAdded(map[], events, 400, time, i);
        due := due + [(time, |At(events, time)|)];
        PushEvent(time, Cron(i));
      }
    }

    /** `pop_event`: the earliest queued time and what is queued for it. */
    method PopEvent() returns (time: nat, batch: seq<Event>)
      requires events.Keys != {}
      modifies `events
      ensures time in old(events) && forall t :: t in old(events) ==> time <= t
      ensures batch == old(events)[time] && events == old(events) - {time}
    {
      ghost var least := Least(events.Keys);
      time :| time in events.Keys && forall t :: t in events.Keys ==> time <= t;
      batch := events[time];
      events := events - {time};
    }

    /** `push_event`: queued after everything already queued for that time. */
    method PushEvent(time: nat, e: Event)
      modifies `events
      ensures events == Pushed(old(events), time, e)
    {
      if time in events {
        events := events[time := events[time] + [e]];
      } else {
        assert [] + [e] == [e];
        events := events[time := [e]];
      }
    }

    /** `advance_time`: the cluster's clock and every node's, cast to 32 bits. Not `ok` is an
        overflow in a node's clock. All clocks move together if and only if in each the sum of
        nanoseconds fits in 31 bits, which any `ms` up to 1147 guarantees. */
    method AdvanceTime(ms: nat) returns (ok: bool)
      requires forall i, j :: 0 <= i < j < |nodes| ==> nodes[i] != nodes[j]
      requires forall i :: 0 <= i < |nodes| ==> nodes[i].Valid() && nodes[i].Instant() == clock * NANOS
      modifies `clock, nodes
      ensures clock == old(clock) + ms
      ensures ok && (forall i :: 0 <= i < |nodes| ==> nodes[i].Instant() == clock * NANOS) <==>
        forall i :: 0 <= i < |nodes| ==> old(nodes[i].nsec) + ms * NANOS < TWO_TO_31
      ensures ms <= 1147 ==> ok && forall i :: 0 <= i < |nodes| ==> nodes[i].Valid() && nodes[i].Instant() == clock * NANOS
    {
      clock := clock + ms;
      for k := 0 to |nodes|
        invariant clock == old(clock) + ms
        invariant forall i :: k <= i < |nodes| ==> nodes[i].nsec == old(nodes[i].nsec) && nodes[i].sec == old(nodes[i].sec)
        invariant forall i :: 0 <= i < k ==> Moved(nodes[i], old(nodes[i].nsec), ms, clock)
      {
        ok := nodes[k].SleepMs(ms % TWO_TO_32);
        Cast(old(nodes[k].nsec), ms);
        if !ok {
          return false;
        }
      }
      return true;
    }

    /** Runs the popped batch: a Cron is queued again 400 to 499 ms later, a message is handled. */
    method RunBatch(time: nat, batch: seq<Event>)
      requires Running(events, due, events, time, batch, 0, due, |nodes|)
      modifies `events, `due
      ensures Running(old(events), old(due), events, time, batch, |batch|, due, |nodes|)
    {
      for k := 0 to |batch|
        invariant Running(old(events), old(due), events, time, batch, k, due, |nodes|)
      {
        if batch[k].Cron? {
          var delay :| 400 <= delay < 500;
          CronRuns(old(events), old(due), events, time, batch, k, due, |nodes|, time + delay);
          due := due[batch[k].node := (time + delay, |At(events, time + delay)|)];
          PushEvent(time + delay, batch[k]);
        } else {
          ReceiveHandled(events, time, batch, k, due);
          NothingRepeated(events, time, batch, k, old(due), due);
        }
      }
    }

    /** Queues one message for one node, a millisecond from now. */
    method Send(to: NodeId, env: Envelope)
      requires Scheduled(events, due, clock, |nodes|) && to < |nodes|
      modifies `events
      ensures Scheduled(events, due, clock, |nodes|)
      ensures events == Pushed(old(events), clock + 1, Receive(to, env))
    {
      Sent(events, due, clock, |nodes|, Receive(to, env));
      PushEvent(clock + 1, Receive(to, env));
    }

    method Broadcast(env: Envelope)
      requires Scheduled(events, due, clock, |nodes|)
      modifies `events
      ensures Scheduled(events, due, clock, |nodes|)
      ensures events == PushAll(old(events), clock + 1, Copies(env, 0, |nodes|))
    {
      ghost var goal := PushAll(events, clock + 1, Copies(env, 0, |nodes|));
      for port := 0 to |nodes|
        invariant Scheduled(events, due, clock, |nodes|)
        invariant PushAll(events, clock + 1, Copies(env, port, |nodes|)) == goal
      {
        Send(port, env);
      }
    }

    method TransmitOne(o: Outbound)
      requires Scheduled(events, due, clock, |nodes|) && (o.to.Some? ==> o.to.value < |nodes|)
      modifies `events
      ensures Scheduled(events, due, clock, |nodes|)
      ensures events == PushAll(old(events), clock + 1, DeliveriesOf(o, |nodes|))
    {
      match o.to
      case None => Broadcast(o.env);
      case Some(v) => Send(v, o.env);
    }

    /** Queues the outbound messages of all nodes for the next millisecond, in order. */
    method Transmit(out: seq<Outbound>)
      requires Scheduled(events, due, clock, |nodes|)
      requires forall o :: o in out && o.to.Some? ==> o.to.value < |nodes|
      modifies `events
      ensures Scheduled(events, due, clock, |nodes|)
      ensures events == PushAll(old(events), clock + 1, Deliveries(out, |nodes|))
    {
      ghost var goal := PushAll(events, clock + 1, Deliveries(out, |nodes|));
      for k := 0 to |out|
        invariant Scheduled(events, due, clock, |nodes|)
        invariant Transmitting(events, clock + 1, out, k, |nodes|, goal)
      {
        OneTransmitted(events, clock + 1, out, k, |nodes|, goal);
        TransmitOne(out[k]);
      }
    }

    /** `step`: the clocks move to the earliest queued time, less than 500 ms ahead, the events
        of that time are handled, and the messages `out` that the nodes sent meanwhile arrive a
        millisecond later, after everything already queued. */
    method Step(out: seq<Outbound>)
      requires Valid() && |nodes| > 0
      requires forall o :: o in out && o.to.Some? ==> o.to.value < |nodes|
      modifies this, nodes
      ensures Valid()
      ensures clock in old(events) && forall t :: t in old(events) ==> clock <= t
      ensures old(clock) < clock < old(clock) + 500
      ensures Stepped(old(events) - {clock}, events, clock, Deliveries(out, |nodes|))
      ensures Repeated(old(due), due, clock, |old(events)[clock]|)
    {
      assert CronOf(events, due, 0);
      var time, batch := PopEvent();
      Popped(old(events), time, due);
      var ok := AdvanceTime(time - clock);
      RunBatch(time, batch);
      Processed(events, time, batch, due);
      StepResult(old(events) - {clock}, events, clock, Deliveries(out, |nodes|));
      Transmit(out);
    }
  }
}
