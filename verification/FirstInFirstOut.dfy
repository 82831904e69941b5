/** The single-server queueing node with the FIFO discipline: Lindley's recursion. Every customer leaves
    as long after its arrival as there was unfinished work just after it came in. */
module FirstInFirstOut {
  import opened Workload
  import opened Queueing
  import Queues
  import W = WorkConservation

  /** When the k-th arrival of the log will leave. */
  function Promise(log: seq<Arrival>, k: nat): real
    requires k < |log|
  {
    log[k].time + Unfinished(log[..k + 1], log[k].time)
  }

  function Max(x: real, y: real): real {
    if x < y then y else x
  }

  /** Lindley's recursion for the departure times. */
  lemma Lindley(log: seq<Arrival>, k: nat)
    requires k + 1 < |log| && log[k].time <= log[k + 1].time && log[k + 1].demand >= 0.0
    ensures Promise(log, k + 1) == Max(Promise(log, k), log[k + 1].time) + log[k + 1].demand
  {
    var before := log[..k + 1];
    UnfinishedDrains(before, log[k].time, log[k + 1].time);
    assert log[..k + 2] == before + [log[k + 1]];
    UnfinishedArrival(before, log[k + 1]);
  }

  lemma PromiseKept(log: seq<Arrival>, more: seq<Arrival>, k: nat)
    requires k < |log|
    ensures Promise(log + more, k) == Promise(log, k)
  {
    assert (log + more)[..k + 1] == log[..k + 1];
  }

  ghost predicate AsPromised(departed: seq<Departure>, log: seq<Arrival>) {
    |departed| <= |log| && forall k :: 0 <= k < |departed| ==> departed[k] == Departure(k, Promise(log, k))
  }

  /** `j` is the customer behind the k-th. */
  ghost predicate Behind(j: Job, log: seq<Arrival>, k: nat) {
    k + 1 < |log| && j.id == k + 1 && Promise(log, k + 1) == Promise(log, k) + j.demand
  }

  /** The queue is, in order of arrival, the customers behind the k-th. */
  ghost predicate Line(q: seq<Job>, log: seq<Arrival>, k: nat) {
    forall j :: 0 <= j < |q| ==> Behind(q[j], log, k + j)
  }

  /** Whoever is in service is the next to leave and is due as promised. */
  ghost predicate Serving(s: Node, log: seq<Arrival>) {
    var n := |s.departed|;
    && |log| == n + |s.pending| + |s.queue|
    && (s.pending == [] ==> s.queue == [] && (log != [] ==> Promise(log, |log| - 1) <= s.now))
    && (s.pending != [] ==> |s.pending| == 1 && s.pending[0] == Ending(n, Promise(log, n)) && s.now <= Promise(log, n))
  }

  ghost predicate Fifo(s: Node, log: seq<Arrival>) {
    && W.SingleServer(s) && s.discipline == Queues.FIFO
    && LastArrival(log) <= s.now
    && AsPromised(s.departed, log) && Serving(s, log) && Line(s.queue, log, |s.departed|)
    && s.arrivals == |log|
  }

  lemma PromisesKept(log: seq<Arrival>, more: seq<Arrival>)
    ensures forall k :: 0 <= k < |log| ==> Promise(log + more, k) == Promise(log, k)
  {
    hide Promise;
    forall k | 0 <= k < |log| ensures Promise(log + more, k) == Promise(log, k) {
      PromiseKept(log, more, k);
    }
  }

  lemma AsPromisedKept(departed: seq<Departure>, log: seq<Arrival>, more: seq<Arrival>)
    requires AsPromised(departed, log)
    ensures AsPromised(departed, log + more)
  {
    hide Promise;
    PromisesKept(log, more);
  }

  lemma LineKept(q: seq<Job>, log: seq<Arrival>, more: seq<Arrival>, k: nat)
    requires Line(q, log, k)
    ensures Line(q, log + more, k)
  {
    hide Promise;
    PromisesKept(log, more);
    forall j | 0 <= j < |q| ensures Behind(q[j], log + more, k + j) {
      assert Behind(q[j], log, k + j);
    }
  }

  lemma LineJoined(q: seq<Job>, log: seq<Arrival>, k: nat, j: Job)
    requires Line(q, log, k) && Behind(j, log, k + |q|)
    ensures Line(q + [j], log, k)
  {
    hide Behind;
  }

  lemma LineMoves(q: seq<Job>, log: seq<Arrival>, k: nat)
    requires Line(q, log, k) && q != []
    ensures Behind(q[0], log, k) && Line(q[1..], log, k + 1)
  {
    hide Behind;
    assert Behind(q[0], log, k + 0);
    forall j | 0 <= j < |q[1..]| ensures Behind(q[1..][j], log, (k + 1) + j) {
      assert Behind(q[j + 1], log, k + (j + 1));
    }
  }

  lemma {:induction false} LaterPromises(q: seq<Job>, log: seq<Arrival>, k: nat, j: nat)
    requires Line(q, log, k) && Demands(q) && k < |log| && j <= |q|
    ensures k + j < |log| && Promise(log, k + j) >= Promise(log, k)
  {
    hide Promise;
    if j > 0 {
      LaterPromises(q, log, k, j - 1);
      assert Behind(q[j - 1], log, k + (j - 1));
    }
  }

  lemma NewPromise(s: Node, log: seq<Arrival>, d: real)
    requires Fifo(s, log) && d >= 0.0
    ensures s.pending != [] ==> log != []
    ensures Promise(log + [Arrival(s.now, d)], |log|)
         == (if s.pending == [] then s.now else Promise(log, |log| - 1)) + d
  {
    hide Promise, Line, AsPromised, Accounted;
    var a := Arrival(s.now, d);
    if log == [] {
      FirstPromise(a);
    } else {
      var k := |log| - 1;
      Lindley(log + [a], k);
      PromiseKept(log, [a], k);
      if s.pending != [] { LaterPromises(s.queue, log, |s.departed|, |s.queue|); }
    }
  }

  lemma FirstPromise(a: Arrival)
    requires a.demand >= 0.0
    ensures Promise([] + [a], 0) == a.time + a.demand
  {
    assert ([] + [a])[..1] == [] + [a];
    UnfinishedArrival([], a);
  }

  lemma EntersService(s: Node, log: seq<Arrival>, v: Visit)
    requires Fifo(s, log) && v.demand >= 0.0 && s.free > 0
    ensures var t, log' := Enter(s, v), log + [Arrival(s.now, v.demand)];
      AsPromised(t.departed, log') && Serving(t, log') && Line(t.queue, log', |t.departed|)
  {
    hide Promise, Accounted, InTime, AsPromised, Pended;
    var a := Arrival(s.now, v.demand);
    NewPromise(s, log, v.demand);
    AsPromisedKept(s.departed, log, [a]);
    assert s.pending == [];
    W.FirstPended(Ending(s.arrivals, s.now + v.demand));
  }

  lemma EntersLine(s: Node, log: seq<Arrival>, v: Visit)
    requires Fifo(s, log) && v.demand >= 0.0 && s.free == 0 && |s.queue| < s.capacity
    ensures var t, log' := Enter(s, v), log + [Arrival(s.now, v.demand)];
      AsPromised(t.departed, log') && Serving(t, log') && Line(t.queue, log', |t.departed|)
  {
    hide Promise, Accounted, InTime, AsPromised, Line, Demands;
    var a := Arrival(s.now, v.demand);
    NewPromise(s, log, v.demand);
    AsPromisedKept(s.departed, log, [a]);
    LineKept(s.queue, log, [a], |s.departed|);
    PromiseKept(log, [a], |s.departed|);
    PromiseKept(log, [a], |log| - 1);
    LineJoined(s.queue, log + [a], |s.departed|, Job(s.arrivals, v.rank, v.demand));
  }

  /** While a customer is being forwarded it has left as promised, its server is held, and the queue is what
      came after it. */
  ghost predicate FifoHeld(s: Node, log: seq<Arrival>) {
    && W.ServerHeld(s) && s.discipline == Queues.FIFO
    && LastArrival(log) <= s.now && s.arrivals == |log| == |s.departed| + |s.queue|
    && s.departed != [] && AsPromised(s.departed, log) && s.departed[|s.departed| - 1].time == s.now
    && Line(s.queue, log, |s.departed| - 1)
  }

  lemma LeavesInLine(s: Node, log: seq<Arrival>)
    requires Fifo(s, log) && Possible(s, Finishes([]))
    ensures FifoHeld(Forwarding(s), log)
  {
    hide Promise, Accounted, InTime, Demands, Line;
    GoneKeeps(s);
  }

  lemma HeldPromise(s: Node, log: seq<Arrival>, d: real)
    requires FifoHeld(s, log) && d >= 0.0
    ensures Promise(log + [Arrival(s.now, d)], |log|) == Promise(log + [Arrival(s.now, d)], |log| - 1) + d
  {
    hide Promise, Line, AsPromised, Accounted;
    var a, k := Arrival(s.now, d), |s.departed| - 1;
    Lindley(log + [a], |log| - 1);
    PromiseKept(log, [a], |log| - 1);
    LastPromise(s.departed, log);
    LaterPromises(s.queue, log, k, |s.queue|);
  }

  lemma LastPromise(departed: seq<Departure>, log: seq<Arrival>)
    requires AsPromised(departed, log) && departed != []
    ensures var k := |departed| - 1; departed[k] == Departure(k, Promise(log, k))
  {
    hide Promise;
  }

  lemma JoinsWhileHeld(s: Node, log: seq<Arrival>, v: Visit)
    requires FifoHeld(s, log) && v.demand >= 0.0 && Enter(s, v).losses == s.losses
    ensures FifoHeld(Enter(s, v), log + [Arrival(s.now, v.demand)]) && Enter(s, v).now == s.now
  {
    hide Promise, Accounted, InTime, AsPromised, Line, Demands;
    var a := Arrival(s.now, v.demand);
    EnterKeeps(s, v, 1);
    HeldPromise(s, log, v.demand);
    AsPromisedKept(s.departed, log, [a]);
    LineKept(s.queue, log, [a], |s.departed| - 1);
    LineJoined(s.queue, log + [a], |s.departed| - 1, Job(s.arrivals, v.rank, v.demand));
  }

  lemma {:induction false} AllJoinWhileHeld(s: Node, log: seq<Arrival>, vs: seq<Visit>)
    requires FifoHeld(s, log) && EnterAll(s, vs).losses == s.losses
    requires forall i :: 0 <= i < |vs| ==> vs[i].demand >= 0.0
    ensures FifoHeld(EnterAll(s, vs), log + Arrivals(s.now, W.Arriving(vs)))
    decreases |vs|
  {
    hide FifoHeld, Enter, W.Arriving, Arrivals;
    W.NextArriving(log, s.now, vs);
    if vs != [] {
      var t, a := Enter(s, vs[0]), Arrival(s.now, vs[0].demand);
      W.EnterAllLosses(t, vs[1..]);
      W.EnterLosses(s, vs[0]);
      JoinsWhileHeld(s, log, vs[0]);
      AllJoinWhileHeld(t, log + [a], vs[1..]);
    }
  }

  lemma NextInLine(s: Node, log: seq<Arrival>)
    requires FifoHeld(s, log)
    ensures Fifo(ReleaseResource(s), log)
  {
    hide Promise, Accounted, InTime, Demands, Pended, Line;
    ReleaseKeeps(s);
    LastPromise(s.departed, log);
    if s.queue != [] {
      LineMoves(s.queue, log, |s.departed| - 1);
      W.FirstPended(Ending(s.queue[0].id, s.now + s.queue[0].demand));
      assert s.queue[0].demand >= 0.0 by { DemandOfFirst(s.queue); }
    } else {
      EmptyLine(log, |s.departed|);
    }
  }

  lemma DemandOfFirst(q: seq<Job>)
    requires Demands(q) && q != []
    ensures q[0].demand >= 0.0
  {
  }

  lemma EmptyLine(log: seq<Arrival>, k: nat)
    ensures Line([], log, k)
  {
  }

  lemma FifoDo(s: Node, log: seq<Arrival>, step: NodeStep)
    requires Fifo(s, log) && Possible(s, step) && Do(s, step).losses == s.losses
    ensures Fifo(Do(s, step), log + Arrivals(s.now, W.PlainSteps(step)))
    ensures Do(s, step).now == TimeAfter(s.now, W.Plain(step))
  {
    hide Fifo, Enter, Forward;
    W.StepArrivals(s.now, log, step);
    match step
    case Passes(t) =>
      FifoPasses(s, log, t);
    case Enters(v) =>
      FifoEnters(s, log, v);
    case Finishes(vs) =>
      FifoFinishes(s, log, vs);
  }

  lemma FifoFinishes(s: Node, log: seq<Arrival>, vs: seq<Visit>)
    requires Fifo(s, log) && Possible(s, Finishes(vs)) && Forward(s, vs).losses == s.losses
    ensures Fifo(Forward(s, vs), log + Arrivals(s.now, W.Arriving(vs))) && Forward(s, vs).now == s.now
  {
    hide Fifo, FifoHeld, EnterAll;
    var u := Forwarding(s);
    ReleaseIs(EnterAll(u, vs));
    LeavesInLine(s, log);
    AllJoinWhileHeld(u, log, vs);
    NextInLine(EnterAll(u, vs), log + Arrivals(s.now, W.Arriving(vs)));
    EnterAllNow(u, vs);
  }

  lemma ReleaseIs(s: Node)
    ensures ReleaseResource(s).now == s.now && ReleaseResource(s).losses == s.losses
  {
  }

  lemma FifoPasses(s: Node, log: seq<Arrival>, t: real)
    requires Fifo(s, log) && Possible(s, Passes(t))
    ensures Fifo(s.(now := t), log)
  {
    hide Consistent, Promise, AsPromised, Line, Demands;
    DoKeeps(s, Passes(t));
    assert Serving(s.(now := t), log);
  }

  lemma FifoEnters(s: Node, log: seq<Arrival>, v: Visit)
    requires Fifo(s, log) && v.demand >= 0.0 && Enter(s, v).losses == s.losses
    ensures Fifo(Enter(s, v), log + [Arrival(s.now, v.demand)]) && Enter(s, v).now == s.now
  {
    hide Consistent, Promise, AsPromised, Line, Demands;
    EnterKeeps(s, v, 0);
    if s.free > 0 { EntersService(s, log, v); } else { EntersLine(s, log, v); }
  }

  lemma {:induction false} FifoRun(s: Node, log: seq<Arrival>, steps: seq<NodeStep>)
    requires Fifo(s, log) && Run(s, steps).Some? && Run(s, steps).value.losses == s.losses
    ensures Fifo(Run(s, steps).value, log + Arrivals(s.now, W.PlainAll(steps)))
    decreases |steps|
  {
    hide Fifo, Possible, Do, W.Plain, W.PlainSteps;
    if steps == [] {
      assert log + Arrivals(s.now, W.PlainAll(steps)) == log;
    } else {
      var t, log' := Do(s, steps[0]), log + Arrivals(s.now, W.PlainSteps(steps[0]));
      W.NodeLossesGrow(t, steps[1..]);
      W.NodeLossesStep(s, steps[0]);
      FifoDo(s, log, steps[0]);
      W.PlainArrivals(s.now, steps);
      FifoRun(t, log', steps[1..]);
      assert log' + Arrivals(t.now, W.PlainAll(steps[1..])) == log + Arrivals(s.now, W.PlainAll(steps));
    }
  }

  lemma InitialFifo(capacity: nat)
    ensures Fifo(Initial(1, Queues.FIFO, capacity), [])
  {
    InitialConsistent(1, Queues.FIFO, capacity);
  }

  /** Customers leave in the order in which they came, the k-th at its arrival time plus the unfinished
      work just after it came in. */
  lemma LeavesAfterUnfinishedWork(capacity: nat, steps: seq<NodeStep>, k: nat)
    requires Run(Initial(1, Queues.FIFO, capacity), steps).Some?
    requires Run(Initial(1, Queues.FIFO, capacity), steps).value.losses == 0
    requires k < |Run(Initial(1, Queues.FIFO, capacity), steps).value.departed|
    ensures var s, log := Run(Initial(1, Queues.FIFO, capacity), steps).value, Arrivals(0.0, W.PlainAll(steps));
      k < |log| && s.departed[k] == Departure(k, log[k].time + Unfinished(log[..k + 1], log[k].time))
  {
    InitialFifo(capacity);
    hide Run, W.SingleServer;
    FifoRun(Initial(1, Queues.FIFO, capacity), [], steps);
    assert [] + Arrivals(0.0, W.PlainAll(steps)) == Arrivals(0.0, W.PlainAll(steps));
  }
}
