/** Work conservation across the disciplines. With one server and no losses, the queueing node, the
    preemptive-resume node and the processor-sharing node hold the same unfinished work at all times:
    that of the recursion `Workload.Unfinished`, which knows nothing of nodes. */
module WorkConservation {
  import opened Reals
  import opened Workload
  import PS = ProcessorSharing
  import PR = PreemptiveResume
  import QN = Queueing
  import Queues

  // ---- processor sharing ----

  /** The demand left of each entry is its finish time less the virtual clock. */
  function EntryWork(q: seq<PS.Entry>, v: real): real {
    if q == [] then 0.0 else (q[0].finish - v) + EntryWork(q[1..], v)
  }

  function SharedWork(s: PS.Node): real {
    EntryWork(s.queue, PS.VirtualNow(s))
  }

  lemma {:induction false} EntryWorkConcatenate(a: seq<PS.Entry>, b: seq<PS.Entry>, v: real)
    ensures EntryWork(a + b, v) == EntryWork(a, v) + EntryWork(b, v)
  {
    if a == [] {
      assert a + b == b;
    } else {
      assert (a + b)[1..] == a[1..] + b;
      EntryWorkConcatenate(a[1..], b, v);
    }
  }

  lemma EntryWorkInserted(q: seq<PS.Entry>, k: nat, e: PS.Entry, v: real)
    requires k <= |q|
    ensures EntryWork(q[..k] + [e] + q[k..], v) == EntryWork(q, v) + (e.finish - v)
  {
    EntryWorkOne(e, v);
    hide EntryWork;
    EntryWorkConcatenate(q[..k], q[k..], v);
    assert q == q[..k] + q[k..];
    EntryWorkConcatenate(q[..k] + [e], q[k..], v);
    EntryWorkConcatenate(q[..k], [e], v);
  }

  lemma EntryWorkOne(e: PS.Entry, v: real)
    ensures EntryWork([e], v) == e.finish - v
  {
    assert [e][1..] == [];
  }

  /** All entries are served at once. */
  lemma {:induction false} EntryWorkShift(q: seq<PS.Entry>, v: real, dv: real)
    ensures EntryWork(q, v + dv) == EntryWork(q, v) - Times(dv, |q| as real)
  {
    if q != [] {
      EntryWorkShift(q[1..], v, dv);
      Distributes(dv, |q[1..]| as real, 1.0);
      assert |q| as real == |q[1..]| as real + 1.0;
    }
  }

  lemma {:induction false} EntryWorkNonNegative(q: seq<PS.Entry>, v: real)
    requires forall i :: 0 <= i < |q| ==> q[i].finish - v >= 0.0
    ensures EntryWork(q, v) >= 0.0
    ensures q != [] && (forall i :: 0 <= i < |q| ==> q[i].finish - v > 0.0) ==> EntryWork(q, v) > 0.0
  {
    if q != [] { EntryWorkNonNegative(q[1..], v); }
  }

  lemma SharedNonNegative(s: PS.Node, m: PS.Sharing)
    requires PS.Refines(s, m)
    ensures SharedWork(s) >= 0.0
  {
    EntryWorkNonNegative(s.queue, PS.VirtualNow(s));
  }

  lemma SharedAdvance(s: PS.Node, m: PS.Sharing, t: real)
    requires PS.Refines(s, m) && PS.Possible(s, Advance(t))
    ensures SharedWork(s.(now := t)) == Drain(SharedWork(s), t - s.now)
  {
    if s.queue != [] {
      PS.AdvanceBusy(s, m, t);
      SharedNonNegative(s.(now := t), m.(now := t, left := PS.Serve(m.left, t - m.now)));
      PS.VirtualNowAdvances(s, t);
      PS.ShareTimes(t - s.now, |s.queue|);
      EntryWorkShift(s.queue, PS.VirtualNow(s), PS.Share(t - s.now, |s.queue|));
      hide PS.Refines, PS.VirtualNow, PS.Share, Times, EntryWork;
    }
  }

  lemma SharedArrive(s: PS.Node, m: PS.Sharing, d: real)
    requires PS.Refines(s, m) && |s.queue| < s.capacity
    ensures SharedWork(PS.Accept(s, d)) == SharedWork(s) + d
  {
    PS.AcceptIs(s, d);
    PS.ScheduledAfterService(PS.Enqueued(s, d));
    PS.ServiceKeeps(PS.Enqueued(s, d));
    var v := PS.VirtualNow(s);
    var e := PS.Entry(s.arrivals, v + d);
    var k := PS.QueuedAt(s.queue, e);
    EntryWorkInserted(s.queue, k, e, v);
    hide PS.Refines, PS.Accept, PS.ServiceNextCustomer, PS.VirtualNow, PS.Queued, EntryWork;
  }

  lemma SharedComplete(s: PS.Node, m: PS.Sharing)
    requires PS.Refines(s, m) && PS.Possible(s, Complete)
    ensures SharedWork(PS.Invoke(s)) == SharedWork(s)
  {
    PS.CompletionIsFirstDone(s, m);
    var v := PS.VirtualNow(s);
    assert s.queue[0].finish == v;
    if |s.queue| == 1 {
      PS.InvokeLast(s);
    } else {
      var t := s.(vtime := v, queue := s.queue[1..], pending := None);
      PS.ScheduledAfterService(t);
      PS.ServiceKeeps(t);
      hide PS.Refines, PS.VirtualNow, PS.ServiceNextCustomer;
    }
  }

  lemma SharedDo(s: PS.Node, m: PS.Sharing, step: Step)
    requires PS.Refines(s, m) && PS.Possible(s, step) && PS.Do(s, step).0.losses == s.losses
    ensures WorkMoves(SharedWork(s), s.now, step, SharedWork(PS.Do(s, step).0))
    ensures PS.Do(s, step).0.now == TimeAfter(s.now, step)
  {
    hide PS.Refines, SharedWork;
    match step
    case Advance(t) => SharedAdvance(s, m, t);
    case Arrive(d) => SharedArrive(s, m, d);
    case Complete => SharedComplete(s, m);
  }

  lemma {:induction false} SharedLossesGrow(s: PS.Node, steps: seq<Step>)
    requires PS.Run(s, steps).Some?
    ensures PS.Run(s, steps).value.0.losses >= s.losses
    decreases |steps|
  {
    if steps != [] { SharedLossesGrow(PS.Do(s, steps[0]).0, steps[1..]); }
  }

  lemma {:induction false} SharedRun(s: PS.Node, m: PS.Sharing, log: seq<Arrival>, steps: seq<Step>)
    requires PS.Refines(s, m) && WorkAgrees(SharedWork(s), log, s.now)
    requires PS.Run(s, steps).Some? && PS.Run(s, steps).value.0.losses == s.losses
    ensures var t := PS.Run(s, steps).value.0;
      WorkAgrees(SharedWork(t), log + Arrivals(s.now, steps), t.now)
    decreases |steps|
  {
    hide PS.Refines, PS.Possible, PS.Do, SharedWork, WorkAgrees, WorkMoves;
    if steps == [] {
      assert log + Arrivals(s.now, steps) == log;
    } else {
      var t := PS.Do(s, steps[0]).0;
      SharedLossesGrow(t, steps[1..]);
      SharedLossesStep(s, steps[0]);
      SharedDo(s, m, steps[0]);
      PS.StepsMatch(s, m, steps[0]);
      PS.DoRefines(s, m, steps[0]);
      PossibleForward(s, steps[0]);
      WorkStillAgrees(SharedWork(s), log, s.now, steps[0], SharedWork(t));
      LoggedArrivals(log, s.now, steps);
      SharedRun(t, PS.Make(m, steps[0]).0, Logged(log, s.now, steps[0]), steps[1..]);
    }
  }

  lemma SharedLossesStep(s: PS.Node, step: Step)
    requires PS.Possible(s, step)
    ensures PS.Do(s, step).0.losses >= s.losses
  {
  }

  lemma PossibleForward(s: PS.Node, step: Step)
    requires PS.Possible(s, step)
    ensures (step.Advance? ==> s.now <= step.to) && (step.Arrive? ==> step.demand >= 0.0)
  {
  }

  /** Processor sharing. */
  lemma SharingConservesWork(capacity: nat, steps: seq<Step>)
    requires PS.Run(PS.Initial(capacity), steps).Some?
    requires PS.Run(PS.Initial(capacity), steps).value.0.losses == 0
    ensures var s := PS.Run(PS.Initial(capacity), steps).value.0;
      SharedWork(s) == Unfinished(Arrivals(0.0, steps), s.now)
  {
    var s := PS.Initial(capacity);
    var m := PS.Sharing(0.0, map[], capacity, 0, 0);
    PS.InitialRefines(capacity);
    assert WorkAgrees(SharedWork(s), [], s.now);
    hide PS.Refines, PS.Run, Unfinished, SharedWork;
    SharedRun(s, m, [], steps);
    assert [] + Arrivals(0.0, steps) == Arrivals(0.0, steps);
  }

  // ---- preemptive resume ----

  function Owed(q: seq<PR.Job>): real {
    if q == [] then 0.0 else q[0].demand + Owed(q[1..])
  }

  function ResumedWork(s: PR.Node): real {
    (if s.inService.Some? then s.inService.value.time - s.now else 0.0) + Owed(s.queue)
  }

  ghost predicate NothingNegative(s: PR.Node) {
    && (forall k :: 0 <= k < |s.queue| ==> s.queue[k].demand >= 0.0)
    && (s.inService.Some? ==> s.now <= s.inService.value.time)
    && (s.inService.None? ==> s.queue == [])
  }

  lemma {:induction false} OwedNonNegative(q: seq<PR.Job>)
    requires forall k :: 0 <= k < |q| ==> q[k].demand >= 0.0
    ensures Owed(q) >= 0.0
  {
    if q != [] { OwedNonNegative(q[1..]); }
  }

  lemma OwedCons(j: PR.Job, q: seq<PR.Job>)
    ensures Owed([j] + q) == j.demand + Owed(q)
  {
    assert ([j] + q)[1..] == q;
  }

  lemma ResumedDo(s: PR.Node, step: Step)
    requires NothingNegative(s) && PR.Possible(s, step)
    ensures NothingNegative(PR.Do(s, step).0)
    ensures WorkMoves(ResumedWork(s), s.now, step, ResumedWork(PR.Do(s, step).0))
    ensures PR.Do(s, step).0.now == TimeAfter(s.now, step)
    ensures (step.Advance? ==> s.now <= step.to) && (step.Arrive? ==> step.demand >= 0.0)
  {
    match step
    case Advance(t) => OwedNonNegative(s.queue);
    case Arrive(d) =>
      PR.AcceptIs(s, d);
      if s.inService.Some? { OwedCons(PR.Job(s.inService.value.id, PR.RemainingServiceTime(s)), s.queue); }
    case Complete => PR.ForwardIs(s);
  }

  lemma {:induction false} ResumedRun(s: PR.Node, log: seq<Arrival>, steps: seq<Step>)
    requires NothingNegative(s) && WorkAgrees(ResumedWork(s), log, s.now) && PR.Run(s, steps).Some?
    ensures var t := PR.Run(s, steps).value.0;
      NothingNegative(t) && WorkAgrees(ResumedWork(t), log + Arrivals(s.now, steps), t.now)
    decreases |steps|
  {
    hide NothingNegative, PR.Possible, PR.Do, ResumedWork, WorkAgrees, WorkMoves;
    if steps == [] {
      assert log + Arrivals(s.now, steps) == log;
    } else {
      var t := PR.Do(s, steps[0]).0;
      ResumedDo(s, steps[0]);
      WorkStillAgrees(ResumedWork(s), log, s.now, steps[0], ResumedWork(t));
      LoggedArrivals(log, s.now, steps);
      ResumedRun(t, Logged(log, s.now, steps[0]), steps[1..]);
    }
  }

  /** Preemptive resume, whose queue is unbounded. */
  lemma ResumeConservesWork(steps: seq<Step>)
    requires PR.Run(PR.Initial(), steps).Some?
    ensures var s := PR.Run(PR.Initial(), steps).value.0;
      NothingNegative(s) && ResumedWork(s) == Unfinished(Arrivals(0.0, steps), s.now)
  {
    assert WorkAgrees(ResumedWork(PR.Initial()), [], 0.0);
    hide PR.Run, Unfinished, ResumedWork;
    ResumedRun(PR.Initial(), [], steps);
    assert [] + Arrivals(0.0, steps) == Arrivals(0.0, steps);
  }

  // ---- the queueing node ----

  function QueuedWork(q: seq<QN.Job>): real {
    if q == [] then 0.0 else q[0].demand + QueuedWork(q[1..])
  }

  function PendingWork(p: seq<QN.Ending>, now: real): real {
    if p == [] then 0.0 else (p[0].time - now) + PendingWork(p[1..], now)
  }

  function NodeWork(s: QN.Node): real {
    PendingWork(s.pending, s.now) + QueuedWork(s.queue)
  }

  lemma {:induction false} QueuedWorkConcatenate(a: seq<QN.Job>, b: seq<QN.Job>)
    ensures QueuedWork(a + b) == QueuedWork(a) + QueuedWork(b)
  {
    if a == [] {
      assert a + b == b;
    } else {
      assert (a + b)[1..] == a[1..] + b;
      QueuedWorkConcatenate(a[1..], b);
    }
  }

  lemma QueuedWorkArranged(s: QN.Node, j: QN.Job)
    ensures QueuedWork(QN.Arranged(s.discipline, s.queue, j)) == QueuedWork(s.queue) + j.demand
  {
    var k := QN.ArrangedAt(s.discipline, s.queue, j);
    var q := s.queue;
    OneQueued(j);
    hide QueuedWork, QN.Arranged;
    QueuedWorkConcatenate(q[..k], q[k..]);
    assert q == q[..k] + q[k..];
    QueuedWorkConcatenate(q[..k] + [j], q[k..]);
    QueuedWorkConcatenate(q[..k], [j]);
  }

  lemma OneQueued(j: QN.Job)
    ensures QueuedWork([j]) == j.demand
  {
    assert [j][1..] == [];
  }

  lemma {:induction false} QueuedNonNegative(q: seq<QN.Job>)
    requires QN.Demands(q)
    ensures QueuedWork(q) >= 0.0
  {
    if q != [] { QueuedNonNegative(q[1..]); }
  }

  /** The step as the other nodes see it. */
  function Plain(step: QN.NodeStep): Step {
    match step
    case Passes(t) => Advance(t)
    case Enters(v) => Arrive(v.demand)
    case Finishes(_) => Complete
  }

  /** Those who come straight back arrive when the completion is over. */
  function Arriving(vs: seq<QN.Visit>): seq<Step> {
    if vs == [] then [] else [Arrive(vs[0].demand)] + Arriving(vs[1..])
  }

  function PlainSteps(step: QN.NodeStep): seq<Step> {
    [Plain(step)] + if step.Finishes? then Arriving(step.back) else []
  }

  function PlainAll(steps: seq<QN.NodeStep>): seq<Step> {
    if steps == [] then [] else PlainSteps(steps[0]) + PlainAll(steps[1..])
  }

  lemma PlainWithoutFeedback(steps: seq<QN.NodeStep>)
    requires steps != [] && (steps[0].Finishes? ==> steps[0].back == [])
    ensures PlainAll(steps) == [Plain(steps[0])] + PlainAll(steps[1..])
    ensures PlainAll(steps)[1..] == PlainAll(steps[1..])
  {
    assert PlainSteps(steps[0]) == [Plain(steps[0])];
  }

  lemma {:induction false} ArrivingFirst(now: real, vs: seq<QN.Visit>, steps: seq<Step>)
    ensures Arrivals(now, Arriving(vs) + steps) == Arrivals(now, Arriving(vs)) + Arrivals(now, steps)
  {
    if vs == [] {
      assert Arriving(vs) + steps == steps;
    } else {
      var a, all := Arriving(vs), Arriving(vs) + steps;
      assert a[1..] == Arriving(vs[1..]) && all[1..] == Arriving(vs[1..]) + steps;
      ArrivingFirst(now, vs[1..], steps);
    }
  }

  lemma StartsWith(now: real, step: Step, rest: seq<Step>)
    ensures Arrivals(now, [step] + rest)
         == (if step.Arrive? then [Arrival(now, step.demand)] else []) + Arrivals(TimeAfter(now, step), rest)
  {
    assert ([step] + rest)[1..] == rest;
  }

  lemma ArrivalsSplit(now: real, step: Step, a: seq<Step>, b: seq<Step>)
    requires var t := TimeAfter(now, step); Arrivals(t, a + b) == Arrivals(t, a) + Arrivals(t, b)
    ensures Arrivals(now, ([step] + a) + b) == Arrivals(now, [step] + a) + Arrivals(TimeAfter(now, step), b)
  {
    hide Arrivals;
    var t := TimeAfter(now, step);
    assert ([step] + a) + b == [step] + (a + b);
    StartsWith(now, step, a);
    StartsWith(now, step, a + b);
    FirstAndRest(if step.Arrive? then [Arrival(now, step.demand)] else [], Arrivals(t, a), Arrivals(t, b));
  }

  lemma PlainStepsIs(step: QN.NodeStep, vs: seq<QN.Visit>)
    requires vs == if step.Finishes? then step.back else []
    ensures PlainSteps(step) == [Plain(step)] + Arriving(vs)
  {
  }

  lemma FirstAndRest(a: seq<Arrival>, b: seq<Arrival>, c: seq<Arrival>)
    ensures a + (b + c) == (a + b) + c
  {
  }

  lemma NextArriving(log: seq<Arrival>, now: real, vs: seq<QN.Visit>)
    ensures log + Arrivals(now, Arriving(vs))
         == if vs == [] then log else (log + [Arrival(now, vs[0].demand)]) + Arrivals(now, Arriving(vs[1..]))
  {
    if vs != [] {
      StartsWith(now, Arrive(vs[0].demand), Arriving(vs[1..]));
      hide Arrivals;
      FirstAndRest(log, [Arrival(now, vs[0].demand)], Arrivals(now, Arriving(vs[1..])));
    }
  }

  /** The arrivals of a run are those of its first step and those of the rest. */
  lemma PlainArrivals(now: real, steps: seq<QN.NodeStep>)
    requires steps != []
    ensures Arrivals(now, PlainAll(steps))
         == Arrivals(now, PlainSteps(steps[0])) + Arrivals(TimeAfter(now, Plain(steps[0])), PlainAll(steps[1..]))
  {
    hide Plain, PlainSteps, Arriving, Arrivals;
    var vs := if steps[0].Finishes? then steps[0].back else [];
    PlainStepsIs(steps[0], vs);
    ArrivingFirst(TimeAfter(now, Plain(steps[0])), vs, PlainAll(steps[1..]));
    ArrivalsSplit(now, Plain(steps[0]), Arriving(vs), PlainAll(steps[1..]));
  }

  ghost predicate SingleServer(s: QN.Node) {
    QN.Consistent(s, 0) && s.servers == 1
  }

  lemma FirstPended(e: QN.Ending)
    ensures QN.Pended([], e) == [e]
  {
    hide QN.Pended;
    var k := QN.PendedAt([], e);
  }

  lemma OnePending(e: QN.Ending, now: real)
    ensures PendingWork([e], now) == e.time - now
  {
    assert [e][1..] == [];
  }

  lemma NodePasses(s: QN.Node, t: real)
    requires SingleServer(s) && QN.Possible(s, QN.Passes(t))
    ensures NodeWork(QN.Do(s, QN.Passes(t))) == Drain(NodeWork(s), t - s.now)
  {
    QueuedNonNegative(s.queue);
    if s.pending != [] {
      assert s.pending == [s.pending[0]];
      OnePending(s.pending[0], s.now);
      OnePending(s.pending[0], t);
    }
    hide QueuedWork, PendingWork, QN.Accounted, QN.InTime;
  }

  lemma NodeEnters(s: QN.Node, v: QN.Visit)
    requires SingleServer(s) && QN.Enter(s, v).losses == s.losses
    ensures NodeWork(QN.Enter(s, v)) == NodeWork(s) + v.demand
  {
    var j := QN.Job(s.arrivals, v.rank, v.demand);
    QueuedWorkArranged(s, j);
    var e := QN.Ending(j.id, s.now + j.demand);
    FirstPended(e);
    OnePending(e, s.now);
    hide QN.Accounted, QN.InTime, QN.Pended, QN.Arranged;
    if s.free > 0 { assert s.pending == []; }
  }

  /** The single server is still held for the customer being forwarded. */
  ghost predicate ServerHeld(s: QN.Node) {
    QN.Consistent(s, 1) && s.servers == 1
  }

  lemma NodeForwarding(s: QN.Node)
    requires SingleServer(s) && QN.Possible(s, QN.Finishes([]))
    ensures ServerHeld(QN.Forwarding(s)) && NodeWork(QN.Forwarding(s)) == NodeWork(s)
  {
    hide QN.Accounted, QN.InTime;
    QN.GoneKeeps(s);
    assert s.pending == [s.pending[0]] && s.pending[1..] == [];
    OnePending(s.pending[0], s.now);
  }

  lemma HeldEnters(s: QN.Node, v: QN.Visit)
    requires ServerHeld(s) && v.demand >= 0.0 && QN.Enter(s, v).losses == s.losses
    ensures ServerHeld(QN.Enter(s, v)) && NodeWork(QN.Enter(s, v)) == NodeWork(s) + v.demand
    ensures QN.Enter(s, v).now == s.now
  {
    hide QN.Accounted, QN.InTime, QN.Arranged, QN.Demands;
    QN.EnterKeeps(s, v, 1);
    QueuedWorkArranged(s, QN.Job(s.arrivals, v.rank, v.demand));
  }

  lemma HeldReleases(s: QN.Node)
    requires ServerHeld(s)
    ensures SingleServer(QN.ReleaseResource(s)) && NodeWork(QN.ReleaseResource(s)) == NodeWork(s)
  {
    hide QN.Accounted, QN.InTime, QN.Pended;
    QN.ReleaseKeeps(s);
    assert s.pending == [];
    if s.queue != [] {
      var e := QN.Ending(s.queue[0].id, s.now + s.queue[0].demand);
      FirstPended(e);
      OnePending(e, s.now);
    }
  }

  lemma {:induction false} EnterAllLosses(s: QN.Node, vs: seq<QN.Visit>)
    ensures QN.EnterAll(s, vs).losses >= s.losses
    decreases |vs|
  {
    if vs != [] { EnterAllLosses(QN.Enter(s, vs[0]), vs[1..]); }
  }

  /** Everybody who comes back while the server is held adds its demand. */
  lemma {:induction false} HeldEnterAll(s: QN.Node, log: seq<Arrival>, vs: seq<QN.Visit>)
    requires ServerHeld(s) && WorkAgrees(NodeWork(s), log, s.now)
    requires QN.EnterAll(s, vs).losses == s.losses && forall i :: 0 <= i < |vs| ==> vs[i].demand >= 0.0
    ensures var t := QN.EnterAll(s, vs);
      ServerHeld(t) && WorkAgrees(NodeWork(t), log + Arrivals(s.now, Arriving(vs)), s.now)
    decreases |vs|
  {
    hide ServerHeld, NodeWork, QN.Enter, WorkAgrees, Arriving, Arrivals;
    NextArriving(log, s.now, vs);
    if vs != [] {
      var t, d := QN.Enter(s, vs[0]), vs[0].demand;
      EnterAllLosses(t, vs[1..]);
      EnterLosses(s, vs[0]);
      HeldEnters(s, vs[0]);
      OneMoreArrives(NodeWork(s), log, s.now, d);
      HeldEnterAll(t, log + [Arrival(s.now, d)], vs[1..]);
    }
  }

  lemma EnterLosses(s: QN.Node, v: QN.Visit)
    ensures QN.Enter(s, v).losses >= s.losses
  {
  }

  lemma OneMoreArrives(work: real, log: seq<Arrival>, now: real, d: real)
    requires WorkAgrees(work, log, now) && d >= 0.0
    ensures WorkAgrees(work + d, log + [Arrival(now, d)], now)
  {
    WorkStillAgrees(work, log, now, Arrive(d), work + d);
  }

  lemma NodeFinishes(s: QN.Node, log: seq<Arrival>, vs: seq<QN.Visit>)
    requires SingleServer(s) && WorkAgrees(NodeWork(s), log, s.now) && QN.Possible(s, QN.Finishes(vs))
    requires QN.Do(s, QN.Finishes(vs)).losses == s.losses
    ensures var t := QN.Do(s, QN.Finishes(vs));
      SingleServer(t) && t.now == s.now && WorkAgrees(NodeWork(t), log + Arrivals(s.now, Arriving(vs)), s.now)
  {
    hide SingleServer, ServerHeld, NodeWork, QN.EnterAll, WorkAgrees, QN.Pended;
    var u := QN.Forwarding(s);
    NodeForwarding(s);
    HeldEnterAll(u, log, vs);
    QN.EnterAllNow(u, vs);
    HeldReleases(QN.EnterAll(u, vs));
  }

  /** Every step of the single-server node moves its work as the recursion does. */
  lemma NodeDo(s: QN.Node, log: seq<Arrival>, step: QN.NodeStep)
    requires SingleServer(s) && WorkAgrees(NodeWork(s), log, s.now)
    requires QN.Possible(s, step) && QN.Do(s, step).losses == s.losses
    ensures var t := QN.Do(s, step);
      && SingleServer(t) && t.now == TimeAfter(s.now, Plain(step))
      && WorkAgrees(NodeWork(t), log + Arrivals(s.now, PlainSteps(step)), t.now)
  {
    hide QN.Consistent, NodeWork, WorkAgrees, Arrivals, QN.Enter, QN.Forward;
    QN.DoKeeps(s, step);
    StepArrivals(s.now, log, step);
    match step
    case Passes(t) =>
      NodePasses(s, t);
      WorkStillAgrees(NodeWork(s), log, s.now, Advance(t), NodeWork(QN.Do(s, step)));
    case Enters(v) =>
      NodeEnters(s, v);
      OneMoreArrives(NodeWork(s), log, s.now, v.demand);
      QN.EnterKeeps(s, v, 0);
    case Finishes(vs) => NodeFinishes(s, log, vs);
  }

  lemma StepArrivals(now: real, log: seq<Arrival>, step: QN.NodeStep)
    ensures log + Arrivals(now, PlainSteps(step))
         == if step.Passes? then log
            else if step.Enters? then log + [Arrival(now, step.visit.demand)]
            else log + Arrivals(now, Arriving(step.back))
  {
    assert PlainSteps(step)[1..] == if step.Finishes? then Arriving(step.back) else [];
  }

  lemma NodeLossesStep(s: QN.Node, step: QN.NodeStep)
    requires QN.Possible(s, step)
    ensures QN.Do(s, step).losses >= s.losses
  {
    if step.Finishes? { EnterAllLosses(QN.Forwarding(s), step.back); }
  }

  lemma {:induction false} NodeLossesGrow(s: QN.Node, steps: seq<QN.NodeStep>)
    requires QN.Run(s, steps).Some?
    ensures QN.Run(s, steps).value.losses >= s.losses
    decreases |steps|
  {
    hide QN.Do, QN.Possible;
    if steps != [] {
      NodeLossesStep(s, steps[0]);
      NodeLossesGrow(QN.Do(s, steps[0]), steps[1..]);
    }
  }

  lemma {:induction false} NodeRun(s: QN.Node, log: seq<Arrival>, steps: seq<QN.NodeStep>)
    requires SingleServer(s) && WorkAgrees(NodeWork(s), log, s.now)
    requires QN.Run(s, steps).Some? && QN.Run(s, steps).value.losses == s.losses
    ensures var t := QN.Run(s, steps).value;
      SingleServer(t) && WorkAgrees(NodeWork(t), log + Arrivals(s.now, PlainAll(steps)), t.now)
    decreases |steps|
  {
    hide SingleServer, QN.Possible, QN.Do, NodeWork, WorkAgrees, Plain, PlainSteps;
    if steps == [] {
      assert log + Arrivals(s.now, PlainAll(steps)) == log;
    } else {
      var t, log' := QN.Do(s, steps[0]), log + Arrivals(s.now, PlainSteps(steps[0]));
      NodeLossesGrow(t, steps[1..]);
      NodeLossesStep(s, steps[0]);
      NodeDo(s, log, steps[0]);
      PlainArrivals(s.now, steps);
      NodeRun(t, log', steps[1..]);
      assert log' + Arrivals(t.now, PlainAll(steps[1..])) == log + Arrivals(s.now, PlainAll(steps));
    }
  }

  /** The single-server queueing node with any of its disciplines, immediate feedback included. */
  lemma QueueingConservesWork(d: Queues.Discipline, capacity: nat, steps: seq<QN.NodeStep>)
    requires QN.Run(QN.Initial(1, d, capacity), steps).Some?
    requires QN.Run(QN.Initial(1, d, capacity), steps).value.losses == 0
    ensures var s := QN.Run(QN.Initial(1, d, capacity), steps).value;
      SingleServer(s) && NodeWork(s) == Unfinished(Arrivals(0.0, PlainAll(steps)), s.now)
  {
    var s := QN.Initial(1, d, capacity);
    QN.InitialConsistent(1, d, capacity);
    assert WorkAgrees(NodeWork(s), [], 0.0);
    hide QN.Run, Unfinished, NodeWork, QN.Consistent;
    NodeRun(s, [], steps);
    assert [] + Arrivals(0.0, PlainAll(steps)) == Arrivals(0.0, PlainAll(steps));
  }

  // ---- across the disciplines ----

  /** When no completion is due, a node is busy exactly when it holds work. */
  lemma SharedBusy(s: PS.Node, m: PS.Sharing)
    requires PS.Refines(s, m) && s.pending != Some(s.now)
    ensures s.queue != [] <==> SharedWork(s) > 0.0
  {
    if s.queue != [] {
      PS.CompletionIsFirstDone(s, m);
      EntryWorkNonNegative(s.queue, PS.VirtualNow(s));
    }
  }

  lemma ResumedBusy(s: PR.Node)
    requires NothingNegative(s) && (s.inService.Some? ==> s.inService.value.time != s.now)
    ensures s.inService.Some? <==> ResumedWork(s) > 0.0
  {
    OwedNonNegative(s.queue);
  }

  lemma NodeBusy(s: QN.Node)
    requires SingleServer(s) && (s.pending != [] ==> s.pending[0].time != s.now)
    ensures s.pending != [] <==> NodeWork(s) > 0.0
  {
    QueuedNonNegative(s.queue);
    if s.pending != [] {
      assert s.pending == [s.pending[0]];
      OnePending(s.pending[0], s.now);
    }
    hide QN.Accounted, QueuedWork;
    if s.pending == [] { assert s.queue == []; NoQueuedWork(); }
  }

  lemma NoQueuedWork()
    ensures QueuedWork([]) == 0.0
  {
  }

  /** Three nodes that have been given the same arrivals and demands, lost nobody, and are looked at at the
      same time. */
  ghost predicate SameArrivals(capacity: nat, sharing: seq<Step>, s: PS.Node,
                               resuming: seq<Step>, r: PR.Node,
                               d: Queues.Discipline, capacity': nat, queueing: seq<QN.NodeStep>, q: QN.Node) {
    && PS.Run(PS.Initial(capacity), sharing).Some? && PS.Run(PS.Initial(capacity), sharing).value.0 == s
    && PR.Run(PR.Initial(), resuming).Some? && PR.Run(PR.Initial(), resuming).value.0 == r
    && QN.Run(QN.Initial(1, d, capacity'), queueing) == Some(q)
    && s.losses == 0 && q.losses == 0
    && s.now == r.now && s.now == q.now
    && Arrivals(0.0, sharing) == Arrivals(0.0, resuming)
    && Arrivals(0.0, sharing) == Arrivals(0.0, PlainAll(queueing))
  }

  /** They hold the same unfinished work. */
  lemma SameWork(capacity: nat, sharing: seq<Step>, s: PS.Node, resuming: seq<Step>, r: PR.Node,
                 d: Queues.Discipline, capacity': nat, queueing: seq<QN.NodeStep>, q: QN.Node)
    requires SameArrivals(capacity, sharing, s, resuming, r, d, capacity', queueing, q)
    ensures SharedWork(s) == Unfinished(Arrivals(0.0, sharing), s.now)
    ensures ResumedWork(r) == SharedWork(s)
    ensures NodeWork(q) == SharedWork(s)
  {
    hide PS.Run, PR.Run, QN.Run, Arrivals, Unfinished, SharedWork, ResumedWork, NodeWork;
    SharingConservesWork(capacity, sharing);
    ResumeConservesWork(resuming);
    QueueingConservesWork(d, capacity', queueing);
  }

  /** So their busy periods coincide: once what is due has completed, either all three are busy or all
      three are idle. */
  lemma BusyTogether(capacity: nat, sharing: seq<Step>, s: PS.Node, resuming: seq<Step>, r: PR.Node,
                     d: Queues.Discipline, capacity': nat, queueing: seq<QN.NodeStep>, q: QN.Node)
    requires SameArrivals(capacity, sharing, s, resuming, r, d, capacity', queueing, q)
    requires s.pending != Some(s.now)
    requires r.inService.Some? ==> r.inService.value.time != r.now
    requires q.pending != [] ==> q.pending[0].time != q.now
    ensures s.queue != [] <==> Unfinished(Arrivals(0.0, sharing), s.now) > 0.0
    ensures r.inService.Some? <==> s.queue != []
    ensures q.pending != [] <==> s.queue != []
  {
    hide PS.Run, PR.Run, QN.Run, Arrivals, Unfinished, SharedWork, ResumedWork, NodeWork;
    hide PS.Refines, NothingNegative, SingleServer;
    SameWork(capacity, sharing, s, resuming, r, d, capacity', queueing, q);
    ResumeConservesWork(resuming);
    QueueingConservesWork(d, capacity', queueing);
    var m := PS.Sharing(0.0, map[], capacity, 0, 0);
    PS.InitialRefines(capacity);
    PS.RunRefines(PS.Initial(capacity), m, sharing);
    SharedBusy(s, PS.NaiveRun(m, sharing).value.0);
    ResumedBusy(r);
    NodeBusy(q);
  }
}
