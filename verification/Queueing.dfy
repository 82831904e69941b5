/** The multi-server queueing node: a pool of servers in front of which customers queue, or are lost when
    the queue is full, and which releases a server as soon as a customer has been forwarded. */
module Queueing {
  import opened PointerList
  import opened Workload
  import Queues

  /** A customer at the node. `rank` is what an ordered queue compares. */
  datatype Job = Job(id: nat, rank: real, demand: real)

  /** What a customer brings when it enters. */
  datatype Visit = Visit(rank: real, demand: real)

  /** A pending end-of-service event and the customer it carries. */
  datatype Ending = Ending(id: nat, time: real)

  /** `back` are the customers that enter this node again while the leaving customer is being
      forwarded, before its server is released. */
  datatype NodeStep = Passes(to: real) | Enters(visit: Visit) | Finishes(back: seq<Visit>)

  /** `pending` is the node's part of the diary, in diary order. Visits are numbered in the order of
      arrival; `lost` and `departed` keep the history. */
  datatype Node = Node(
    now: real,
    servers: nat,
    free: nat,
    discipline: Queues.Discipline,
    capacity: nat,
    queue: seq<Job>,
    pending: seq<Ending>,
    arrivals: nat,
    losses: nat,
    lost: seq<nat>,
    departed: seq<Departure>)

  predicate NoLater(x: Ending, y: Ending) {
    x.time <= y.time
  }

  predicate SmallerThan(x: Job, y: Job) {
    x.rank <= y.rank
  }

  function Pended(pending: seq<Ending>, e: Ending): seq<Ending> {
    Inserted((x: Ending, y: Ending) => NoLater(x, y), pending, e)
  }

  function Arranged(d: Queues.Discipline, q: seq<Job>, j: Job): seq<Job> {
    match d
    case FIFO => q + [j]
    case LIFO => [j] + q
    case ByRank => Inserted((x: Job, y: Job) => SmallerThan(x, y), q, j)
  }

  function InvokeService(s: Node, j: Job): Node {
    s.(pending := Pended(s.pending, Ending(j.id, s.now + j.demand)))
  }

  function Accept(s: Node, j: Job): Node {
    if s.free > 0 then InvokeService(s.(free := s.free - 1), j)
    else if |s.queue| < s.capacity then s.(queue := Arranged(s.discipline, s.queue, j))
    else s.(losses := s.losses + 1, lost := s.lost + [j.id])
  }

  function Enter(s: Node, v: Visit): Node {
    Accept(s.(arrivals := s.arrivals + 1), Job(s.arrivals, v.rank, v.demand))
  }

  function EnterAll(s: Node, vs: seq<Visit>): Node
    decreases |vs|
  {
    if vs == [] then s else EnterAll(Enter(s, vs[0]), vs[1..])
  }

  function ReleaseResource(s: Node): Node {
    if s.queue != [] then InvokeService(s.(queue := s.queue[1..]), s.queue[0]) else s.(free := s.free + 1)
  }

  /** The node while the first customer due is being forwarded: its event has left the diary, the customer
      has left the node, and its server is still held. */
  function Forwarding(s: Node): Node
    requires s.pending != []
  {
    s.(pending := s.pending[1..], departed := s.departed + [Departure(s.pending[0].id, s.now)])
  }

  /** Those who come straight back enter before the server is released. */
  function Forward(s: Node, back: seq<Visit>): Node
    requires s.pending != []
  {
    ReleaseResource(EnterAll(Forwarding(s), back))
  }

  predicate Possible(s: Node, step: NodeStep) {
    match step
    case Passes(t) => s.now <= t && (s.pending != [] ==> t <= s.pending[0].time)
    case Enters(v) => v.demand >= 0.0
    case Finishes(vs) =>
      && s.pending != [] && s.pending[0].time == s.now
      && forall i :: 0 <= i < |vs| ==> vs[i].demand >= 0.0
  }

  function Do(s: Node, step: NodeStep): Node
    requires Possible(s, step)
  {
    match step
    case Passes(t) => s.(now := t)
    case Enters(v) => Enter(s, v)
    case Finishes(vs) => Forward(s, vs)
  }

  function Run(s: Node, steps: seq<NodeStep>): Option<Node>
    decreases |steps|
  {
    if steps == [] then Some(s)
    else if !Possible(s, steps[0]) then None
    else Run(Do(s, steps[0]), steps[1..])
  }

  function Initial(servers: nat, discipline: Queues.Discipline, capacity: nat): Node {
    Node(0.0, servers, servers, discipline, capacity, [], [], 0, 0, [], [])
  }

  // ---- conservation ----

  function Numbers(n: nat): multiset<nat> {
    if n == 0 then multiset{} else Numbers(n - 1) + multiset{n - 1}
  }

  function Queued(q: seq<Job>): multiset<nat> {
    if q == [] then multiset{} else multiset{q[0].id} + Queued(q[1..])
  }

  function InService(p: seq<Ending>): multiset<nat> {
    if p == [] then multiset{} else multiset{p[0].id} + InService(p[1..])
  }

  function Gone(d: seq<Departure>): multiset<nat> {
    if d == [] then multiset{} else Gone(d[..|d| - 1]) + multiset{d[|d| - 1].id}
  }

  /** Every visit is queued, in service, lost or departed, and only one of these. */
  ghost predicate Accounted(s: Node) {
    Queued(s.queue) + InService(s.pending) + multiset(s.lost) + Gone(s.departed) == Numbers(s.arrivals)
  }

  ghost predicate InTime(p: seq<Ending>, now: real) {
    && (forall i, j :: 0 <= i < j < |p| ==> p[i].time <= p[j].time)
    && (forall i :: 0 <= i < |p| ==> now <= p[i].time)
  }

  ghost predicate Demands(q: seq<Job>) {
    forall i :: 0 <= i < |q| ==> q[i].demand >= 0.0
  }

  /** Between events `held` is zero; while a customer is being forwarded its server is still held. Each
      other claimed server has one pending event, not in the past; no one waits while a server is free. */
  ghost predicate Consistent(s: Node, held: nat) {
    && s.free + |s.pending| + held == s.servers
    && (s.queue != [] ==> s.free == 0)
    && |s.queue| <= s.capacity && Demands(s.queue)
    && InTime(s.pending, s.now)
    && s.losses == |s.lost|
    && Accounted(s)
  }

  lemma {:induction false} InServiceConcatenate(a: seq<Ending>, b: seq<Ending>)
    ensures InService(a + b) == InService(a) + InService(b)
  {
    if a == [] {
      assert a + b == b;
    } else {
      assert (a + b)[1..] == a[1..] + b;
      InServiceConcatenate(a[1..], b);
    }
  }

  lemma {:induction false} QueuedConcatenate(a: seq<Job>, b: seq<Job>)
    ensures Queued(a + b) == Queued(a) + Queued(b)
  {
    if a == [] {
      assert a + b == b;
    } else {
      assert (a + b)[1..] == a[1..] + b;
      QueuedConcatenate(a[1..], b);
    }
  }

  lemma QueuedOne(j: Job)
    ensures Queued([j]) == multiset{j.id}
  {
    assert [j][1..] == [];
  }

  lemma PendedAt(p: seq<Ending>, e: Ending) returns (k: nat)
    ensures k <= |p| && Pended(p, e) == p[..k] + [e] + p[k..]
    ensures forall i :: 0 <= i < k ==> p[i].time <= e.time
    ensures k < |p| ==> e.time < p[k].time
  {
    var before := (x: Ending, y: Ending) => NoLater(x, y);
    k := InsertedAt(before, p, e);
    assert forall i :: 0 <= i < k ==> before(p[i], e);
    assert k < |p| ==> !before(p[k], e);
  }

  lemma PendedInTime(p: seq<Ending>, e: Ending, now: real)
    requires InTime(p, now) && now <= e.time
    ensures InTime(Pended(p, e), now) && |Pended(p, e)| == |p| + 1
  {
    var k := PendedAt(p, e);
    hide Pended;
    var r := Pended(p, e);
    forall i | 0 <= i < |p| ensures if i < k then p[i].time <= e.time else e.time <= p[i].time {
      if i > k { assert p[k].time <= p[i].time; }
    }
    forall i, j | 0 <= i < j < |r| ensures r[i].time <= r[j].time {
      assert r[i] == (if i < k then p[i] else if i == k then e else p[i - 1]);
      assert r[j] == (if j < k then p[j] else if j == k then e else p[j - 1]);
    }
    forall i | 0 <= i < |r| ensures now <= r[i].time {
      assert r[i] == (if i < k then p[i] else if i == k then e else p[i - 1]);
    }
  }

  lemma InServiceInserted(p: seq<Ending>, k: nat, e: Ending)
    requires k <= |p|
    ensures InService(p[..k] + [e] + p[k..]) == InService(p) + multiset{e.id}
  {
    hide InService;
    InServiceConcatenate(p[..k], p[k..]);
    assert p == p[..k] + p[k..];
    InServiceConcatenate(p[..k] + [e], p[k..]);
    InServiceConcatenate(p[..k], [e]);
    InServiceOne(e);
  }

  lemma PendedElements(p: seq<Ending>, e: Ending)
    ensures InService(Pended(p, e)) == InService(p) + multiset{e.id}
  {
    var k := PendedAt(p, e);
    InServiceInserted(p, k, e);
    hide InService, Pended;
  }

  lemma InServiceOne(e: Ending)
    ensures InService([e]) == multiset{e.id}
  {
    assert [e][1..] == [];
  }

  lemma ArrangedAt(d: Queues.Discipline, q: seq<Job>, j: Job) returns (k: nat)
    ensures k <= |q| && Arranged(d, q, j) == q[..k] + [j] + q[k..]
  {
    match d
    case FIFO => k := |q|;
    case LIFO => k := 0;
    case ByRank => k := InsertedAt((x: Job, y: Job) => SmallerThan(x, y), q, j);
  }

  lemma QueuedInserted(q: seq<Job>, k: nat, j: Job)
    requires k <= |q|
    ensures Queued(q[..k] + [j] + q[k..]) == Queued(q) + multiset{j.id}
  {
    hide Queued;
    QueuedConcatenate(q[..k], q[k..]);
    assert q == q[..k] + q[k..];
    QueuedConcatenate(q[..k] + [j], q[k..]);
    QueuedConcatenate(q[..k], [j]);
    QueuedOne(j);
  }

  lemma ArrangedKeeps(d: Queues.Discipline, q: seq<Job>, j: Job)
    requires Demands(q) && j.demand >= 0.0
    ensures |Arranged(d, q, j)| == |q| + 1 && Queued(Arranged(d, q, j)) == Queued(q) + multiset{j.id}
    ensures Demands(Arranged(d, q, j))
  {
    var k := ArrangedAt(d, q, j);
    QueuedInserted(q, k, j);
    hide Arranged, Queued;
  }

  /** A customer put into service moves from wherever it was to the pending events. */
  lemma ServiceKeeps(s: Node, j: Job)
    requires InTime(s.pending, s.now) && j.demand >= 0.0
    ensures var t := InvokeService(s, j);
      && t == s.(pending := t.pending) && |t.pending| == |s.pending| + 1
      && InTime(t.pending, t.now) && InService(t.pending) == InService(s.pending) + multiset{j.id}
  {
    hide Pended, InTime, InService;
    PendedInTime(s.pending, Ending(j.id, s.now + j.demand), s.now);
    PendedElements(s.pending, Ending(j.id, s.now + j.demand));
  }

  lemma OneMore(q: multiset<nat>, p: multiset<nat>, l: multiset<nat>, g: multiset<nat>, n: nat)
    ensures q + (p + multiset{n}) + l + g == (q + p + l + g) + multiset{n}
    ensures (q + multiset{n}) + p + l + g == (q + p + l + g) + multiset{n}
    ensures q + p + (l + multiset{n}) + g == (q + p + l + g) + multiset{n}
  {
  }

  lemma EnterServiceIs(s: Node, v: Visit)
    requires s.free > 0
    ensures Enter(s, v)
         == InvokeService(s.(arrivals := s.arrivals + 1, free := s.free - 1), Job(s.arrivals, v.rank, v.demand))
  {
  }

  lemma EnterService(s: Node, v: Visit, held: nat)
    requires Consistent(s, held) && v.demand >= 0.0 && s.free > 0
    ensures Consistent(Enter(s, v), held)
  {
    hide Enter, InvokeService, InTime, Demands, Queued, InService, Gone, Numbers;
    var u := s.(arrivals := s.arrivals + 1, free := s.free - 1);
    EnterServiceIs(s, v);
    ServiceKeeps(u, Job(s.arrivals, v.rank, v.demand));
    NextNumber(s.arrivals);
    OneMore(Queued(s.queue), InService(s.pending), multiset(s.lost), Gone(s.departed), s.arrivals);
  }

  lemma EnterQueue(s: Node, v: Visit, held: nat)
    requires Consistent(s, held) && v.demand >= 0.0 && s.free == 0 && |s.queue| < s.capacity
    ensures Consistent(Enter(s, v), held)
  {
    ArrangedKeeps(s.discipline, s.queue, Job(s.arrivals, v.rank, v.demand));
    NextNumber(s.arrivals);
    OneMore(Queued(s.queue), InService(s.pending), multiset(s.lost), Gone(s.departed), s.arrivals);
    hide Arranged, InTime, Demands, Queued, InService, Gone, Numbers;
  }

  lemma EnterLoss(s: Node, v: Visit, held: nat)
    requires Consistent(s, held) && s.free == 0 && |s.queue| >= s.capacity
    ensures Consistent(Enter(s, v), held)
  {
    NextNumber(s.arrivals);
    hide InTime, Demands, Queued, InService, Gone, Numbers;
    assert multiset(s.lost + [s.arrivals]) == multiset(s.lost) + multiset{s.arrivals};
  }

  lemma EnterKeeps(s: Node, v: Visit, held: nat)
    requires Consistent(s, held) && v.demand >= 0.0
    ensures Consistent(Enter(s, v), held) && Enter(s, v).now == s.now
    ensures Enter(s, v).servers == s.servers && Enter(s, v).capacity == s.capacity
  {
    hide Consistent;
    if s.free > 0 { EnterService(s, v, held); }
    else if |s.queue| < s.capacity { EnterQueue(s, v, held); }
    else { EnterLoss(s, v, held); }
  }

  lemma NextNumber(n: nat)
    ensures Numbers(n + 1) == Numbers(n) + multiset{n}
  {
  }

  lemma {:induction false} EnterAllKeeps(s: Node, vs: seq<Visit>, held: nat)
    requires Consistent(s, held) && forall i :: 0 <= i < |vs| ==> vs[i].demand >= 0.0
    ensures Consistent(EnterAll(s, vs), held)
    ensures EnterAll(s, vs).servers == s.servers && EnterAll(s, vs).capacity == s.capacity
    decreases |vs|
  {
    hide Consistent, Enter;
    if vs != [] {
      EnterKeeps(s, vs[0], held);
      EnterAllKeeps(Enter(s, vs[0]), vs[1..], held);
    }
  }

  lemma {:induction false} EnterAllNow(s: Node, vs: seq<Visit>)
    ensures EnterAll(s, vs).now == s.now && EnterAll(s, vs).departed == s.departed
    decreases |vs|
  {
    if vs != [] { EnterAllNow(Enter(s, vs[0]), vs[1..]); }
  }

  lemma MoveAcross(n: nat, q: multiset<nat>, p: multiset<nat>, l: multiset<nat>, g: multiset<nat>)
    ensures (multiset{n} + q) + p + l + g == q + (p + multiset{n}) + l + g == q + p + l + (g + multiset{n})
    ensures q + (multiset{n} + p) + l + g == q + p + l + (g + multiset{n})
  {
  }

  lemma ReleaseKeeps(s: Node)
    requires Consistent(s, 1)
    ensures Consistent(ReleaseResource(s), 0)
    ensures ReleaseResource(s).servers == s.servers && ReleaseResource(s).capacity == s.capacity
  {
    if s.queue != [] {
      ServiceKeeps(s.(queue := s.queue[1..]), s.queue[0]);
      hide Pended, InTime, InService, Gone, Numbers;
      MoveAcross(s.queue[0].id, Queued(s.queue[1..]), InService(s.pending), multiset(s.lost), Gone(s.departed));
    }
  }

  lemma GoneKeeps(s: Node)
    requires Consistent(s, 0) && s.pending != []
    ensures Consistent(Forwarding(s), 1)
  {
    var d := Departure(s.pending[0].id, s.now);
    assert (s.departed + [d])[..|s.departed|] == s.departed;
    MoveAcross(d.id, Queued(s.queue), InService(s.pending[1..]), multiset(s.lost), Gone(s.departed));
    hide Queued, Numbers;
  }

  lemma DoKeeps(s: Node, step: NodeStep)
    requires Consistent(s, 0) && Possible(s, step)
    ensures Consistent(Do(s, step), 0)
    ensures Do(s, step).servers == s.servers && Do(s, step).capacity == s.capacity
  {
    match step
    case Passes(t) =>
      hide Queued, InService, Gone;
    case Enters(v) =>
      EnterKeeps(s, v, 0);
    case Finishes(vs) =>
      GoneKeeps(s);
      hide Consistent, EnterAll, ReleaseResource;
      EnterAllKeeps(Forwarding(s), vs, 1);
      ReleaseKeeps(EnterAll(Forwarding(s), vs));
  }

  /** Conservation and no idling over every run, immediate feedback included. */
  lemma {:induction false} RunKeeps(s: Node, steps: seq<NodeStep>)
    requires Consistent(s, 0) && Run(s, steps).Some?
    ensures var t := Run(s, steps).value;
      Consistent(t, 0) && t.servers == s.servers && t.capacity == s.capacity
    decreases |steps|
  {
    hide Consistent, Possible, Do;
    if steps != [] {
      DoKeeps(s, steps[0]);
      RunKeeps(Do(s, steps[0]), steps[1..]);
    }
  }

  lemma {:induction false} Sizes(s: Node)
    requires Consistent(s, 0)
    ensures s.arrivals == s.losses + |s.queue| + |s.pending| + |s.departed|
  {
    QueuedSize(s.queue);
    InServiceSize(s.pending);
    GoneSize(s.departed);
    NumbersSize(s.arrivals);
    hide Queued, InService, Gone, Numbers;
    assert |Queued(s.queue) + InService(s.pending) + multiset(s.lost) + Gone(s.departed)|
        == |Queued(s.queue)| + |InService(s.pending)| + |multiset(s.lost)| + |Gone(s.departed)|;
  }

  lemma {:induction false} QueuedSize(q: seq<Job>)
    ensures |Queued(q)| == |q|
  {
    if q != [] { QueuedSize(q[1..]); }
  }

  lemma {:induction false} InServiceSize(p: seq<Ending>)
    ensures |InService(p)| == |p|
  {
    if p != [] { InServiceSize(p[1..]); }
  }

  lemma {:induction false} GoneSize(d: seq<Departure>)
    ensures |Gone(d)| == |d|
  {
    if d != [] { GoneSize(d[..|d| - 1]); }
  }

  lemma {:induction false} NumbersSize(n: nat)
    ensures |Numbers(n)| == n
  {
    if n > 0 { NumbersSize(n - 1); }
  }

  lemma InitialConsistent(servers: nat, d: Queues.Discipline, capacity: nat)
    ensures Consistent(Initial(servers, d, capacity), 0)
  {
  }

  /** In every reachable state: arrivals = losses + queued + in service + departed, claimed servers =
      customers in service, and nobody waits while a server is free. */
  lemma EveryVisitIsCounted(servers: nat, d: Queues.Discipline, capacity: nat, steps: seq<NodeStep>)
    requires Run(Initial(servers, d, capacity), steps).Some?
    ensures var s := Run(Initial(servers, d, capacity), steps).value;
      && s.arrivals == s.losses + |s.queue| + |s.pending| + |s.departed|
      && servers - s.free == |s.pending|
      && (s.queue != [] ==> s.free == 0)
      && |s.queue| <= capacity
      && Accounted(s)
      && (forall e :: e in s.pending ==> s.now <= e.time)
  {
    hide Run, Numbers;
    InitialConsistent(servers, d, capacity);
    RunKeeps(Initial(servers, d, capacity), steps);
    Sizes(Run(Initial(servers, d, capacity), steps).value);
  }

  /** A customer is lost exactly when every server is taken and the queue is full. */
  lemma LossOnlyAtFullCapacity(s: Node, v: Visit, held: nat)
    requires Consistent(s, held)
    ensures Enter(s, v).losses > s.losses <==> |s.pending| + held == s.servers && |s.queue| == s.capacity
  {
  }

  /** A customer that comes straight back finds its own server still taken: it is lost, although that
      server is released at once, exactly when the queue was full. */
  lemma ReturningCustomerLost(s: Node, v: Visit)
    requires Consistent(s, 0) && Possible(s, Finishes([v]))
    ensures Do(s, Finishes([v])).losses > s.losses <==> |s.pending| == s.servers && |s.queue| == s.capacity
  {
    GoneKeeps(s);
    var gone := Forwarding(s);
    assert EnterAll(gone, [v]) == EnterAll(Enter(gone, v), [v][1..]);
    assert [v][1..] == [];
    hide Consistent;
    LossOnlyAtFullCapacity(gone, v, 1);
  }

  /** A run in which that happens: the one server is released to nobody, and the customer who came straight
      back is lost. */
  lemma LostBeforeItsServerIsReleased(d: Queues.Discipline, v: Visit)
    requires v.demand >= 0.0
    ensures var steps := [Enters(v), Passes(v.demand), Finishes([v])];
      var end := Run(Initial(1, d, 0), steps);
      end.Some? && end.value.losses == 1 && end.value.free == 1 && end.value.queue == [] && end.value.pending == []
  {
    hide Arranged;
    var s0 := Initial(1, d, 0);
    var s1 := Enter(s0, v);
    var s2 := s1.(now := v.demand);
    var e := Ending(0, v.demand);
    assert s1.pending == [e] by { assert Pended([], e) == [e]; }
    var gone := Forwarding(s2);
    assert gone.pending == [];
    assert EnterAll(gone, [v]) == EnterAll(Enter(gone, v), [v][1..]) == Enter(gone, v);
    assert Forward(s2, [v]) == Enter(gone, v).(free := 1);
    var steps := [Enters(v), Passes(v.demand), Finishes([v])];
    assert steps[1..] == [Passes(v.demand), Finishes([v])] && steps[1..][1..] == [Finishes([v])];
    assert Run(s2, [Finishes([v])]) == Run(Forward(s2, [v]), [Finishes([v])][1..]);
    assert Run(s1, steps[1..]) == Run(s2, steps[1..][1..]);
  }
}
