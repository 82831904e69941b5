/** In which order the queueing node serves those who wait. The disciplines are told apart here by what
    they mean, not by where they insert. */
module ServiceOrder {
  import opened PointerList
  import opened Workload
  import opened Queueing
  import Queues

  /** Of two who wait, `x` is to be served before `y`: the first to have come, the last to have come, or the
      one of smaller rank, the first to have come of equal ones. */
  predicate Ahead(d: Queues.Discipline, x: Job, y: Job) {
    match d
    case FIFO => x.id < y.id
    case LIFO => x.id > y.id
    case ByRank => x.rank < y.rank || (x.rank == y.rank && x.id < y.id)
  }

  /** The queue is in this order, and its customers have come before the n-th. */
  ghost predicate Ordered(d: Queues.Discipline, q: seq<Job>, n: nat) {
    && (forall a, b :: 0 <= a < b < |q| ==> Ahead(d, q[a], q[b]))
    && (forall a :: 0 <= a < |q| ==> q[a].id < n)
  }

  lemma InOrderAt(d: Queues.Discipline, q: seq<Job>, k: nat, j: Job, n: nat)
    requires Ordered(d, q, n) && j.id == n && k <= |q|
    requires (forall i :: 0 <= i < k ==> Ahead(d, q[i], j)) && forall i :: k <= i < |q| ==> Ahead(d, j, q[i])
    ensures Ordered(d, q[..k] + [j] + q[k..], n + 1)
    ensures forall x :: x in q[..k] + [j] + q[k..] <==> x in q || x == j
  {
    hide Ahead;
    var r := q[..k] + [j] + q[k..];
    assert q == q[..k] + q[k..];
    forall a, b | 0 <= a < b < |r| ensures Ahead(d, r[a], r[b]) {
      assert r[a] == (if a < k then q[a] else if a == k then j else q[a - 1]);
      assert r[b] == (if b < k then q[b] else if b == k then j else q[b - 1]);
    }
  }

  lemma RankPoint(q: seq<Job>, j: Job, n: nat) returns (k: nat)
    requires Ordered(Queues.ByRank, q, n) && j.id == n
    ensures k <= |q| && Arranged(Queues.ByRank, q, j) == q[..k] + [j] + q[k..]
    ensures forall i :: 0 <= i < k ==> Ahead(Queues.ByRank, q[i], j)
    ensures forall i :: k <= i < |q| ==> Ahead(Queues.ByRank, j, q[i])
  {
    var before := (x: Job, y: Job) => SmallerThan(x, y);
    k := InsertedAt(before, q, j);
    assert forall i :: 0 <= i < k ==> before(q[i], j);
    assert k < |q| ==> !before(q[k], j);
    forall i | k <= i < |q| ensures Ahead(Queues.ByRank, j, q[i]) {
      assert i > k ==> Ahead(Queues.ByRank, q[k], q[i]);
    }
  }

  lemma JoinsInOrder(d: Queues.Discipline, q: seq<Job>, j: Job, n: nat)
    requires Ordered(d, q, n) && j.id == n
    ensures Ordered(d, Arranged(d, q, j), n + 1)
    ensures forall x :: x in Arranged(d, q, j) <==> x in q || x == j
  {
    match d
    case FIFO =>
      InOrderAt(d, q, |q|, j, n);
      assert q[..|q|] + [j] + q[|q|..] == q + [j];
    case LIFO =>
      InOrderAt(d, q, 0, j, n);
      assert q[..0] + [j] + q[0..] == [j] + q;
    case ByRank =>
      var k := RankPoint(q, j, n);
      InOrderAt(d, q, k, j, n);
  }

  ghost predicate OrderedNode(s: Node) {
    Ordered(s.discipline, s.queue, s.arrivals)
  }

  /** Those who wait in `s` still wait in `t`, and whoever else does came later. */
  ghost predicate Stays(s: Node, t: Node) {
    && (forall x :: x in s.queue ==> x in t.queue)
    && (forall x :: x in t.queue ==> x in s.queue || x.id >= s.arrivals)
    && s.arrivals <= t.arrivals
  }

  lemma EnterOrdered(s: Node, v: Visit)
    requires OrderedNode(s)
    ensures OrderedNode(Enter(s, v)) && Enter(s, v).discipline == s.discipline
    ensures Stays(s, Enter(s, v))
  {
    hide Arranged, Ahead, Pended;
    JoinsInOrder(s.discipline, s.queue, Job(s.arrivals, v.rank, v.demand), s.arrivals);
  }

  lemma {:induction false} EnterAllOrdered(s: Node, vs: seq<Visit>)
    requires OrderedNode(s)
    ensures OrderedNode(EnterAll(s, vs)) && EnterAll(s, vs).discipline == s.discipline
    ensures Stays(s, EnterAll(s, vs))
    decreases |vs|
  {
    hide OrderedNode, Enter;
    if vs != [] {
      EnterOrdered(s, vs[0]);
      EnterAllOrdered(Enter(s, vs[0]), vs[1..]);
    }
  }

  /** The server goes to nobody while somebody ahead still waits. */
  lemma ReleaseOrdered(s: Node)
    requires OrderedNode(s)
    ensures var t := ReleaseResource(s);
      && OrderedNode(t) && t.discipline == s.discipline && t.arrivals == s.arrivals
      && (forall x :: x in t.queue ==> x in s.queue)
      && (forall x, y :: x in s.queue && y in s.queue && Ahead(s.discipline, x, y) ==> y in t.queue)
  {
    hide Pended;
    var q := s.queue;
    forall x, y | x in q && y in q && Ahead(s.discipline, x, y) ensures y in ReleaseResource(s).queue {
      NotFirst(s.discipline, q, s.arrivals, x, y);
    }
  }

  lemma NotFirst(d: Queues.Discipline, q: seq<Job>, n: nat, x: Job, y: Job)
    requires Ordered(d, q, n) && x in q && y in q && Ahead(d, x, y)
    ensures q != [] && y in q[1..]
  {
    var a :| 0 <= a < |q| && q[a] == x;
    var b :| 0 <= b < |q| && q[b] == y;
    if b > 0 { assert q[1..][b - 1] == y; }
  }

  lemma ForwardingOrdered(s: Node)
    requires s.pending != [] && OrderedNode(s)
    ensures var t := Forwarding(s);
      OrderedNode(t) && t.queue == s.queue && t.discipline == s.discipline && t.arrivals == s.arrivals
  {
  }

  /** One step: the order is kept, nobody is overtaken by somebody behind, and nobody comes back to the queue. */
  ghost predicate InTurn(s: Node, t: Node) {
    && OrderedNode(t) && t.discipline == s.discipline && s.arrivals <= t.arrivals
    && (forall x :: x in t.queue ==> x in s.queue || x.id >= s.arrivals)
    && (forall x, y :: x in s.queue && y in s.queue && Ahead(s.discipline, x, y) ==> y in t.queue)
  }

  lemma DoInTurn(s: Node, step: NodeStep)
    requires OrderedNode(s) && Possible(s, step)
    ensures InTurn(s, Do(s, step))
  {
    hide OrderedNode, Enter, EnterAll, ReleaseResource, Ahead;
    match step
    case Passes(t) => PassOrdered(s, t);
    case Enters(v) => EnterOrdered(s, v);
    case Finishes(vs) =>
      ForwardingOrdered(s);
      EnterAllOrdered(Forwarding(s), vs);
      ReleaseOrdered(EnterAll(Forwarding(s), vs));
  }

  lemma PassOrdered(s: Node, t: real)
    ensures OrderedNode(s) ==> OrderedNode(s.(now := t))
  {
  }

  lemma {:induction false} RunOrdered(s: Node, steps: seq<NodeStep>)
    requires OrderedNode(s) && Run(s, steps).Some?
    ensures OrderedNode(Run(s, steps).value) && Run(s, steps).value.discipline == s.discipline
    ensures forall x :: x in Run(s, steps).value.queue ==> x in s.queue || x.id >= s.arrivals
    decreases |steps|
  {
    hide OrderedNode, Possible, Do, Ahead;
    if steps != [] {
      DoInTurn(s, steps[0]);
      RunOrdered(Do(s, steps[0]), steps[1..]);
    }
  }

  lemma {:induction false} ServedInTurn(s: Node, steps: seq<NodeStep>, x: Job, y: Job)
    requires OrderedNode(s) && Run(s, steps).Some?
    requires x in s.queue && y in s.queue && Ahead(s.discipline, x, y)
    ensures y !in Run(s, steps).value.queue ==> x !in Run(s, steps).value.queue
    decreases |steps|
  {
    hide Possible, Do, Ahead;
    if steps != [] {
      var t := Do(s, steps[0]);
      DoInTurn(s, steps[0]);
      if x in t.queue {
        ServedInTurn(t, steps[1..], x, y);
      } else {
        RunOrdered(t, steps[1..]);
      }
    }
  }

  /** In every state of every run, with any number of servers: the queue is in the order of the discipline, and
      of two who wait, the one behind does not start service before the one ahead. With LIFO, whoever joins
      the queue later is ahead; with FIFO, whoever joined it earlier. */
  lemma DisciplineKept(servers: nat, d: Queues.Discipline, capacity: nat, before: seq<NodeStep>,
                       after: seq<NodeStep>, x: Job, y: Job)
    requires Run(Initial(servers, d, capacity), before).Some?
    requires Run(Run(Initial(servers, d, capacity), before).value, after).Some?
    ensures var s := Run(Initial(servers, d, capacity), before).value;
      && (forall a, b :: 0 <= a < b < |s.queue| ==> Ahead(d, s.queue[a], s.queue[b]))
      && var t := Run(s, after).value;
         x in s.queue && y in s.queue && Ahead(d, x, y) && y !in t.queue ==> x !in t.queue
  {
    var s0 := Initial(servers, d, capacity);
    assert OrderedNode(s0);
    RunOrdered(s0, before);
    hide Run;
    var s := Run(s0, before).value;
    if x in s.queue && y in s.queue && Ahead(d, x, y) { ServedInTurn(s, after, x, y); }
  }
}
