/** The queueing node in place: a pool of servers and a queue of customers. What it schedules is handed to
    the clock loop in order. */
module QueueingNodes {
  import opened PointerList
  import opened Simulation
  import opened NodeDiary
  import opened Resources
  import opened Queues
  import opened NodeParts
  import QN = Queueing
  import ServiceNodes

  function JobOf(c: Customer): QN.Job
    reads c
  {
    QN.Job(c.visit, c.rank, c.serviceDemand)
  }

  ghost function Jobs(cs: seq<Customer>): (js: seq<QN.Job>)
    reads cs
    ensures |js| == |cs|
  {
    if cs == [] then [] else [JobOf(cs[0])] + Jobs(cs[1..])
  }

  lemma {:induction false} JobsAt(cs: seq<Customer>)
    ensures forall i :: 0 <= i < |cs| ==> Jobs(cs)[i] == JobOf(cs[i])
  {
    hide JobOf;
    if cs != [] { JobsAt(cs[1..]); }
  }

  lemma {:induction false} JobsConcatenate(a: seq<Customer>, b: seq<Customer>)
    ensures Jobs(a + b) == Jobs(a) + Jobs(b)
  {
    hide JobOf;
    if a == [] {
      assert a + b == b;
    } else {
      assert (a + b)[1..] == a[1..] + b;
      JobsConcatenate(a[1..], b);
    }
  }

  lemma JobsInserted(cs: seq<Customer>, k: nat, c: Customer)
    requires k <= |cs|
    ensures Jobs(cs[..k] + [c] + cs[k..]) == Jobs(cs)[..k] + [JobOf(c)] + Jobs(cs)[k..]
  {
    JobsOne(c);
    hide Jobs, JobOf;
    JobsConcatenate(cs[..k], cs[k..]);
    assert cs == cs[..k] + cs[k..];
    JobsConcatenate(cs[..k] + [c], cs[k..]);
    JobsConcatenate(cs[..k], [c]);
  }

  lemma JobsOne(c: Customer)
    ensures Jobs([c]) == [JobOf(c)]
  {
    assert [c][1..] == [];
  }

  lemma ByRankAt(cs: seq<Customer>, c: Customer) returns (k: nat)
    ensures k <= |cs| && Arranged(ByRank, cs, c) == cs[..k] + [c] + cs[k..]
    ensures QN.Arranged(ByRank, Jobs(cs), JobOf(c)) == Jobs(cs)[..k] + [JobOf(c)] + Jobs(cs)[k..]
  {
    hide Jobs;
    JobsAt(cs);
    var f := (x: Customer, y: Customer) => SmallerThan(x, y);
    k := InsertionPoint(f, cs, c);
    assert forall i :: 0 <= i < k ==> f(cs[i], c);
    assert k < |cs| ==> !f(cs[k], c);
    PointOfInsertion((x: QN.Job, y: QN.Job) => QN.SmallerThan(x, y), Jobs(cs), JobOf(c), k);
  }

  /** The queue's disciplines are the model's. */
  lemma JobsArranged(d: Discipline, cs: seq<Customer>, c: Customer)
    ensures Jobs(Arranged(d, cs, c)) == QN.Arranged(d, Jobs(cs), JobOf(c))
  {
    hide Jobs, JobOf;
    JobsAt(cs);
    match d
    case FIFO =>
      JobsInserted(cs, |cs|, c);
      assert cs[..|cs|] + [c] + cs[|cs|..] == cs + [c];
      assert Jobs(cs)[..|cs|] + [JobOf(c)] + Jobs(cs)[|cs|..] == Jobs(cs) + [JobOf(c)];
    case LIFO =>
      JobsInserted(cs, 0, c);
      assert cs[..0] + [c] + cs[0..] == [c] + cs;
      assert Jobs(cs)[..0] + [JobOf(c)] + Jobs(cs)[0..] == [JobOf(c)] + Jobs(cs);
    case ByRank =>
      var k := ByRankAt(cs, c);
      JobsInserted(cs, k, c);
  }

  lemma EnterIs(s: QN.Node, v: QN.Visit)
    ensures QN.Enter(s, v) == QN.Accept(s.(arrivals := s.arrivals + 1), QN.Job(s.arrivals, v.rank, v.demand))
    ensures QN.Enter(s, v).arrivals == s.arrivals + 1
  {
  }

  lemma ForwardCounts(s: QN.Node)
    requires s.pending != []
    ensures QN.Forward(s, []) == QN.ReleaseResource(QN.Forwarding(s))
    ensures QN.Forward(s, []).arrivals == s.arrivals && QN.Forward(s, []).losses == s.losses
  {
  }

  /** What a customer brings. */
  function VisitOf(c: Customer): QN.Visit
    reads c`serviceDemand
  {
    QN.Visit(c.rank, c.serviceDemand)
  }

  /** The queue and the resource are ready, and the customers queued are the jobs of `line`. */
  ghost predicate Lined(queue: Queue, resources: Resource, now: real, line: seq<QN.Job>)
    reads queue, queue.Repr, queue.q, queue.q.contents
    reads queue.measures, queue.measures.popMeasure, queue.measures.queueingTime
    reads resources, resources.resourceCount
  {
    Ready(queue, resources, now) && line == Jobs(queue.q.contents)
  }

  lemma LinedPopulation(queue: Queue, resources: Resource, now: real, line: seq<QN.Job>)
    requires Lined(queue, resources, now, line)
    ensures queue.pop == |line|
  {
  }

  method ClaimLined(queue: Queue, resources: Resource, now: real, ghost line: seq<QN.Job>)
    requires Lined(queue, resources, now, line) && resources.ResourceIsAvailable()
    modifies resources, resources.resourceCount
    ensures Lined(queue, resources, now, line) && resources.resources == old(resources.resources) - 1
    ensures queue.q.contents == old(queue.q.contents)
  {
    hide Ready;
    NodeParts.ClaimServer(queue, resources, now);
  }

  method ReleaseLined(queue: Queue, resources: Resource, now: real, ghost line: seq<QN.Job>)
    requires Lined(queue, resources, now, line) && resources.resources < resources.nresources
    modifies resources, resources.resourceCount
    ensures Lined(queue, resources, now, line) && resources.resources == old(resources.resources) + 1
    ensures queue.q.contents == old(queue.q.contents)
  {
    hide Ready;
    NodeParts.ReleaseServer(queue, resources, now);
  }

  method DequeueLined(queue: Queue, resources: Resource, now: real, ghost line: seq<QN.Job>) returns (c: Customer)
    requires Lined(queue, resources, now, line) && line != []
    modifies queue.Repr
    ensures Lined(queue, resources, now, line[1..]) && queue.Repr == old(queue.Repr)
    ensures resources.resources == old(resources.resources)
    ensures JobOf(c) == line[0] && c !in queue.Repr && c !in queue.q.contents
  {
    hide ServerReady;
    c := queue.Dequeue(now);
  }

  class QueueingNode {
    const id: nat
    const queue: Queue
    const resources: Resource
    var lastEndServiceEvent: Event<Token>
    var arrivals: nat
    var losses: nat
    /** The queue's contents in the model. */
    ghost var line: seq<QN.Job>

    /** The fields say what the model's node `s` says, apart from its counts. */
    ghost predicate Stands(s: QN.Node)
      reads this`line, resources, resources.resourceCount, queue, queue.Repr, queue.q, queue.q.contents
      reads queue.measures, queue.measures.popMeasure, queue.measures.queueingTime
    {
      && this !in queue.Repr && Lined(queue, resources, s.now, line)
      && s.free == resources.resources && s.servers == resources.nresources
      && s.queue == line && s.capacity == queue.capacity && s.discipline == queue.discipline
    }

    ghost predicate Valid(s: QN.Node)
      reads this, resources, resources.resourceCount, queue, queue.Repr, queue.q, queue.q.contents
      reads queue.measures, queue.measures.popMeasure, queue.measures.queueingTime
    {
      Stands(s) && s.arrivals == arrivals && s.losses == losses
    }

    constructor (id: nat, servers: nat, discipline: Discipline, capacity: nat)
      ensures Valid(QN.Initial(servers, discipline, capacity)) && this.id == id && fresh(queue) && fresh(queue.Repr)
      ensures fresh(resources) && fresh(resources.resourceCount)
    {
      this.id := id;
      queue := new Queue(discipline, capacity);
      resources := new Resource(servers);
      lastEndServiceEvent := Event(0, 0.0, Elsewhere(0));
      arrivals, losses, line := 0, 0, [];
    }

    /** `created` is the number of events there have been. */
    method InvokeService(c: Customer, now: real, created: nat) returns (schedule: Command<Token>)
      modifies this`lastEndServiceEvent
      ensures lastEndServiceEvent == Event(created, now + c.serviceDemand, EndService(id, c.visit))
      ensures schedule == Schedule(now + c.serviceDemand, EndService(id, c.visit))
    {
      lastEndServiceEvent := Event(created, now + c.serviceDemand, EndService(id, c.visit));
      schedule := Schedule(lastEndServiceEvent.time, lastEndServiceEvent.payload);
    }

    method EnqueueCustomer(c: Customer, now: real)
      requires Lined(queue, resources, now, line) && queue.CanAccept() && this !in queue.Repr
      requires c !in queue.Repr && c !in queue.q.contents
      modifies queue.Repr, c`queueInsertionTime, this`line
      ensures Lined(queue, resources, now, line) && fresh(queue.Repr - old(queue.Repr))
      ensures resources.resources == old(resources.resources)
      ensures line == QN.Arranged(queue.discipline, old(line), old(JobOf(c)))
    {
      hide ServerReady, Arranged, QN.Arranged;
      ghost var cs := queue.q.contents;
      line := QN.Arranged(queue.discipline, line, JobOf(c));
      queue.Enqueue(c, now);
      JobsArranged(queue.discipline, cs, c);
    }

    /** A free server is claimed for a customer. */
    method StartService(c: Customer, now: real, created: nat) returns (schedule: Command<Token>)
      requires this !in queue.Repr && Lined(queue, resources, now, line) && resources.ResourceIsAvailable()
      modifies this`lastEndServiceEvent, resources, resources.resourceCount
      ensures Lined(queue, resources, now, line) && resources.resources == old(resources.resources) - 1
      ensures schedule == Schedule(now + c.serviceDemand, EndService(id, c.visit))
    {
      hide Lined;
      ClaimLined(queue, resources, now, line);
      schedule := InvokeService(c, now, created);
    }

    /** accept: a free server is claimed; otherwise the customer queues, or is lost if the queue is full. */
    method Accept(ghost s: QN.Node, c: Customer, now: real, created: nat) returns (commands: seq<Command<Token>>)
      requires Stands(s) && s.losses == losses && s.now == now && c !in queue.Repr && c !in queue.q.contents
      modifies this`line, this`losses, this`lastEndServiceEvent
      modifies queue.Repr, c`queueInsertionTime, resources, resources.resourceCount
      ensures Stands(QN.Accept(s, old(JobOf(c)))) && QN.Accept(s, old(JobOf(c))).losses == losses
      ensures fresh(queue.Repr - old(queue.Repr))
      ensures commands == if s.free > 0 then [Schedule(now + c.serviceDemand, EndService(id, c.visit))] else []
    {
      LinedPopulation(queue, resources, now, line);
      hide Lined, QN.Arranged, QN.Pended;
      commands := [];
      if resources.ResourceIsAvailable() {
        var schedule := StartService(c, now, created);
        commands := [schedule];
      } else if queue.CanAccept() {
        EnqueueCustomer(c, now);
      } else {
        losses := losses + 1;
      }
    }

    /** The arrival is counted and the customer accepted. */
    method CountAndAccept(ghost s: QN.Node, c: Customer, now: real, created: nat)
      returns (commands: seq<Command<Token>>)
      requires Valid(s) && s.now == now && c.visit == arrivals && c !in queue.Repr && c !in queue.q.contents
      modifies this, queue.Repr, c`queueInsertionTime, resources, resources.resourceCount
      ensures Valid(QN.Enter(s, VisitOf(c))) && fresh(queue.Repr - old(queue.Repr))
      ensures commands == ServiceNodes.PoolEnterCommands(id, s, VisitOf(c))
    {
      EnterIs(s, VisitOf(c));
      hide Lined, QN.Accept, QN.Enter;
      arrivals := arrivals + 1;
      commands := Accept(s.(arrivals := s.arrivals + 1), c, now, created);
    }

    /** The demand is set on entry, and the visit numbered. */
    method StartVisit(ghost s: QN.Node, c: Customer, demand: real)
      requires Valid(s) && c !in queue.Repr && c !in queue.q.contents
      modifies c`serviceDemand, c`visit
      ensures Valid(s) && c.serviceDemand == demand && c.visit == arrivals
    {
      hide Ready, Jobs;
      c.serviceDemand, c.visit := demand, arrivals;
    }

    /** A customer enters a node that stands for `s`, with a demand sampled for it. */
    method Enter(ghost s: QN.Node, c: Customer, demand: real, now: real, created: nat)
      returns (commands: seq<Command<Token>>)
      requires Valid(s) && s.now == now && c !in queue.Repr && c !in queue.q.contents
      modifies this, queue.Repr, c, resources, resources.resourceCount
      ensures Valid(QN.Enter(s, QN.Visit(c.rank, demand))) && fresh(queue.Repr - old(queue.Repr))
      ensures commands == ServiceNodes.PoolEnterCommands(id, s, QN.Visit(c.rank, demand))
    {
      hide Lined, QN.Enter, ServiceNodes.PoolEnterCommands;
      StartVisit(s, c, demand);
      commands := CountAndAccept(s, c, now, created);
    }

    /** The next customer in the queue is served. */
    method ServeNext(now: real, created: nat) returns (schedule: Command<Token>)
      requires this !in queue.Repr && Lined(queue, resources, now, line) && line != []
      modifies this`lastEndServiceEvent, this`line, queue.Repr
      ensures this !in queue.Repr && Lined(queue, resources, now, line) && queue.Repr == old(queue.Repr)
      ensures line == old(line)[1..] && resources.resources == old(resources.resources)
      ensures schedule == Schedule(now + old(line)[0].demand, EndService(id, old(line)[0].id))
    {
      hide Lined;
      var c := DequeueLined(queue, resources, now, line);
      line := line[1..];
      schedule := InvokeService(c, now, created);
    }

    /** A server that is released goes to the next customer in the queue, if there is one. */
    method ReleaseResource(ghost s: QN.Node, now: real, created: nat) returns (commands: seq<Command<Token>>)
      requires Stands(s) && s.now == now && s.free < s.servers
      modifies this`line, this`lastEndServiceEvent, queue.Repr, resources, resources.resourceCount
      ensures Stands(QN.ReleaseResource(s)) && queue.Repr == old(queue.Repr)
      ensures commands == ServiceNodes.PoolReleaseCommands(id, s)
    {
      LinedPopulation(queue, resources, now, line);
      hide Lined, QN.Pended;
      commands := [];
      if !queue.IsEmpty() {
        var schedule := ServeNext(now, created);
        commands := [schedule];
      } else {
        ReleaseLined(queue, resources, now, line);
      }
    }

    /** The end-of-service event of the first customer due, when nobody comes straight back. Those who do
        enter before the server is released. */
    method Forward(ghost s: QN.Node, now: real, created: nat) returns (commands: seq<Command<Token>>)
      requires Valid(s) && s.now == now && s.pending != [] && s.free < s.servers
      modifies this`line, this`lastEndServiceEvent, queue.Repr, resources, resources.resourceCount
      ensures Valid(QN.Forward(s, [])) && queue.Repr == old(queue.Repr)
      ensures commands == ServiceNodes.PoolReleaseCommands(id, QN.Forwarding(s))
    {
      ForwardCounts(s);
      hide Lined, QN.ReleaseResource;
      commands := ReleaseResource(QN.Forwarding(s), now, created);
    }
  }
}
