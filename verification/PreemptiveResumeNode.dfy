/** The preemptive-resume node in place: its server, its queue, and the one outstanding end-of-service
    event with the customer it carries. */
module PreemptiveResumeNodes {
  import opened Simulation
  import opened NodeDiary
  import opened Resources
  import opened Queues
  import opened NodeParts
  import opened QueueingNodes
  import QN = Queueing
  import PR = PreemptiveResume
  import opened ServiceNodes

  /** A queued customer as this node's model sees it: ordering attributes play no part. */
  function Plain(js: seq<QN.Job>): (r: seq<PR.Job>)
    ensures |r| == |js|
  {
    if js == [] then [] else [PR.Job(js[0].id, js[0].demand)] + Plain(js[1..])
  }

  lemma PlainCons(j: QN.Job, js: seq<QN.Job>)
    ensures Plain([j] + js) == [PR.Job(j.id, j.demand)] + Plain(js)
  {
    assert ([j] + js)[1..] == js;
  }

  lemma PlainTail(js: seq<QN.Job>)
    ensures js != [] ==> Plain(js)[0] == PR.Job(js[0].id, js[0].demand) && Plain(js[1..]) == Plain(js)[1..]
  {
  }

  /** What an arrival and the end of a service tell the clock loop. */
  lemma AcceptTells(id: nat, s: PR.Node, demand: real, next: Event<Token>, created: nat)
    ensures var t, time := Resuming(PR.Accept(s, demand).0), s.now + demand;
      && AcceptCommands(id, Resuming(s), t, next)
         == (if s.inService.Some? then [Deschedule(next)] else []) + [Schedule(time, EndOfService(id))]
      && Awaited(id, t, next, created) == Event(created, time, EndOfService(id))
  {
    PR.AcceptIs(s, demand);
    hide PR.Accept;
  }

  lemma ForwardTells(id: nat, s: PR.Node, next: Event<Token>, created: nat)
    requires s.inService.Some?
    ensures var t := Resuming(PR.Forward(s).0);
      && (s.queue == [] ==> Restart(id, t) == [] && Awaited(id, t, next, created) == next)
      && (s.queue != [] ==>
            var time := s.now + s.queue[0].demand;
            && Restart(id, t) == [Schedule(time, EndOfService(id))]
            && Awaited(id, t, next, created) == Event(created, time, EndOfService(id)))
  {
    PR.ForwardIs(s);
    hide PR.Forward;
  }

  /** The end-of-service event of `e` carries this customer, who is not in the queue. */
  ghost predicate Serves(c: Customer?, event: Event<Token>, queue: Queue, e: PR.Ending)
    reads queue, queue.q, c
  {
    c != null && c !in queue.Repr && c !in queue.q.contents && e == PR.Ending(c.visit, event.time)
  }

  class PreemptiveResumeNode {
    const id: nat
    const queue: Queue
    const resources: Resource
    var lastEndServiceEvent: Event<Token>
    /** The customer that lastEndServiceEvent carries. */
    var lastCustomer: Customer?
    var arrivals: nat
    /** The queue's contents in the model. */
    ghost var line: seq<QN.Job>

    /** The fields say what the model's node `s` says, apart from its arrivals. */
    ghost predicate Stands(s: PR.Node)
      reads this`line, this`lastCustomer, this`lastEndServiceEvent, lastCustomer
      reads resources, resources.resourceCount, queue, queue.Repr, queue.q, queue.q.contents
      reads queue.measures, queue.measures.popMeasure, queue.measures.queueingTime
    {
      && this !in queue.Repr && resources.nresources == 1 && Lined(queue, resources, s.now, line)
      && s.queue == Plain(line)
      && resources.resources == (if s.inService.None? then 1 else 0)
      && (s.inService.Some? ==> Serves(lastCustomer, lastEndServiceEvent, queue, s.inService.value))
    }

    ghost predicate Valid(s: PR.Node)
      reads this, lastCustomer, resources, resources.resourceCount, queue, queue.Repr, queue.q, queue.q.contents
      reads queue.measures, queue.measures.popMeasure, queue.measures.queueingTime
    {
      Stands(s) && s.arrivals == arrivals
    }

    constructor (id: nat, capacity: nat)
      ensures Valid(PR.Initial()) && this.id == id && queue.capacity == capacity && fresh(queue) && fresh(queue.Repr)
      ensures fresh(resources) && fresh(resources.resourceCount) && lastCustomer == null
    {
      this.id := id;
      queue := new Queue(LIFO, capacity);
      resources := new Resource(1);
      lastEndServiceEvent, lastCustomer := Event(0, 0.0, Elsewhere(0)), null;
      arrivals, line := 0, [];
    }

    /** `created` is the number of events there have been. */
    method InvokeService(c: Customer, now: real, created: nat) returns (schedule: Command<Token>)
      modifies this`lastEndServiceEvent, this`lastCustomer
      ensures lastCustomer == c
      ensures lastEndServiceEvent == Event(created, now + c.serviceDemand, EndOfService(id))
      ensures schedule == Schedule(now + c.serviceDemand, EndOfService(id))
    {
      lastCustomer := c;
      lastEndServiceEvent := Event(created, now + c.serviceDemand, EndOfService(id));
      schedule := Schedule(lastEndServiceEvent.time, lastEndServiceEvent.payload);
    }

    function RemainingServiceTime(now: real): real
      reads this`lastEndServiceEvent
    {
      lastEndServiceEvent.time - now
    }

    method EnqueueAtHead(c: Customer, demand: real, now: real)
      requires Lined(queue, resources, now, line) && queue.CanAccept() && this !in queue.Repr
      requires c !in queue.Repr && c !in queue.q.contents
      modifies queue.Repr, c`queueInsertionTime, c`serviceDemand, this`line
      ensures Lined(queue, resources, now, line) && fresh(queue.Repr - old(queue.Repr))
      ensures resources.resources == old(resources.resources)
      ensures queue.q.contents == [c] + old(queue.q.contents)
      ensures line == [QN.Job(c.visit, c.rank, demand)] + old(line)
    {
      ghost var cs := queue.q.contents;
      c.serviceDemand := demand;
      line := [JobOf(c)] + line;
      hide ServerReady;
      queue.EnqueueAtHead(c, now);
      assert queue.q.contents[1..] == cs;
    }

    /** The customer that is being forwarded enters again before its server is released: accept gets as far as
        descheduling the event that is being invoked. */
    method EnterWhileForwarding(ghost s: PR.Node, c: Customer, demand: real) returns (commands: seq<Command<Token>>)
      requires Valid(s) && s.inService.Some? && c == lastCustomer
      modifies this`arrivals, c`serviceDemand, c`visit
      ensures commands == [Deschedule(lastEndServiceEvent)] && arrivals == old(arrivals) + 1
      ensures c.serviceDemand == demand && c.visit == old(arrivals)
    {
      assert !resources.ResourceIsAvailable();
      c.serviceDemand, c.visit := demand, arrivals;
      arrivals := arrivals + 1;
      commands := if resources.ResourceIsAvailable() then [] else [Deschedule(lastEndServiceEvent)];
    }

    /** The server is claimed, or the customer in service is preempted. */
    method ClaimOrPreempt(ghost s: PR.Node, c: Customer, now: real) returns (commands: seq<Command<Token>>)
      requires Stands(s) && s.now == now && c !in queue.Repr && c !in queue.q.contents
      requires s.inService.Some? ==> c != lastCustomer && queue.CanAccept()
      modifies queue.Repr, this`line, lastCustomer, resources, resources.resourceCount
      ensures this !in queue.Repr && Lined(queue, resources, now, line) && fresh(queue.Repr - old(queue.Repr))
      ensures resources.resources == 0 && c !in queue.Repr && c !in queue.q.contents
      ensures c.serviceDemand == old(c.serviceDemand) && c.visit == old(c.visit)
      ensures Plain(line) == (if s.inService.Some?
                              then [PR.Job(s.inService.value.id, PR.RemainingServiceTime(s))] else []) + s.queue
      ensures commands == if s.inService.Some? then [Deschedule(lastEndServiceEvent)] else []
    {
      hide Lined, Plain;
      commands := [];
      if resources.ResourceIsAvailable() {
        ClaimLined(queue, resources, now, line);
      } else {
        commands := [Deschedule(lastEndServiceEvent)];
        PlainCons(QN.Job(lastCustomer.visit, lastCustomer.rank, RemainingServiceTime(now)), line);
        EnqueueAtHead(lastCustomer, RemainingServiceTime(now), now);
      }
    }

    /** accept: the customer goes into service at once. */
    method Accept(ghost s: PR.Node, c: Customer, now: real, created: nat) returns (commands: seq<Command<Token>>)
      requires Stands(s) && s.now == now && c !in queue.Repr && c !in queue.q.contents
      requires s.inService.Some? ==> c != lastCustomer && queue.CanAccept()
      modifies this`lastEndServiceEvent, this`lastCustomer, this`line, queue.Repr, lastCustomer
      modifies resources, resources.resourceCount
      ensures this !in queue.Repr && Lined(queue, resources, now, line) && fresh(queue.Repr - old(queue.Repr))
      ensures resources.resources == 0 && lastCustomer == c
      ensures Serves(lastCustomer, lastEndServiceEvent, queue, PR.Ending(old(c.visit), now + old(c.serviceDemand)))
      ensures Plain(line) == (if s.inService.Some?
                              then [PR.Job(s.inService.value.id, PR.RemainingServiceTime(s))] else []) + s.queue
      ensures commands == (if s.inService.Some? then [Deschedule(old(lastEndServiceEvent))] else [])
                          + [Schedule(lastEndServiceEvent.time, EndOfService(id))]
      ensures lastEndServiceEvent == Event(created, now + old(c.serviceDemand), EndOfService(id))
    {
      hide Lined, Plain;
      commands := ClaimOrPreempt(s, c, now);
      var schedule := InvokeService(c, now, created);
      commands := commands + [schedule];
    }

    /** The demand is set on entry, and the visit numbered. */
    method StartVisit(ghost s: PR.Node, c: Customer, demand: real)
      requires Valid(s) && c !in queue.Repr && c !in queue.q.contents && (s.inService.Some? ==> c != lastCustomer)
      modifies c`serviceDemand, c`visit
      ensures Valid(s) && c.serviceDemand == demand && c.visit == arrivals
    {
      hide Ready, Jobs, Plain;
      c.serviceDemand, c.visit := demand, arrivals;
    }

    /** The arrival is counted and the customer accepted. */
    method CountAndAccept(ghost s: PR.Node, c: Customer, now: real, created: nat)
      returns (commands: seq<Command<Token>>)
      requires Valid(s) && s.now == now && c.visit == arrivals && c !in queue.Repr && c !in queue.q.contents
      requires s.inService.Some? ==> c != lastCustomer && queue.CanAccept()
      modifies this, queue.Repr, lastCustomer, resources, resources.resourceCount
      ensures Valid(PR.Accept(s, old(c.serviceDemand)).0) && fresh(queue.Repr - old(queue.Repr))
      ensures commands
           == AcceptCommands(id, Resuming(s), Resuming(PR.Accept(s, old(c.serviceDemand)).0), old(lastEndServiceEvent))
      ensures lastEndServiceEvent
           == Awaited(id, Resuming(PR.Accept(s, old(c.serviceDemand)).0), old(lastEndServiceEvent), created)
    {
      hide Lined, Plain, PR.Accept, PR.Inside, Serves, AcceptCommands, Awaited;
      PR.AcceptIs(s, c.serviceDemand);
      AcceptTells(id, s, c.serviceDemand, lastEndServiceEvent, created);
      arrivals := arrivals + 1;
      commands := Accept(s, c, now, created);
    }

    /** A customer enters a node that stands for `s`, with a demand sampled for it. */
    method Enter(ghost s: PR.Node, c: Customer, demand: real, now: real, created: nat)
      returns (commands: seq<Command<Token>>)
      requires Valid(s) && s.now == now && c !in queue.Repr && c !in queue.q.contents
      requires s.inService.Some? ==> c != lastCustomer && queue.CanAccept()
      modifies this, queue.Repr, c, lastCustomer, resources, resources.resourceCount
      ensures Valid(PR.Accept(s, demand).0) && fresh(queue.Repr - old(queue.Repr))
      ensures commands == AcceptCommands(id, Resuming(s), Resuming(PR.Accept(s, demand).0), old(lastEndServiceEvent))
      ensures lastEndServiceEvent
           == Awaited(id, Resuming(PR.Accept(s, demand).0), old(lastEndServiceEvent), created)
    {
      hide Lined, Plain, PR.Accept, Serves, AcceptCommands, Awaited;
      StartVisit(s, c, demand);
      commands := CountAndAccept(s, c, now, created);
    }

    /** The customer at the head of the queue resumes. */
    method Resume(now: real, created: nat) returns (schedule: Command<Token>)
      requires this !in queue.Repr && Lined(queue, resources, now, line) && line != []
      modifies this`lastEndServiceEvent, this`lastCustomer, this`line, queue.Repr
      ensures this !in queue.Repr && Lined(queue, resources, now, line) && queue.Repr == old(queue.Repr)
      ensures line == old(line)[1..] && resources.resources == old(resources.resources)
      ensures Serves(lastCustomer, lastEndServiceEvent, queue,
                     PR.Ending(old(line)[0].id, now + old(line)[0].demand))
      ensures lastEndServiceEvent == Event(created, now + old(line)[0].demand, EndOfService(id))
      ensures schedule == Schedule(lastEndServiceEvent.time, EndOfService(id))
    {
      hide Lined;
      var c := DequeueLined(queue, resources, now, line);
      line := line[1..];
      schedule := InvokeService(c, now, created);
    }

    /** The server is released, or goes to the customer at the head of the queue. */
    method ReleaseResource(ghost s: PR.Node, now: real, created: nat) returns (commands: seq<Command<Token>>)
      requires this !in queue.Repr && Lined(queue, resources, now, line) && resources.resources == 0
      requires resources.nresources == 1 && s.queue == Plain(line)
      modifies this`lastEndServiceEvent, this`lastCustomer, this`line, queue.Repr, resources, resources.resourceCount
      ensures this !in queue.Repr && Lined(queue, resources, now, line) && queue.Repr == old(queue.Repr)
      ensures resources.resources == if s.queue == [] then 1 else 0
      ensures Plain(line) == if s.queue == [] then [] else s.queue[1..]
      ensures s.queue != [] ==> Serves(lastCustomer, lastEndServiceEvent, queue,
                                       PR.Ending(s.queue[0].id, now + s.queue[0].demand))
      ensures commands == if s.queue == [] then [] else [Schedule(lastEndServiceEvent.time, EndOfService(id))]
      ensures lastEndServiceEvent
           == if s.queue == [] then old(lastEndServiceEvent)
              else Event(created, now + s.queue[0].demand, EndOfService(id))
    {
      LinedPopulation(queue, resources, now, line);
      PlainTail(line);
      hide Lined, Serves, Plain;
      commands := [];
      if !queue.IsEmpty() {
        var schedule := Resume(now, created);
        commands := [schedule];
      } else {
        ReleaseLined(queue, resources, now, line);
      }
    }

    /** The end-of-service event: the customer is forwarded and its server released. */
    method Forward(ghost s: PR.Node, now: real, created: nat)
      returns (departed: Customer, commands: seq<Command<Token>>)
      requires Valid(s) && s.now == now && s.inService.Some?
      modifies this, queue.Repr, resources, resources.resourceCount
      ensures Valid(PR.Forward(s).0) && queue.Repr == old(queue.Repr)
      ensures departed == old(lastCustomer) && departed.visit == s.inService.value.id
      ensures commands == Restart(id, Resuming(PR.Forward(s).0))
      ensures lastEndServiceEvent == Awaited(id, Resuming(PR.Forward(s).0), old(lastEndServiceEvent), created)
    {
      hide Lined, Plain, PR.Forward, PR.Inside, Restart, Awaited;
      PR.ForwardIs(s);
      ForwardTells(id, s, lastEndServiceEvent, created);
      departed := lastCustomer;
      commands := ReleaseResource(s, now, created);
    }
  }
}
