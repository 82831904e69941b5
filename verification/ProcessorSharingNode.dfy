/** The processor-sharing node in place: its fields, its queue, its resource. What it schedules and
    deschedules is handed to the clock loop in order. */
module ProcessorSharingNodes {
  import opened Reals
  import opened PointerList
  import opened Workload
  import opened Simulation
  import opened NodeDiary
  import opened Resources
  import opened Queues
  import opened NodeParts
  import PS = ProcessorSharing
  import opened ServiceNodes

  /** A queue entry is a customer ordered by its finish time. */
  function Entries(cs: seq<Customer>): (es: seq<PS.Entry>)
    ensures |es| == |cs| && forall i :: 0 <= i < |cs| ==> es[i] == PS.Entry(cs[i].id, cs[i].rank)
  {
    seq(|cs|, i requires 0 <= i < |cs| => PS.Entry(cs[i].id, cs[i].rank))
  }

  /** The pointer list's ordered insertion is the model's. */
  lemma EntriesArranged(cs: seq<Customer>, c: Customer)
    ensures Entries(Arranged(ByRank, cs, c)) == PS.Queued(Entries(cs), PS.Entry(c.id, c.rank))
  {
    var e := PS.Entry(c.id, c.rank);
    var k := PS.QueuedAt(Entries(cs), e);
    var before := (x: Customer, y: Customer) => SmallerThan(x, y);
    hide PS.Queued;
    PointOfInsertion(before, cs, c, k);
    assert Arranged(ByRank, cs, c) == cs[..k] + [c] + cs[k..];
    assert Entries(cs[..k] + [c] + cs[k..]) == Entries(cs)[..k] + [e] + Entries(cs)[k..];
  }

  /** How long the first in line still needs at the present rate. */
  function TimeToNext(es: seq<PS.Entry>, vtime: real): real
    requires es != []
  {
    Times(es[0].finish - vtime, |es| as real)
  }

  /** The virtual clock an arrival finds; it stands still while the node is empty. */
  function VirtualTime(s: PS.Node): real {
    if s.claimed then PS.VirtualNow(s) else s.vtime
  }

  lemma AcceptedIs(s: PS.Node, demand: real, vtime: real, queue: seq<PS.Entry>, time: real)
    requires |s.queue| < s.capacity && vtime == VirtualTime(s)
    requires queue == PS.Queued(s.queue, PS.Entry(s.arrivals, vtime + demand)) && queue != []
    requires time == s.now + TimeToNext(queue, vtime)
    ensures PS.Accept(s, demand)
         == PS.Node(s.now, vtime, s.now, queue, true, Some(time), s.capacity, s.arrivals + 1, s.losses)
  {
    hide PS.VirtualNow, PS.Queued, Times;
  }

  lemma InvokedIs(s: PS.Node)
    requires s.queue != []
    ensures var t, v := PS.Invoke(s), s.vtime + PS.Share(s.now - s.lastSchedule, |s.queue|);
      && t.now == s.now && t.capacity == s.capacity && t.arrivals == s.arrivals && t.losses == s.losses
      && t.vtime == v && t.queue == s.queue[1..]
      && (|s.queue| == 1 ==> !t.claimed && t.pending == None && t.lastSchedule == s.lastSchedule)
      && (|s.queue| > 1 ==>
            t.claimed == s.claimed && t.lastSchedule == s.now && t.pending == Some(s.now + TimeToNext(s.queue[1..], v)))
  {
  }

  lemma InvokeCounts(s: PS.Node)
    requires s.queue != []
    ensures var t := PS.Invoke(s); t.now == s.now && t.arrivals == s.arrivals && t.losses == s.losses
  {
  }

  /** What an arrival and a completion tell the clock loop. */
  lemma AcceptTells(id: nat, s: PS.Node, demand: real, next: Event<Token>, time: real, created: nat)
    requires |s.queue| < s.capacity && (s.pending.Some? <==> s.claimed)
    requires PS.Accept(s, demand).pending == Some(time)
    ensures var t := Sharing(PS.Accept(s, demand));
      && AcceptCommands(id, Sharing(s), t, next)
         == (if s.claimed then [Deschedule(next)] else []) + [Schedule(time, EndOfService(id))]
      && Awaited(id, t, next, created) == Event(created, time, EndOfService(id))
  {
    hide PS.Accept;
  }

  lemma InvokeTells(id: nat, s: PS.Node, next: Event<Token>, created: nat)
    requires s.queue != []
    ensures var t := PS.Invoke(s);
      && (t.pending.None? <==> |s.queue| == 1)
      && Restart(id, Sharing(t))
         == (if t.pending.Some? then [Schedule(t.pending.value, EndOfService(id))] else [])
      && Awaited(id, Sharing(t), next, created)
         == if t.pending.Some? then Event(created, t.pending.value, EndOfService(id)) else next
  {
    InvokedIs(s);
    hide PS.Invoke, PS.Share, TimeToNext;
  }

  lemma AcceptCounts(s: PS.Node, demand: real)
    ensures PS.Accept(s, demand).arrivals == s.arrivals + 1 && PS.Accept(s, demand).now == s.now
    ensures |s.queue| < s.capacity ==> PS.Accept(s, demand).losses == s.losses
    ensures |s.queue| >= s.capacity ==>
      PS.Accept(s, demand) == s.(arrivals := s.arrivals + 1, losses := s.losses + 1)
  {
  }

  lemma EntriesPopulation(queue: Queue, resources: Resource, now: real)
    requires Ready(queue, resources, now)
    ensures queue.pop == |queue.q.contents| == |Entries(queue.q.contents)|
  {
  }

  class ProcessorSharingNode {
    const id: nat
    const queue: Queue
    const resources: Resource
    var nextEndServiceEvent: Event<Token>
    var vtime: real
    var timeOfLastSchedule: real
    var arrivals: nat
    var losses: nat

    /** The fields say what the model's node `s` says. */
    ghost predicate Stands(s: PS.Node)
      reads this`vtime, this`timeOfLastSchedule, this`nextEndServiceEvent, resources, queue.q
    {
      && s.claimed == (resources.resources == 0) == (s.queue != [])
      && s.queue == Entries(queue.q.contents)
      && s.pending == (if s.queue == [] then None else Some(nextEndServiceEvent.time))
      && s.vtime == vtime && s.lastSchedule == timeOfLastSchedule && s.capacity == queue.capacity
    }

    ghost predicate Valid(s: PS.Node)
      reads this, resources, resources.resourceCount, queue, queue.Repr, queue.q, queue.q.contents
      reads queue.measures, queue.measures.popMeasure, queue.measures.queueingTime
    {
      && this !in queue.Repr && queue.discipline == ByRank && resources.nresources == 1
      && Ready(queue, resources, s.now)
      && Stands(s) && s.arrivals == arrivals && s.losses == losses
    }

    constructor (id: nat, capacity: nat)
      ensures Valid(PS.Initial(capacity)) && this.id == id && fresh(queue) && fresh(queue.Repr)
      ensures fresh(resources) && fresh(resources.resourceCount)
      ensures nextEndServiceEvent == Event(0, 0.0, Elsewhere(0)) && queue.q.contents == []
    {
      this.id := id;
      queue := new Queue(ByRank, capacity);
      resources := new Resource(1);
      nextEndServiceEvent := Event(0, 0.0, Elsewhere(0));
      vtime, timeOfLastSchedule, arrivals, losses := 0.0, 0.0, 0, 0;
    }

    /** `created` is the number of events there have been. */
    method ServiceNextCustomer(now: real, created: nat) returns (schedule: Command<Token>)
      requires Ready(queue, resources, now) && Entries(queue.q.contents) != []
      modifies this`nextEndServiceEvent, this`timeOfLastSchedule
      ensures timeOfLastSchedule == now
      ensures nextEndServiceEvent
           == Event(created, now + TimeToNext(Entries(queue.q.contents), vtime), EndOfService(id))
      ensures schedule == Schedule(nextEndServiceEvent.time, EndOfService(id))
    {
      var e := queue.Head();
      var completionTime := Times(e.rank - vtime, queue.pop as real);
      timeOfLastSchedule := now;
      nextEndServiceEvent := Event(created, now + completionTime, EndOfService(id));
      schedule := Schedule(nextEndServiceEvent.time, EndOfService(id));
    }

    /** An arrival claims the server if it is idle; otherwise the current end-service event is descheduled. */
    method ClaimOrDeschedule(now: real) returns (claimed: bool, commands: seq<Command<Token>>)
      requires Ready(queue, resources, now) && resources.nresources == 1
      modifies resources, resources.resourceCount
      ensures Ready(queue, resources, now) && resources.resources == 0 && queue.q.contents == old(queue.q.contents)
      ensures claimed == (old(resources.resources) > 0) && queue.pop == old(queue.pop)
      ensures commands == if claimed then [] else [Deschedule(nextEndServiceEvent)]
    {
      claimed := resources.ResourceIsAvailable();
      if claimed {
        commands := [];
        ClaimServer(queue, resources, now);
      } else {
        commands := [Deschedule(nextEndServiceEvent)];
      }
    }

    /** Busy, it also brings the virtual clock up to date. */
    method ClaimOrCancel(ghost s: PS.Node, now: real) returns (commands: seq<Command<Token>>)
      requires Ready(queue, resources, now) && Stands(s) && s.now == now && resources.nresources == 1
      modifies this`vtime, resources, resources.resourceCount
      ensures Ready(queue, resources, now) && resources.resources == 0
      ensures vtime == VirtualTime(s) && queue.q.contents == old(queue.q.contents)
      ensures commands == if s.claimed then [Deschedule(nextEndServiceEvent)] else []
    {
      EntriesPopulation(queue, resources, now);
      hide Ready, Entries;
      var claimed;
      claimed, commands := ClaimOrDeschedule(now);
      if !claimed {
        vtime := vtime + PS.Share(now - timeOfLastSchedule, queue.pop);
      }
    }

    /** Wraps customer number n in an entry. */
    method EnqueueEntry(n: nat, finish: real, now: real)
      requires Ready(queue, resources, now) && queue.CanAccept() && queue.discipline == ByRank
      modifies queue.Repr
      ensures Ready(queue, resources, now) && fresh(queue.Repr - old(queue.Repr))
      ensures resources.resources == old(resources.resources)
      ensures Entries(queue.q.contents) == PS.Queued(old(Entries(queue.q.contents)), PS.Entry(n, finish))
      ensures forall c :: c in queue.q.contents ==> c in old(queue.q.contents) || fresh(c)
    {
      hide Arranged, PS.Queued, Entries, ServerReady;
      var entry := new Customer(n, 0, finish);
      EntriesArranged(queue.q.contents, entry);
      ArrangedHolds(ByRank, queue.q.contents, entry);
      queue.Enqueue(entry, now);
    }

    /** Customer number n is accepted. */
    method Accept(ghost s: PS.Node, n: nat, demand: real, now: real, created: nat)
      returns (commands: seq<Command<Token>>)
      requires Ready(queue, resources, now) && Stands(s) && queue.CanAccept() && |s.queue| < s.capacity
      requires s.arrivals == n && s.now == now
      requires this !in queue.Repr && queue.discipline == ByRank && resources.nresources == 1
      modifies this`vtime, this`nextEndServiceEvent, this`timeOfLastSchedule
      modifies queue.Repr, resources, resources.resourceCount
      ensures Ready(queue, resources, now) && fresh(queue.Repr - old(queue.Repr))
      ensures Stands(PS.Accept(s, demand))
      ensures forall c :: c in queue.q.contents ==> c in old(queue.q.contents) || fresh(c)
      ensures commands == AcceptCommands(id, Sharing(s), Sharing(PS.Accept(s, demand)), old(nextEndServiceEvent))
      ensures nextEndServiceEvent
           == Awaited(id, Sharing(PS.Accept(s, demand)), old(nextEndServiceEvent), created)
    {
      hide Ready, PS.Queued, PS.Accept, VirtualTime, Entries, TimeToNext, AcceptCommands, Awaited;
      commands := ClaimOrCancel(s, now);
      EnqueueEntry(n, vtime + demand, now);
      PS.InsertedNotEmpty(s.queue, PS.Entry(n, vtime + demand));
      var schedule := ServiceNextCustomer(now, created);
      commands := commands + [schedule];
      AcceptedIs(s, demand, vtime, Entries(queue.q.contents), nextEndServiceEvent.time);
      AcceptTells(id, s, demand, old(nextEndServiceEvent), nextEndServiceEvent.time, created);
    }

    /** A customer enters a node that stands for `s`. */
    method Enter(ghost s: PS.Node, demand: real, now: real, created: nat) returns (commands: seq<Command<Token>>)
      requires Valid(s) && s.now == now
      modifies this, queue.Repr, resources, resources.resourceCount
      ensures Valid(PS.Accept(s, demand)) && fresh(queue.Repr - old(queue.Repr))
      ensures forall c :: c in queue.q.contents ==> c in old(queue.q.contents) || fresh(c)
      ensures commands == AcceptCommands(id, Sharing(s), Sharing(PS.Accept(s, demand)), old(nextEndServiceEvent))
      ensures nextEndServiceEvent
           == if |s.queue| < s.capacity
              then Awaited(id, Sharing(PS.Accept(s, demand)), old(nextEndServiceEvent), created)
              else old(nextEndServiceEvent)
    {
      hide Ready, PS.Accept, Entries, Awaited;
      EntriesPopulation(queue, resources, now);
      AcceptCounts(s, demand);
      arrivals := arrivals + 1;
      if queue.CanAccept() {
        commands := Accept(s, arrivals - 1, demand, now, created);
      } else {
        losses := losses + 1;
        commands := [];
      }
    }

    /** A customer enters while another, or it itself, is being forwarded by this node and the server is still
        taken: if there is room, accept gets as far as descheduling the event that is being invoked. */
    method EnterWhileForwarding(now: real) returns (commands: seq<Command<Token>>)
      requires Ready(queue, resources, now) && resources.nresources == 1 && resources.resources == 0
      requires this !in queue.Repr
      modifies this`arrivals, this`losses, resources, resources.resourceCount
      ensures commands == if queue.CanAccept() then [Deschedule(nextEndServiceEvent)] else []
      ensures arrivals == old(arrivals) + 1
      ensures losses == if queue.CanAccept() then old(losses) else old(losses) + 1
    {
      hide Ready;
      arrivals := arrivals + 1;
      if queue.CanAccept() {
        var _, cs := ClaimOrDeschedule(now);
        commands := cs;
      } else {
        losses := losses + 1;
        commands := [];
      }
    }

    /** The head of the queue is taken out. */
    method DequeueEntry(now: real) returns (n: nat)
      requires Ready(queue, resources, now) && queue.q.contents != []
      modifies queue.Repr
      ensures Ready(queue, resources, now) && queue.Repr == old(queue.Repr)
      ensures resources.resources == old(resources.resources)
      ensures old(Entries(queue.q.contents))[0].id == n
      ensures Entries(queue.q.contents) == old(Entries(queue.q.contents))[1..]
      ensures queue.pop == |Entries(queue.q.contents)| && queue.CanAccept()
      ensures forall c :: c in queue.q.contents ==> c in old(queue.q.contents)
    {
      hide ServerReady;
      ghost var cs := queue.q.contents;
      var entry := queue.Dequeue(now);
      n := entry.id;
      assert Entries(cs[1..]) == Entries(cs)[1..];
    }

    /** The first half of invoke, up to the forwarding of the customer that departs. */
    method Depart(ghost s: PS.Node, now: real) returns (departed: nat)
      requires Valid(s) && s.now == now && s.queue != []
      modifies this`vtime, queue.Repr
      ensures Ready(queue, resources, now) && queue.Repr == old(queue.Repr)
      ensures vtime == PS.Invoke(s).vtime && Entries(queue.q.contents) == PS.Invoke(s).queue
      ensures departed == s.queue[0].id && resources.resources == 0 && queue.CanAccept()
      ensures forall c :: c in queue.q.contents ==> c in old(queue.q.contents)
    {
      hide Ready, Entries, PS.Invoke, PS.Share, TimeToNext;
      EntriesPopulation(queue, resources, now);
      InvokedIs(s);
      vtime := vtime + PS.Share(now - timeOfLastSchedule, queue.pop);
      departed := DequeueEntry(now);
    }

    /** The second half: the server is released, or the next completion scheduled. */
    method Continue(ghost s: PS.Node, now: real, created: nat) returns (commands: seq<Command<Token>>)
      requires Ready(queue, resources, now) && resources.resources == 0 && resources.nresources == 1
      requires s.queue != [] && s.now == now && s.claimed && s.capacity == queue.capacity
      requires vtime == PS.Invoke(s).vtime && Entries(queue.q.contents) == PS.Invoke(s).queue
      requires timeOfLastSchedule == s.lastSchedule
      modifies this`nextEndServiceEvent, this`timeOfLastSchedule, resources, resources.resourceCount
      ensures Ready(queue, resources, now) && Stands(PS.Invoke(s)) && queue.q.contents == old(queue.q.contents)
      ensures commands == Restart(id, Sharing(PS.Invoke(s)))
      ensures nextEndServiceEvent == Awaited(id, Sharing(PS.Invoke(s)), old(nextEndServiceEvent), created)
    {
      EntriesPopulation(queue, resources, now);
      hide Ready, Entries, PS.Invoke, PS.Share, TimeToNext, Restart, Awaited;
      InvokedIs(s);
      InvokeTells(id, s, nextEndServiceEvent, created);
      commands := [];
      if queue.IsEmpty() {
        ReleaseServer(queue, resources, now);
      } else {
        var schedule := ServiceNextCustomer(now, created);
        commands := [schedule];
      }
    }

    /** The end-of-service event of a node that stands for `s`: its head departs and is forwarded; if
        anyone is left, the next completion is scheduled, when there have been `created` events. */
    method Invoke(ghost s: PS.Node, now: real, created: nat) returns (departed: nat, commands: seq<Command<Token>>)
      requires Valid(s) && s.now == now && s.queue != []
      modifies this, queue.Repr, resources, resources.resourceCount
      ensures Valid(PS.Invoke(s)) && queue.Repr == old(queue.Repr)
      ensures departed == s.queue[0].id
      ensures commands == Restart(id, Sharing(PS.Invoke(s)))
      ensures nextEndServiceEvent == Awaited(id, Sharing(PS.Invoke(s)), old(nextEndServiceEvent), created)
    {
      hide Ready, Entries, PS.Invoke, Restart, Awaited;
      InvokeCounts(s);
      departed := Depart(s, now);
      commands := Continue(s, now, created);
    }
  }
}
