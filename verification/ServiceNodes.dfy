/** The three service nodes under one roof: what can happen to a node, when its next event is due, and what
    it tells the event diary. */
module ServiceNodes {
  import opened Workload
  import opened Simulation
  import opened NodeDiary
  import QN = Queueing
  import PS = ProcessorSharing
  import PR = PreemptiveResume
  import W = WorkConservation
  import Reals

  datatype Node = Sharing(ps: PS.Node) | Resuming(pr: PR.Node) | Pooling(qn: QN.Node)

  /** What a customer brings; demands are not negative. */
  type Demanding = v: QN.Visit | v.demand >= 0.0 witness QN.Visit(0.0, 0.0)

  function Now(n: Node): real {
    match n
    case Sharing(s) => s.now
    case Resuming(r) => r.now
    case Pooling(q) => q.now
  }

  /** When the node's first end-of-service event is due. */
  function Due(n: Node): Option<real> {
    match n
    case Sharing(s) => s.pending
    case Resuming(r) => if r.inService.Some? then Some(r.inService.value.time) else None
    case Pooling(q) => if q.pending != [] then Some(q.pending[0].time) else None
  }

  /** Only the processor-sharing queue can turn a customer away here; a pool may still lose one. */
  predicate Admits(n: Node) {
    n.Sharing? ==> |n.ps.queue| < n.ps.capacity
  }

  /** A single-server node of the first two kinds cannot take a customer back while forwarding it. */
  predicate Possible(n: Node, step: QN.NodeStep) {
    match n
    case Sharing(s) => (step.Finishes? ==> step.back == []) && PS.Possible(s, W.Plain(step))
    case Resuming(r) => (step.Finishes? ==> step.back == []) && PR.Possible(r, W.Plain(step))
    case Pooling(q) => QN.Possible(q, step)
  }

  function Do(n: Node, step: QN.NodeStep): Node
    requires Possible(n, step)
  {
    match n
    case Sharing(s) => Sharing(PS.Do(s, W.Plain(step)).0)
    case Resuming(r) => Resuming(PR.Do(r, W.Plain(step)).0)
    case Pooling(q) => Pooling(QN.Do(q, step))
  }

  function RunNode(n: Node, steps: seq<QN.NodeStep>): Option<Node>
    decreases |steps|
  {
    if steps == [] then Some(n)
    else if !Possible(n, steps[0]) then None
    else RunNode(Do(n, steps[0]), steps[1..])
  }

  lemma {:induction false} RunExtends(n: Node, steps: seq<QN.NodeStep>, step: QN.NodeStep)
    requires RunNode(n, steps).Some? && Possible(RunNode(n, steps).value, step)
    ensures RunNode(n, steps + [step]) == Some(Do(RunNode(n, steps).value, step))
    decreases |steps|
  {
    hide Possible, Do;
    if steps == [] {
      assert steps + [step] == [step];
      assert RunNode(Do(n, step), [step][1..]) == Some(Do(n, step));
    } else {
      assert (steps + [step])[1..] == steps[1..] + [step];
      RunExtends(Do(n, steps[0]), steps[1..], step);
    }
  }

  // ---- what every node keeps ----

  ghost predicate Sound(n: Node) {
    match n
    case Sharing(s) => |s.queue| <= s.capacity && exists m :: PS.Refines(s, m)
    case Resuming(r) => W.NothingNegative(r)
    case Pooling(q) => QN.Consistent(q, 0)
  }

  lemma SoundDo(n: Node, step: QN.NodeStep)
    requires Sound(n) && Possible(n, step)
    ensures Sound(Do(n, step)) && Now(Do(n, step)) == TimeAfter(Now(n), W.Plain(step))
  {
    hide PS.Refines, W.NothingNegative, QN.Consistent;
    match n
    case Sharing(s) =>
      var m :| PS.Refines(s, m);
      PS.StepsMatch(s, m, W.Plain(step));
      PS.DoRefines(s, m, W.Plain(step));
      SharingFits(s, W.Plain(step));
    case Resuming(r) =>
      W.ResumedDo(r, W.Plain(step));
    case Pooling(q) =>
      QN.DoKeeps(q, step);
      PoolNow(q, step);
  }

  lemma PoolNow(q: QN.Node, step: QN.NodeStep)
    requires QN.Possible(q, step)
    ensures QN.Do(q, step).now == if step.Passes? then step.to else q.now
  {
    if step.Finishes? { QN.EnterAllNow(QN.Forwarding(q), step.back); }
  }

  lemma SharingFits(s: PS.Node, step: Step)
    requires |s.queue| <= s.capacity && PS.Possible(s, step)
    ensures |PS.Do(s, step).0.queue| <= PS.Do(s, step).0.capacity
  {
    hide PS.Queued;
    if step.Arrive? {
      PS.InsertedNotEmpty(s.queue, PS.Entry(s.arrivals, s.vtime + step.demand));
      PS.InsertedNotEmpty(s.queue, PS.Entry(s.arrivals, PS.VirtualNow(s) + step.demand));
    }
  }

  /** A sound node is due now or later, completes exactly when it is due, and lets time pass until then. */
  lemma SoundDue(n: Node)
    requires Sound(n)
    ensures Due(n).Some? ==> Now(n) <= Due(n).value
    ensures Possible(n, QN.Finishes([])) <==> Due(n) == Some(Now(n))
    ensures forall t :: Possible(n, QN.Passes(t)) <==> Now(n) <= t && (Due(n).Some? ==> t <= Due(n).value)
  {
    if n.Sharing? { SharingDue(n.ps); }
    hide PS.Refines, QN.Accounted;
  }

  lemma SharingDue(s: PS.Node)
    requires exists m :: PS.Refines(s, m)
    ensures s.pending.Some? ==> s.queue != [] && s.now <= s.pending.value
  {
    hide PS.Refines;
    var m :| PS.Refines(s, m);
    SharingScheduled(s, m);
    if s.queue != [] {
      PS.TimeToCompletion(s, m);
      HeadLeft(s, m);
      Reals.ProductNonNegative(m.left[s.queue[0].id], |s.queue| as real);
    }
  }

  lemma SharingScheduled(s: PS.Node, m: PS.Sharing)
    requires PS.Refines(s, m)
    ensures s.pending.Some? <==> s.queue != []
  {
  }

  lemma HeadLeft(s: PS.Node, m: PS.Sharing)
    requires PS.Refines(s, m) && s.queue != []
    ensures s.queue[0].id in m.left && m.left[s.queue[0].id] >= 0.0
  {
  }

  /** Anyone may come in at any time. */
  lemma EntryPossible(n: Node, v: Demanding)
    ensures Possible(n, QN.Enters(v))
  {
  }

  /** A customer that is admitted to a single-server node leaves it due; one that is turned away changes
      nothing there. */
  lemma ArrivalDue(n: Node, v: Demanding)
    requires !n.Pooling?
    ensures var t := Do(n, QN.Enters(v));
      !t.Pooling? && if Admits(n) then Due(t).Some? else Due(t) == Due(n)
  {
    if n.Resuming? { PR.AcceptIs(n.pr, v.demand); }
    hide PS.Queued;
  }

  lemma PassingKeepsDue(n: Node, t: real)
    requires Possible(n, QN.Passes(t))
    ensures Due(Do(n, QN.Passes(t))) == Due(n)
    ensures Do(n, QN.Passes(t)).Pooling? <==> n.Pooling?
    ensures n.Pooling? ==> Do(n, QN.Passes(t)).qn == n.qn.(now := t)
  {
  }

  // ---- while a customer is being forwarded ----

  /** It has left, but its server is not yet released. */
  function Midway(n: Node): Node
    requires Due(n).Some?
  {
    match n
    case Sharing(s) => Sharing(s.(queue := if s.queue == [] then [] else s.queue[1..], pending := None))
    case Resuming(r) => Resuming(r.(inService := None))
    case Pooling(q) => Pooling(QN.Forwarding(q))
  }

  /** There is always room for the customer that has just left. */
  lemma RoomToComeBack(n: Node)
    requires Sound(n) && Possible(n, QN.Finishes([]))
    ensures Admits(Midway(n))
  {
  }

  // ---- what a node tells the diary ----

  /** A single-server node schedules the end of service that is now due. */
  function Restart(id: nat, t: Node): seq<Command<Token>> {
    if Due(t).Some? then [Schedule(Due(t).value, EndOfService(id))] else []
  }

  /** accept at a single-server node: if the server is taken, the pending event `next` is descheduled; then
      the new one is scheduled. */
  function AcceptCommands(id: nat, s: Node, t: Node, next: Event<Token>): seq<Command<Token>> {
    if !Admits(s) then [] else (if Due(s).Some? then [Deschedule(next)] else []) + Restart(id, t)
  }

  /** The event a node waits for after `Restart`, when there have been `created` events. */
  function Awaited(id: nat, t: Node, next: Event<Token>, created: nat): Event<Token> {
    if Due(t).Some? then Event(created, Due(t).value, EndOfService(id)) else next
  }

  function ServiceCommand(id: nat, q: QN.Node, job: nat, demand: real): Command<Token> {
    Schedule(q.now + demand, EndService(id, job))
  }

  /** accept at a pool: service begins if a server is free. */
  function PoolEnterCommands(id: nat, q: QN.Node, v: QN.Visit): seq<Command<Token>> {
    if q.free > 0 then [ServiceCommand(id, q, q.arrivals, v.demand)] else []
  }

  /** A released server of a pool goes to the head of the queue. */
  function PoolReleaseCommands(id: nat, q: QN.Node): seq<Command<Token>> {
    if q.queue != [] then [ServiceCommand(id, q, q.queue[0].id, q.queue[0].demand)] else []
  }
}
