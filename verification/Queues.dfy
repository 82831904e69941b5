/** Queues with on-line population and waiting-time measures, over the pointer list. */
module Queues {
  import opened Reals
  import opened Measures
  import opened PointerList

  /** `rank` is the attribute an ordered queue compares: the class of a plain customer, the finish time
      of a processor-sharing entry. */
  class Customer {
    const id: nat
    const priority: nat
    const rank: real
    /** The number of its visit to the node it is at. */
    var visit: nat
    var serviceDemand: real
    var queueInsertionTime: real

    constructor (id: nat, priority: nat, rank: real)
      ensures this.id == id && this.priority == priority && this.rank == rank
    {
      this.id, this.priority, this.rank := id, priority, rank;
      visit, serviceDemand, queueInsertionTime := 0, 0.0, 0.0;
    }
  }

  predicate SmallerThan(x: Customer, y: Customer) {
    x.rank <= y.rank
  }

  datatype Discipline = FIFO | LIFO | ByRank

  /** Where an arriving customer goes. All disciplines serve from the front. */
  function Arranged(d: Discipline, s: seq<Customer>, c: Customer): seq<Customer> {
    match d
    case FIFO => s + [c]
    case LIFO => [c] + s
    case ByRank => Inserted((x, y) => SmallerThan(x, y), s, c)
  }

  lemma ArrangedAt(d: Discipline, s: seq<Customer>, c: Customer) returns (k: nat)
    ensures k <= |s| && Arranged(d, s, c) == s[..k] + [c] + s[k..]
  {
    match d
    case FIFO => k := |s|;
    case LIFO => k := 0;
    case ByRank => k := InsertedAt((x, y) => SmallerThan(x, y), s, c);
  }

  /** `c` stands behind everyone of smaller or equal rank that led the line, and before the first of greater
      rank. */
  ghost predicate RankedBetween(s: seq<Customer>, c: Customer, r: seq<Customer>) {
    exists k :: 0 <= k <= |s| && r == s[..k] + [c] + s[k..]
                && (forall i :: 0 <= i < k ==> s[i].rank <= c.rank) && (k < |s| ==> s[k].rank > c.rank)
  }

  lemma ArrangedMeans(d: Discipline, s: seq<Customer>, c: Customer)
    ensures d == FIFO ==> Arranged(d, s, c) == s + [c]
    ensures d == LIFO ==> Arranged(d, s, c) == [c] + s
    ensures d == ByRank ==> RankedBetween(s, c, Arranged(d, s, c))
  {
    if d == ByRank {
      var before := (x: Customer, y: Customer) => SmallerThan(x, y);
      var k := InsertedAt(before, s, c);
      assert forall i :: 0 <= i < k ==> before(s[i], c);
      assert k < |s| ==> !before(s[k], c);
    }
  }

  lemma ArrangedHolds(d: Discipline, s: seq<Customer>, c: Customer)
    ensures forall x :: x in Arranged(d, s, c) ==> x in s || x == c
  {
    var k := ArrangedAt(d, s, c);
  }

  // ---- waiting so far ----

  /** `ts` are the insertion times of the customers `cs`. */
  ghost predicate Timed(cs: seq<Customer>, ts: seq<real>)
    reads cs
  {
    |ts| == |cs| && forall i :: 0 <= i < |cs| ==> cs[i].queueInsertionTime == ts[i]
  }

  lemma TimedInserted(cs: seq<Customer>, ts: seq<real>, k: nat, c: Customer)
    requires Timed(cs, ts) && k <= |cs|
    ensures Timed(cs[..k] + [c] + cs[k..], ts[..k] + [c.queueInsertionTime] + ts[k..])
  {
  }

  /** The time spent in the queue up to `t` by customers inserted at `ts`. */
  function Waiting(ts: seq<real>, t: real): real {
    if ts == [] then 0.0 else (t - ts[0]) + Waiting(ts[1..], t)
  }

  lemma {:induction false} WaitingSplits(a: seq<real>, b: seq<real>, t: real)
    ensures Waiting(a + b, t) == Waiting(a, t) + Waiting(b, t)
  {
    if a == [] {
      assert a + b == b;
    } else {
      assert (a + b)[1..] == a[1..] + b;
      WaitingSplits(a[1..], b, t);
    }
  }

  lemma WaitingInserted(ts: seq<real>, k: nat, now: real, t: real)
    requires k <= |ts|
    ensures Waiting(ts[..k] + [now] + ts[k..], t) == Waiting(ts, t) + (t - now)
  {
    WaitingSplits(ts[..k], ts[k..], t);
    assert ts[..k] + ts[k..] == ts;
    WaitingSplits(ts[..k] + [now], ts[k..], t);
    WaitingSplits(ts[..k], [now], t);
    assert Waiting([now], t) == t - now + Waiting([], t);
  }

  /** Everyone waits at rate one. */
  lemma {:induction false} WaitingElapses(ts: seq<real>, t: real, dt: real)
    ensures Waiting(ts, t + dt) == Waiting(ts, t) + Times(|ts| as real, dt)
  {
    if ts == [] {
    } else {
      WaitingElapses(ts[1..], t, dt);
      Distributes(1.0, |ts[1..]| as real, dt);
      assert Times(|ts| as real, dt) == Times(|ts[1..]| as real, dt) + dt;
    }
  }

  /** Area under the population curve up to the last change = queueing times recorded so far + time
      waited so far. */
  ghost predicate Balanced(changes: seq<Change>, samples: seq<real>, ts: seq<real>) {
    && LastValue(changes) == |ts| as real
    && Area(changes, 1, LastTime(changes)) == PowerSum(samples, 1) + Waiting(ts, LastTime(changes))
  }

  /** Little's law on a sample path, at any time from the last change on. */
  lemma LittlesLaw(changes: seq<Change>, samples: seq<real>, ts: seq<real>, t: real)
    requires Balanced(changes, samples, ts) && LastTime(changes) <= t
    ensures Area(changes, 1, t) == PowerSum(samples, 1) + Waiting(ts, t)
  {
    hide Times;
    MomentsAfterLastChange(changes, t);
    WaitingElapses(ts, LastTime(changes), t - LastTime(changes));
  }

  lemma BalancedAfterArrival(changes: seq<Change>, samples: seq<real>, ts: seq<real>, k: nat, now: real)
    requires Balanced(changes, samples, ts) && LastTime(changes) <= now && k <= |ts|
    ensures Balanced(changes + [Change(now, (|ts| + 1) as real)], samples, ts[..k] + [now] + ts[k..])
  {
    LittlesLaw(changes, samples, ts, now);
    AreaExtends(changes, Change(now, (|ts| + 1) as real), 1);
    WaitingInserted(ts, k, now, now);
  }

  lemma BalancedAfterDeparture(changes: seq<Change>, samples: seq<real>, ts: seq<real>, now: real)
    requires Balanced(changes, samples, ts) && LastTime(changes) <= now && ts != []
    ensures Balanced(changes + [Change(now, (|ts| - 1) as real)], samples + [now - ts[0]], ts[1..])
  {
    LittlesLaw(changes, samples, ts, now);
    AreaExtends(changes, Change(now, (|ts| - 1) as real), 1);
    SumExtends(samples, now - ts[0]);
  }

  // ---- any run of queue operations ----

  /** enqueue, which inserts where the discipline says, enqueueAtHead, and dequeue. */
  datatype Operation = Inserting(at: nat, now: real) | Removing(now: real)

  /** The population changes, the recorded queueing times, and the insertion times of those inside. */
  datatype Path = Path(changes: seq<Change>, samples: seq<real>, inside: seq<real>)

  predicate Allowed(p: Path, op: Operation) {
    && LastTime(p.changes) <= op.now
    && match op case Inserting(k, _) => k <= |p.inside| case Removing(_) => p.inside != []
  }

  function Performed(p: Path, op: Operation): Path
    requires Allowed(p, op)
  {
    var n := |p.inside|;
    match op
    case Inserting(k, now) =>
      Path(p.changes + [Change(now, (n + 1) as real)], p.samples, p.inside[..k] + [now] + p.inside[k..])
    case Removing(now) =>
      Path(p.changes + [Change(now, (n - 1) as real)], p.samples + [now - p.inside[0]], p.inside[1..])
  }

  ghost predicate Reaches(p: Path, ops: seq<Operation>, q: Path)
    decreases |ops|
  {
    if ops == [] then p == q else Allowed(p, ops[0]) && Reaches(Performed(p, ops[0]), ops[1..], q)
  }

  lemma {:induction false} BalancedThroughout(p: Path, ops: seq<Operation>, q: Path)
    requires Balanced(p.changes, p.samples, p.inside) && Reaches(p, ops, q)
    ensures Balanced(q.changes, q.samples, q.inside)
    decreases |ops|
  {
    hide Balanced, Area, PowerSum, Waiting;
    if ops != [] {
      match ops[0] {
        case Inserting(k, now) => BalancedAfterArrival(p.changes, p.samples, p.inside, k, now);
        case Removing(now) => BalancedAfterDeparture(p.changes, p.samples, p.inside, now);
      }
      BalancedThroughout(Performed(p, ops[0]), ops[1..], q);
    }
  }

  /** Little's law after any run of operations at non-decreasing times on a queue that starts empty. */
  lemma LittlesLawOfRuns(ops: seq<Operation>, q: Path, t: real)
    requires Reaches(Path([], [], []), ops, q) && LastTime(q.changes) <= t
    ensures Area(q.changes, 1, t) == PowerSum(q.samples, 1) + Waiting(q.inside, t)
  {
    assert Balanced([], [], []);
    BalancedThroughout(Path([], [], []), ops, q);
    hide Balanced, Area, PowerSum, Waiting;
    LittlesLaw(q.changes, q.samples, q.inside, t);
  }

  ghost predicate Distinct(cs: seq<Customer>) {
    forall i, j :: 0 <= i < j < |cs| ==> cs[i] != cs[j]
  }

  lemma DistinctInserted(cs: seq<Customer>, k: nat, c: Customer)
    requires Distinct(cs) && c !in cs && k <= |cs|
    ensures Distinct(cs[..k] + [c] + cs[k..])
    ensures forall x :: x in cs[..k] + [c] + cs[k..] <==> x in cs || x == c
  {
    var r := cs[..k] + [c] + cs[k..];
    assert cs == cs[..k] + cs[k..];
    forall i, j | 0 <= i < j < |r| ensures r[i] != r[j] {
      assert i != k ==> r[i] == cs[if i < k then i else i - 1];
      assert j != k ==> r[j] == cs[if j < k then j else j - 1];
    }
  }

  /** The two measures of a queue. `inside` are the insertion times of those in the queue, in order. */
  class QueueMeasures {
    const queueingTime: CustomerMeasure
    const popMeasure: SystemMeasure
    ghost var inside: seq<real>

    ghost predicate Valid()
      reads this, popMeasure, queueingTime
    {
      && popMeasure.Valid() && queueingTime.Valid()
      && Balanced(popMeasure.changes, queueingTime.samples, inside)
    }

    /** When the population last changed. */
    ghost function Clock(): real
      reads this, popMeasure
    {
      LastTime(popMeasure.changes)
    }

    constructor ()
      ensures Valid() && fresh(popMeasure) && fresh(queueingTime) && inside == []
      ensures popMeasure.changes == [] && queueingTime.samples == []
    {
      queueingTime := new CustomerMeasure();
      popMeasure := new SystemMeasure();
      inside := [];
    }

    method RecordArrival(now: real, pop: nat, ghost k: nat)
      requires Valid() && Clock() <= now && k <= |inside| && pop == |inside| + 1
      modifies this, popMeasure, queueingTime
      ensures Valid() && Clock() == now
      ensures inside == old(inside)[..k] + [now] + old(inside)[k..]
      ensures popMeasure.changes == old(popMeasure.changes) + [Change(now, pop as real)]
      ensures queueingTime.samples == old(queueingTime.samples)
    {
      BalancedAfterArrival(popMeasure.changes, queueingTime.samples, inside, k, now);
      hide Balanced, Area, PowerSum;
      popMeasure.Add(now, pop as real);
      inside := inside[..k] + [now] + inside[k..];
    }

    method RecordDeparture(now: real, pop: nat, inserted: real)
      requires Valid() && Clock() <= now && inside != [] && inserted == inside[0] && pop == |inside| - 1
      modifies this, popMeasure, queueingTime
      ensures Valid() && Clock() == now && inside == old(inside)[1..]
      ensures popMeasure.changes == old(popMeasure.changes) + [Change(now, pop as real)]
      ensures queueingTime.samples == old(queueingTime.samples) + [now - inserted]
    {
      BalancedAfterDeparture(popMeasure.changes, queueingTime.samples, inside, now);
      hide Balanced, Area, PowerSum;
      popMeasure.Add(now, pop as real);
      queueingTime.Add(now - inserted);
      inside := inside[1..];
    }

    /** Little's law in every reachable state: the area under the population curve up to any time from
        the last change on is the recorded queueing time of those who left plus the time waited so far
        by those still inside. */
    lemma LittlesLawHolds(t: real)
      requires Valid() && Clock() <= t
      ensures Area(popMeasure.changes, 1, t) == PowerSum(queueingTime.samples, 1) + Waiting(inside, t)
    {
      LittlesLaw(popMeasure.changes, queueingTime.samples, inside, t);
    }
  }

  class Queue {
    const discipline: Discipline
    const capacity: nat
    const q: List<Customer>
    const measures: QueueMeasures
    var pop: nat
    ghost var Repr: set<object>

    /** Ownership, and no customer is queued twice. */
    ghost predicate Shape()
      reads this, Repr, q
    {
      && this in Repr && q in Repr && q.Repr <= Repr && this !in q.Repr
      && measures in Repr && measures.popMeasure in Repr && measures.queueingTime in Repr
      && measures !in q.Repr && measures.popMeasure !in q.Repr && measures.queueingTime !in q.Repr
      && q.Valid() && Distinct(q.contents) && (forall c :: c in q.contents ==> c !in Repr)
    }

    ghost predicate Valid()
      reads this, Repr, q, q.contents, measures, measures.popMeasure, measures.queueingTime
    {
      && Shape() && measures.Valid()
      && pop == |q.contents| <= capacity
      && Timed(q.contents, measures.inside)
    }

    constructor (discipline: Discipline, capacity: nat)
      ensures Valid() && fresh(Repr)
      ensures q.contents == [] && this.discipline == discipline && this.capacity == capacity
      ensures measures.popMeasure.changes == [] && measures.queueingTime.samples == []
    {
      this.discipline, this.capacity, pop := discipline, capacity, 0;
      q := new List();
      measures := new QueueMeasures();
      new;
      Repr := {this, q, measures, measures.popMeasure, measures.queueingTime} + q.Repr;
    }

    predicate CanAccept()
      reads this
    {
      pop < capacity
    }

    predicate IsEmpty()
      reads this
    {
      pop == 0
    }

    method InsertIntoList(c: Customer)
      requires q.Valid()
      modifies q.Repr
      ensures q.Valid() && fresh(q.Repr - old(q.Repr))
      ensures q.contents == Arranged(discipline, old(q.contents), c)
    {
      match discipline
      case FIFO => q.InsertAtBack(c);
      case LIFO => q.InsertAtFront(c);
      case ByRank => q.InsertInOrder((x: Customer, y: Customer) => SmallerThan(x, y), c);
    }

    method InsertIntoQueue(c: Customer)
      requires Shape() && c !in Repr && c !in q.contents
      modifies q.Repr, this`Repr
      ensures Shape() && fresh(Repr - old(Repr))
      ensures q.contents == Arranged(discipline, old(q.contents), c)
    {
      ghost var cs := q.contents;
      ghost var k := ArrangedAt(discipline, cs, c);
      DistinctInserted(cs, k, c);
      hide Distinct, Arranged;
      InsertIntoList(c);
      Repr := Repr + q.Repr;
    }

    method InsertAtHeadOfQueue(c: Customer)
      requires Shape() && c !in Repr && c !in q.contents
      modifies q.Repr, this`Repr
      ensures Shape() && fresh(Repr - old(Repr))
      ensures q.contents == [c] + old(q.contents)
    {
      ghost var cs := q.contents;
      DistinctInserted(cs, 0, c);
      assert cs[..0] + [c] + cs[0..] == [c] + cs;
      hide Distinct;
      q.InsertAtFront(c);
      Repr := Repr + q.Repr;
    }

    /** Population and measures after an insertion at position k. */
    method CountArrival(c: Customer, now: real, ghost k: nat, ghost ts: seq<real>)
      requires Shape() && measures.Valid() && measures.Clock() <= now
      requires measures.inside == ts && |ts| == pop < capacity && k <= |ts| && |q.contents| == pop + 1
      requires Timed(q.contents, ts[..k] + [now] + ts[k..])
      modifies this`pop, measures, measures.popMeasure, measures.queueingTime
      ensures Valid() && measures.Clock() == now
      ensures measures.popMeasure.changes == old(measures.popMeasure.changes) + [Change(now, pop as real)]
      ensures measures.queueingTime.samples == old(measures.queueingTime.samples)
    {
      hide Distinct, Balanced, Timed;
      pop := pop + 1;
      measures.RecordArrival(now, pop, k);
    }

    method Enqueue(c: Customer, now: real)
      requires Valid() && c !in Repr && c !in q.contents
      requires CanAccept() && measures.Clock() <= now
      modifies Repr, c`queueInsertionTime
      ensures Valid() && fresh(Repr - old(Repr)) && measures.Clock() == now
      ensures c.queueInsertionTime == now
      ensures q.contents == Arranged(discipline, old(q.contents), c)
      ensures discipline == FIFO ==> q.contents == old(q.contents) + [c]
      ensures discipline == LIFO ==> q.contents == [c] + old(q.contents)
      ensures discipline == ByRank ==> RankedBetween(old(q.contents), c, q.contents)
      ensures measures.popMeasure.changes == old(measures.popMeasure.changes) + [Change(now, pop as real)]
      ensures measures.queueingTime.samples == old(measures.queueingTime.samples)
    {
      hide Distinct, Balanced, Arranged, RankedBetween;
      ghost var cs, ts := q.contents, measures.inside;
      ghost var k := ArrangedAt(discipline, cs, c);
      ArrangedMeans(discipline, cs, c);
      c.queueInsertionTime := now;
      TimedInserted(cs, ts, k, c);
      hide Timed;
      InsertIntoQueue(c);
      CountArrival(c, now, k, ts);
    }

    /** Ahead of everyone, whatever the discipline. */
    method EnqueueAtHead(c: Customer, now: real)
      requires Valid() && c !in Repr && c !in q.contents
      requires CanAccept() && measures.Clock() <= now
      modifies Repr, c`queueInsertionTime
      ensures Valid() && fresh(Repr - old(Repr)) && measures.Clock() == now
      ensures c.queueInsertionTime == now
      ensures q.contents == [c] + old(q.contents)
      ensures measures.popMeasure.changes == old(measures.popMeasure.changes) + [Change(now, pop as real)]
      ensures measures.queueingTime.samples == old(measures.queueingTime.samples)
    {
      hide Distinct, Balanced;
      ghost var cs, ts := q.contents, measures.inside;
      c.queueInsertionTime := now;
      TimedInserted(cs, ts, 0, c);
      assert cs[..0] + [c] + cs[0..] == [c] + cs;
      hide Timed;
      InsertAtHeadOfQueue(c);
      CountArrival(c, now, 0, ts);
    }

    method Head() returns (c: Customer)
      requires Valid() && pop > 0
      ensures c == q.contents[0]
    {
      c := q.First();
    }

    method Dequeue(now: real) returns (c: Customer)
      requires Valid() && pop > 0 && measures.Clock() <= now
      modifies Repr
      ensures Valid() && Repr == old(Repr) && measures.Clock() == now
      ensures c == old(q.contents)[0] && q.contents == old(q.contents)[1..]
      ensures measures.popMeasure.changes == old(measures.popMeasure.changes) + [Change(now, pop as real)]
      ensures measures.queueingTime.samples == old(measures.queueingTime.samples) + [now - c.queueInsertionTime]
    {
      hide Balanced;
      c := q.RemoveFromFront();
      pop := pop - 1;
      measures.RecordDeparture(now, pop, c.queueInsertionTime);
    }
  }

  /** A valid queue that has not been measured beyond `now`. */
  ghost predicate QueueReady(queue: Queue, now: real)
    reads queue, queue.Repr, queue.q, queue.q.contents
    reads queue.measures, queue.measures.popMeasure, queue.measures.queueingTime
  {
    queue.Valid() && queue.measures.Clock() <= now
  }

  /** What a queue is made of is its own. */
  lemma OwnsItsParts(queue: Queue, now: real)
    requires QueueReady(queue, now)
    ensures queue in queue.Repr && queue.q in queue.Repr && queue.measures in queue.Repr
    ensures queue.measures.popMeasure in queue.Repr && queue.measures.queueingTime in queue.Repr
  {
  }
}
