/** The priority queue built from one FIFO queue per priority. It stands for a single line in which the
    queues follow each other, highest priority (0) first. */
module PriorityQueues {
  import opened Measures
  import opened PointerList
  import opened Queues

  // ---- the single line ----

  function Flatten<T>(ss: seq<seq<T>>): seq<T> {
    if ss == [] then [] else ss[0] + Flatten(ss[1..])
  }

  lemma {:induction false} FlattenSplits<T>(ss: seq<seq<T>>, i: nat)
    requires i < |ss|
    ensures Flatten(ss) == Flatten(ss[..i]) + ss[i] + Flatten(ss[i + 1..])
  {
    if i == 0 {
    } else {
      FlattenSplits(ss[1..], i - 1);
      assert ss[1..][..i - 1] == ss[..i][1..] && ss[1..][i..] == ss[i + 1..];
    }
  }

  lemma FlattenUpdated<T>(ss: seq<seq<T>>, i: nat, s: seq<T>)
    requires i < |ss|
    ensures Flatten(ss[i := s]) == Flatten(ss[..i]) + s + Flatten(ss[i + 1..])
  {
    FlattenSplits(ss[i := s], i);
    assert ss[i := s][..i] == ss[..i] && ss[i := s][i + 1..] == ss[i + 1..];
  }

  lemma {:induction false} FlattenEmpty<T>(ss: seq<seq<T>>)
    ensures Flatten(ss) == [] <==> forall i :: 0 <= i < |ss| ==> ss[i] == []
  {
    if ss != [] {
      FlattenEmpty(ss[1..]);
      assert forall i :: 0 < i < |ss| ==> ss[i] == ss[1..][i - 1];
      assert forall i :: 0 <= i < |ss[1..]| ==> ss[1..][i] == ss[i + 1];
    }
  }

  /** Line i holds customers of priority base + i. */
  ghost predicate ByPriority(ss: seq<seq<Customer>>, base: nat) {
    forall i, c :: 0 <= i < |ss| && c in ss[i] ==> c.priority == base + i
  }

  lemma {:induction false} FlattenPriorities(ss: seq<seq<Customer>>, base: nat, c: Customer)
    requires ByPriority(ss, base) && c in Flatten(ss)
    ensures base <= c.priority < base + |ss|
  {
    if ss != [] && c !in ss[0] {
      assert ByPriority(ss[1..], base + 1);
      FlattenPriorities(ss[1..], base + 1, c);
    }
  }

  predicate NotLower(x: Customer, y: Customer) {
    x.priority <= y.priority
  }

  predicate Higher(x: Customer, y: Customer) {
    x.priority < y.priority
  }

  function ByNotLower(): (Customer, Customer) -> bool {
    (x: Customer, y: Customer) => NotLower(x, y)
  }

  function ByHigher(): (Customer, Customer) -> bool {
    (x: Customer, y: Customer) => Higher(x, y)
  }

  lemma InsertionPointIs(before: (Customer, Customer) -> bool, a: seq<Customer>, b: seq<Customer>, c: Customer)
    requires forall x :: x in a ==> before(x, c)
    requires forall x :: x in b ==> !before(x, c)
    ensures Inserted(before, a + b, c) == a + [c] + b
  {
    var s := a + b;
    var k := InsertionPoint(before, s, c);
    assert forall x :: x in a ==> before(x, c) && x in s;
    assert b != [] ==> s[|a|] in b;
    assert s[..k] == a && s[k..] == b;
  }

  /** Joining the back of line p is stable insertion by priority into the single line. */
  lemma EnqueueIsStableInsertion(ss: seq<seq<Customer>>, c: Customer)
    requires ByPriority(ss, 0) && c.priority < |ss|
    ensures var p := c.priority;
      Flatten(ss[p := ss[p] + [c]]) == Inserted(ByNotLower(), Flatten(ss), c)
  {
    var p := c.priority;
    var a, b := Flatten(ss[..p]) + ss[p], Flatten(ss[p + 1..]);
    FlattenSplits(ss, p);
    FlattenUpdated(ss, p, ss[p] + [c]);
    forall x | x in a ensures NotLower(x, c) {
      if x !in ss[p] { assert ByPriority(ss[..p], 0); FlattenPriorities(ss[..p], 0, x); }
    }
    forall x | x in b ensures !NotLower(x, c) {
      assert ByPriority(ss[p + 1..], p + 1);
      FlattenPriorities(ss[p + 1..], p + 1, x);
    }
    InsertionPointIs(ByNotLower(), a, b, c);
    assert Flatten(ss[..p]) + (ss[p] + [c]) + b == a + [c] + b;
  }

  /** Joining the front of line p goes ahead of everyone of the same priority. */
  lemma EnqueueAtHeadIsInsertion(ss: seq<seq<Customer>>, c: Customer)
    requires ByPriority(ss, 0) && c.priority < |ss|
    ensures var p := c.priority;
      Flatten(ss[p := [c] + ss[p]]) == Inserted(ByHigher(), Flatten(ss), c)
  {
    var p := c.priority;
    var a, b := Flatten(ss[..p]), ss[p] + Flatten(ss[p + 1..]);
    FlattenSplits(ss, p);
    FlattenUpdated(ss, p, [c] + ss[p]);
    forall x | x in a ensures Higher(x, c) {
      assert ByPriority(ss[..p], 0);
      FlattenPriorities(ss[..p], 0, x);
    }
    forall x | x in b ensures !Higher(x, c) {
      if x !in ss[p] {
        assert ByPriority(ss[p + 1..], p + 1);
        FlattenPriorities(ss[p + 1..], p + 1, x);
      }
    }
    InsertionPointIs(ByHigher(), a, b, c);
    assert Flatten(ss) == a + b;
    assert a + ([c] + ss[p]) + Flatten(ss[p + 1..]) == a + [c] + b;
  }

  /** The head of the first non-empty line is the head of the single line. */
  lemma FirstLineIsHead(ss: seq<seq<Customer>>, i: nat)
    requires i < |ss| && ss[i] != [] && forall k :: 0 <= k < i ==> ss[k] == []
    ensures Flatten(ss) != [] && Flatten(ss)[0] == ss[i][0]
    ensures Flatten(ss[i := ss[i][1..]]) == Flatten(ss)[1..]
  {
    FlattenSplits(ss, i);
    FlattenUpdated(ss, i, ss[i][1..]);
    FlattenEmpty(ss[..i]);
  }

  /** The single line is sorted by priority. */
  lemma {:induction false} FlattenSorted(ss: seq<seq<Customer>>, base: nat)
    requires ByPriority(ss, base)
    ensures Sorted(ByNotLower(), Flatten(ss))
  {
    if ss != [] {
      assert ByPriority(ss[1..], base + 1);
      FlattenSorted(ss[1..], base + 1);
      var r, t := Flatten(ss), Flatten(ss[1..]);
      forall i, j | 0 <= i < j < |r| ensures NotLower(r[i], r[j]) {
        if i < |ss[0]| {
          assert r[i] in ss[0];
          if j >= |ss[0]| { FlattenPriorities(ss[1..], base + 1, t[j - |ss[0]|]); }
          else { assert r[j] in ss[0]; }
        } else {
          assert ByNotLower()(t[i - |ss[0]|], t[j - |ss[0]|]);
        }
      }
    }
  }

  lemma StaysByPriority(ss: seq<seq<Customer>>, c: Customer)
    requires ByPriority(ss, 0) && c.priority < |ss|
    ensures ByPriority(ss[c.priority := ss[c.priority] + [c]], 0)
    ensures ByPriority(ss[c.priority := [c] + ss[c.priority]], 0)
  {
  }

  lemma StillByPriority(ss: seq<seq<Customer>>, i: nat)
    requires ByPriority(ss, 0) && i < |ss| && ss[i] != []
    ensures ByPriority(ss[i := ss[i][1..]], 0)
  {
  }

  lemma TimedLength(cs: seq<Customer>, ts: seq<real>)
    requires Timed(cs, ts)
    ensures |ts| == |cs|
  {
  }

  lemma TimedTail(cs: seq<Customer>, ts: seq<real>, c: Customer)
    requires Timed(cs, ts) && cs != [] && c == cs[0]
    ensures ts != [] && ts[0] == c.queueInsertionTime && Timed(cs[1..], ts[1..])
  {
  }

  /** Zero is the highest priority. */
  lemma HeadIsHighest(ss: seq<seq<Customer>>, base: nat)
    requires ByPriority(ss, base) && Flatten(ss) != []
    ensures forall x :: x in Flatten(ss) ==> Flatten(ss)[0].priority <= x.priority
  {
    FlattenSorted(ss, base);
    hide Flatten;
    var r := Flatten(ss);
    forall j | 0 <= j < |r| ensures r[0].priority <= r[j].priority {
      assert j > 0 ==> ByNotLower()(r[0], r[j]);
    }
  }

  const INT_MAX: nat := 0x7fff_ffff

  // ---- the inner queues ----

  /** An inner queue of the default kind and capacity, made of objects of `R`, with the customers `line`, all
      of them among `all`. */
  ghost predicate Inner(queue: Queue, line: seq<Customer>, R: set<object>, all: seq<Customer>)
    reads queue, queue.q
  {
    && queue.discipline == FIFO && queue.capacity == INT_MAX && queue.q.contents == line
    && queue in queue.Repr && queue.q in queue.Repr && queue.measures in queue.Repr && queue.Repr <= R
    && queue.measures.popMeasure in queue.Repr && queue.measures.queueingTime in queue.Repr
    && forall k :: 0 <= k < |line| ==> line[k] in all
  }

  ghost predicate Disjoint(qs: seq<Queue>)
    reads qs
  {
    forall i, j :: 0 <= i < |qs| && 0 <= j < |qs| && i != j ==> qs[i].Repr !! qs[j].Repr
  }

  /** Queue i holds line i. No two of them share state, no customer is part of one, and none has been measured
      beyond `t`. */
  ghost predicate Inners(qs: seq<Queue>, lines: seq<seq<Customer>>, R: set<object>, all: seq<Customer>, t: real)
    reads qs, R, all
  {
    && |lines| == |qs|
    && (forall i :: 0 <= i < |qs| ==> qs[i].q in R && Inner(qs[i], lines[i], R, all) && QueueReady(qs[i], t))
    && Disjoint(qs)
    && (forall c :: c in all ==> c !in R)
  }

  lemma InnersOnly(qs: seq<Queue>, lines: seq<seq<Customer>>, R: set<object>, all: seq<Customer>, t: real)
    requires Inners(qs, lines, R, all, t) && forall c :: c in Flatten(lines) ==> c in all
    ensures Inners(qs, lines, R, Flatten(lines), t)
  {
    forall i | 0 <= i < |qs| ensures Inner(qs[i], lines[i], R, Flatten(lines)) {
      FlattenSplits(lines, i);
    }
  }

  /** The inner queues after one of them has changed. */
  lemma InnersAgain(qs: seq<Queue>, p: nat, lines: seq<seq<Customer>>, R: set<object>, all: seq<Customer>, t: real,
                    line: seq<Customer>, R': set<object>, all': seq<Customer>, now: real)
    requires p < |qs| == |lines| && R <= R' && t <= now && Disjoint(qs)
    requires forall j :: 0 <= j < |qs| && j != p ==> Inner(qs[j], lines[j], R, all) && QueueReady(qs[j], t)
    requires Inner(qs[p], line, R', all') && QueueReady(qs[p], now)
    requires (forall c :: c in all ==> c in all') && forall c :: c in all' ==> c !in R'
    ensures Inners(qs, lines[p := line], R', all', now)
  {
    forall j | 0 <= j < |qs|
      ensures qs[j].q in R' && Inner(qs[j], lines[p := line][j], R', all') && QueueReady(qs[j], now)
    {
    }
  }

  /** What a change of queue p does not touch. */
  lemma InnersApart(qs: seq<Queue>, lines: seq<seq<Customer>>, R: set<object>, all: seq<Customer>, t: real, p: nat)
    requires Inners(qs, lines, R, all, t) && p < |qs|
    ensures |lines| == |qs| && Disjoint(qs) && QueueReady(qs[p], t) && Inner(qs[p], lines[p], R, all)
    ensures qs[p].Repr <= R && qs[p].q.contents == lines[p] && qs[p].discipline == FIFO
    ensures (forall k :: 0 <= k < |lines[p]| ==> lines[p][k] in all) && forall c :: c in all ==> c !in R
    ensures forall j :: 0 <= j < |qs| && j != p ==>
      && Inner(qs[j], lines[j], R, all) && QueueReady(qs[j], t) && qs[j] !in qs[p].Repr && qs[j].q !in qs[p].Repr
      && qs[j].Repr <= R && qs[j].Repr !! qs[p].Repr && qs[j].measures !in qs[p].Repr
      && qs[j].measures.popMeasure !in qs[p].Repr
      && qs[j].measures.queueingTime !in qs[p].Repr && qs[j].q.contents == lines[j]
      && forall k :: 0 <= k < |lines[j]| ==> lines[j][k] in all && lines[j][k] !in qs[p].Repr
  {
  }

  /** A customer joins the back of line p. */
  method JoinLine(qs: seq<Queue>, p: nat, c: Customer, now: real,
                  ghost lines: seq<seq<Customer>>, ghost R: set<object>, ghost all: seq<Customer>, ghost t: real)
    returns (ghost R': set<object>)
    requires Inners(qs, lines, R, all, t) && t <= now && p < |qs| && qs[p].CanAccept() && c !in R && c !in all
    modifies qs[p].Repr, c`queueInsertionTime
    ensures c.queueInsertionTime == now && R <= R' && fresh(R' - R) && c !in R'
    ensures Inners(qs, lines[p := lines[p] + [c]], R', all + [c], now)
  {
    hide QueueReady, Inner, Inners;
    InnersApart(qs, lines, R, all, t, p);
    JoinInner(qs[p], c, now, lines[p], R, all, t);
    R' := R + qs[p].Repr;
    forall j | 0 <= j < |qs| && j != p ensures QueueReady(qs[j], t) && Inner(qs[j], lines[j], R, all) {
    }
    InnersAgain(qs, p, lines, R, all, t, lines[p] + [c], R', all + [c], now);
  }

  method JoinInner(queue: Queue, c: Customer, now: real,
                   ghost line: seq<Customer>, ghost R: set<object>, ghost all: seq<Customer>, ghost t: real)
    requires Inner(queue, line, R, all) && QueueReady(queue, t) && t <= now && queue.CanAccept()
    requires c !in queue.Repr && c !in line
    modifies queue.Repr, c`queueInsertionTime
    ensures Inner(queue, line + [c], R + queue.Repr, all + [c]) && QueueReady(queue, now)
    ensures fresh(queue.Repr - old(queue.Repr)) && c.queueInsertionTime == now
  {
    queue.Enqueue(c, now);
  }

  /** A customer goes to the front of line p. */
  method JoinLineAtHead(qs: seq<Queue>, p: nat, c: Customer, now: real,
                        ghost lines: seq<seq<Customer>>, ghost R: set<object>, ghost all: seq<Customer>, ghost t: real)
    returns (ghost R': set<object>)
    requires Inners(qs, lines, R, all, t) && t <= now && p < |qs| && qs[p].CanAccept() && c !in R && c !in all
    modifies qs[p].Repr, c`queueInsertionTime
    ensures c.queueInsertionTime == now && R <= R' && fresh(R' - R) && c !in R'
    ensures Inners(qs, lines[p := [c] + lines[p]], R', all + [c], now)
  {
    hide QueueReady, Inner, Inners;
    InnersApart(qs, lines, R, all, t, p);
    JoinInnerAtHead(qs[p], c, now, lines[p], R, all, t);
    R' := R + qs[p].Repr;
    forall j | 0 <= j < |qs| && j != p ensures QueueReady(qs[j], t) && Inner(qs[j], lines[j], R, all) {
    }
    InnersAgain(qs, p, lines, R, all, t, [c] + lines[p], R', all + [c], now);
  }

  method JoinInnerAtHead(queue: Queue, c: Customer, now: real,
                         ghost line: seq<Customer>, ghost R: set<object>, ghost all: seq<Customer>, ghost t: real)
    requires Inner(queue, line, R, all) && QueueReady(queue, t) && t <= now && queue.CanAccept()
    requires c !in queue.Repr && c !in line
    modifies queue.Repr, c`queueInsertionTime
    ensures Inner(queue, [c] + line, R + queue.Repr, all + [c]) && QueueReady(queue, now)
    ensures fresh(queue.Repr - old(queue.Repr)) && c.queueInsertionTime == now
  {
    queue.EnqueueAtHead(c, now);
  }

  /** The head of line p leaves. */
  method LeaveLine(qs: seq<Queue>, p: nat, now: real,
                   ghost lines: seq<seq<Customer>>, ghost R: set<object>, ghost all: seq<Customer>, ghost t: real)
    returns (c: Customer)
    requires Inners(qs, lines, R, all, t) && t <= now && p < |qs| && qs[p].pop > 0
    modifies qs[p].Repr
    ensures lines[p] != [] && c == lines[p][0]
    ensures Inners(qs, lines[p := lines[p][1..]], R, all, now)
  {
    c := LeaveInner(qs[p], now, t);
    hide QueueReady, Inner;
    forall j | 0 <= j < |qs| && j != p ensures QueueReady(qs[j], t) && Inner(qs[j], lines[j], R, all) {
    }
    InnersAgain(qs, p, lines, R, all, t, lines[p][1..], R, all, now);
  }

  method LeaveInner(queue: Queue, now: real, ghost t: real) returns (c: Customer)
    requires QueueReady(queue, t) && t <= now && queue.pop > 0
    modifies queue.Repr
    ensures QueueReady(queue, now) && queue.Repr == old(queue.Repr)
    ensures old(queue.q.contents) != [] && c == old(queue.q.contents)[0]
    ensures queue.q.contents == old(queue.q.contents)[1..]
  {
    c := queue.Dequeue(now);
  }

  method HeadOf(queue: Queue, ghost t: real) returns (c: Customer)
    requires QueueReady(queue, t) && queue.pop > 0
    ensures queue.q.contents != [] && c == queue.q.contents[0]
  {
    c := queue.Head();
  }

  function Total(qs: seq<Queue>): nat
    reads qs
  {
    if qs == [] then 0 else qs[0].pop + Total(qs[1..])
  }

  lemma {:induction false} TotalIsLength(qs: seq<Queue>, lines: seq<seq<Customer>>)
    requires |lines| == |qs| && forall i :: 0 <= i < |qs| ==> qs[i].pop == |lines[i]|
    ensures Total(qs) == |Flatten(lines)|
  {
    if qs != [] { TotalIsLength(qs[1..], lines[1..]); }
  }

  lemma InnersOwned(qs: seq<Queue>, lines: seq<seq<Customer>>, R: set<object>, all: seq<Customer>, t: real)
    requires Inners(qs, lines, R, all, t)
    ensures |lines| == |qs| && forall i :: 0 <= i < |qs| ==> qs[i].Repr <= R
    ensures forall c :: c in all ==> c !in R
  {
  }

  /** The population of an inner queue is the length of its line. */
  lemma InnerPopulations(qs: seq<Queue>, lines: seq<seq<Customer>>, R: set<object>, all: seq<Customer>, t: real)
    requires Inners(qs, lines, R, all, t)
    ensures |lines| == |qs| && forall i :: 0 <= i < |qs| ==> qs[i].pop == |lines[i]| && qs[i].capacity == INT_MAX
  {
  }

  /** The capacity of an inner queue is never the limit. */
  lemma RoomInLine(qs: seq<Queue>, lines: seq<seq<Customer>>, R: set<object>, all: seq<Customer>, t: real, i: nat)
    requires Inners(qs, lines, R, all, t) && i < |qs| && |Flatten(lines)| < INT_MAX
    ensures qs[i].CanAccept()
  {
    InnerPopulations(qs, lines, R, all, t);
    FlattenSplits(lines, i);
  }

  lemma Rearranged(s: seq<Customer>, k: nat, c: Customer)
    requires k <= |s|
    ensures forall x :: x in s[..k] + [c] + s[k..] ==> x in s + [c]
  {
  }

  method NewInner() returns (queue: Queue)
    ensures Inner(queue, [], queue.Repr, []) && QueueReady(queue, 0.0) && fresh(queue.Repr)
  {
    queue := new Queue(FIFO, INT_MAX);
  }

  lemma InnersAdded(qs: seq<Queue>, lines: seq<seq<Customer>>, R: set<object>, queue: Queue)
    requires Inners(qs, lines, R, [], 0.0)
    requires Inner(queue, [], queue.Repr, []) && QueueReady(queue, 0.0) && R !! queue.Repr
    ensures Inners(qs + [queue], lines + [[]], R + queue.Repr, [], 0.0)
  {
  }

  method NewInners(n: nat) returns (qs: seq<Queue>, ghost lines: seq<seq<Customer>>, ghost R: set<object>)
    ensures |qs| == n && fresh(R) && Inners(qs, lines, R, [], 0.0) && |lines| == n
    ensures forall i :: 0 <= i < n ==> lines[i] == []
  {
    qs, lines, R := [], [], {};
    assert Inners(qs, lines, R, [], 0.0);
    hide Inners, Inner, QueueReady;
    for i := 0 to n
      invariant |qs| == i && fresh(R) && Inners(qs, lines, R, [], 0.0) && |lines| == i
      invariant forall k :: 0 <= k < i ==> lines[k] == []
    {
      var queue := NewInner();
      InnersAdded(qs, lines, R, queue);
      qs, lines, R := qs + [queue], lines + [[]], R + queue.Repr;
    }
  }

  /** One queue for each priority, each with its own population and measures. */
  class PriorityQueue {
    const nqueues: nat
    const qs: seq<Queue>
    const measures: QueueMeasures
    var pop: nat

    /** What the inner queues hold and are made of, and the single line. */
    ghost var lines: seq<seq<Customer>>
    ghost var Repr: set<object>
    ghost var line: seq<Customer>

    ghost predicate Outside(R: set<object>) {
      this !in R && measures !in R && measures.popMeasure !in R && measures.queueingTime !in R
    }

    ghost predicate Valid()
      reads this, qs, Repr, line, measures, measures.popMeasure, measures.queueingTime
    {
      && Outside(Repr) && |qs| == nqueues == |lines|
      && Inners(qs, lines, Repr, line, measures.Clock())
      && line == Flatten(lines) && ByPriority(lines, 0)
      && measures.Valid() && Timed(line, measures.inside)
      && pop == |line| <= INT_MAX
    }

    constructor (n: nat)
      ensures Valid() && nqueues == n && line == [] && fresh(Repr)
      ensures fresh(measures) && fresh(measures.popMeasure) && fresh(measures.queueingTime)
      ensures measures.popMeasure.changes == [] && measures.queueingTime.samples == []
    {
      hide Inners, Balanced, Flatten, ByPriority;
      var inner, ls, R := NewInners(n);
      nqueues, qs, pop := n, inner, 0;
      lines, Repr, line := ls, R, [];
      measures := new QueueMeasures();
      new;
      FlattenEmpty(lines);
      NobodyInLine(lines);
    }

    /** The capacity test of the base class: the override in the source is not virtual. */
    predicate CanAccept()
      reads this
    {
      pop < INT_MAX
    }

    /** There is room exactly while fewer than INT_MAX wait in all; then the override, which asks the queue of
        the customer's priority, would say so too, but not the other way round. */
    lemma AcceptsUntilFull(p: nat)
      requires Valid() && p < nqueues
      ensures CanAccept() <==> |line| < INT_MAX
      ensures CanAccept() ==> qs[p].CanAccept()
      ensures qs[p].CanAccept() && !CanAccept() ==> exists i :: 0 <= i < nqueues && i != p && lines[i] != []
    {
      InnerPopulations(qs, lines, Repr, line, measures.Clock());
      FlattenSplits(lines, p);
      if forall i :: 0 <= i < nqueues && i != p ==> lines[i] == [] { OthersEmpty(lines, p); }
    }

    /** The population is the sum of the inner populations. */
    lemma PopulationIsSum()
      requires Valid()
      ensures pop == Total(qs)
    {
      InnerPopulations(qs, lines, Repr, line, measures.Clock());
      TotalIsLength(qs, lines);
    }

    /** Stable insertion by priority into the single line. */
    method Enqueue(c: Customer, now: real)
      requires Valid() && c !in Repr && c !in line && c.priority < nqueues
      requires CanAccept() && measures.Clock() <= now
      modifies this`pop, this`lines, this`line, this`Repr, Repr
      modifies measures, measures.popMeasure, measures.queueingTime, c`queueInsertionTime
      ensures Valid() && fresh(Repr - old(Repr)) && c.queueInsertionTime == now && measures.Clock() == now
      ensures line == Inserted(ByNotLower(), old(line), c)
      ensures measures.popMeasure.changes == old(measures.popMeasure.changes) + [Change(now, pop as real)]
      ensures measures.queueingTime.samples == old(measures.queueingTime.samples)
    {
      hide Balanced, Flatten, Inserted, Inners, ByPriority, Timed, LastTime;
      var priority := c.priority;
      ghost var ls := lines[priority := lines[priority] + [c]];
      EnqueueIsStableInsertion(lines, c);
      StaysByPriority(lines, c);
      InnersOwned(qs, lines, Repr, line, measures.Clock());
      RoomInLine(qs, lines, Repr, line, measures.Clock(), priority);
      ghost var k := InsertedAt(ByNotLower(), line, c);
      c.queueInsertionTime := now;
      ghost var R := JoinLine(qs, priority, c, now, lines, Repr, line, measures.Clock());
      CountArrival(c, now, k, ls, R);
    }

    /** Ahead of everyone of the same priority. */
    method EnqueueAtHead(c: Customer, now: real)
      requires Valid() && c !in Repr && c !in line && c.priority < nqueues
      requires CanAccept() && measures.Clock() <= now
      modifies this`pop, this`lines, this`line, this`Repr, Repr
      modifies measures, measures.popMeasure, measures.queueingTime, c`queueInsertionTime
      ensures Valid() && fresh(Repr - old(Repr)) && c.queueInsertionTime == now && measures.Clock() == now
      ensures line == Inserted(ByHigher(), old(line), c)
      ensures measures.popMeasure.changes == old(measures.popMeasure.changes) + [Change(now, pop as real)]
      ensures measures.queueingTime.samples == old(measures.queueingTime.samples)
    {
      hide Balanced, Flatten, Inserted, Inners, ByPriority, Timed, LastTime;
      var priority := c.priority;
      ghost var ls := lines[priority := [c] + lines[priority]];
      EnqueueAtHeadIsInsertion(lines, c);
      StaysByPriority(lines, c);
      InnersOwned(qs, lines, Repr, line, measures.Clock());
      RoomInLine(qs, lines, Repr, line, measures.Clock(), priority);
      ghost var k := InsertedAt(ByHigher(), line, c);
      c.queueInsertionTime := now;
      ghost var R := JoinLineAtHead(qs, priority, c, now, lines, Repr, line, measures.Clock());
      CountArrival(c, now, k, ls, R);
    }

    /** The rest of an insertion, at position k of the single line. */
    method CountArrival(c: Customer, now: real, ghost k: nat, ghost ls: seq<seq<Customer>>, ghost R: set<object>)
      requires Outside(R) && |qs| == nqueues == |ls|
      requires k <= |line| == pop < INT_MAX && c.queueInsertionTime == now
      requires Inners(qs, ls, R, line + [c], now) && ByPriority(ls, 0)
      requires Flatten(ls) == line[..k] + [c] + line[k..]
      requires measures.Valid() && Timed(line, measures.inside) && measures.Clock() <= now
      modifies this`pop, this`lines, this`line, this`Repr, measures, measures.popMeasure, measures.queueingTime
      ensures Valid() && measures.Clock() == now && Repr == R && line == Flatten(ls)
      ensures measures.popMeasure.changes == old(measures.popMeasure.changes) + [Change(now, pop as real)]
      ensures measures.queueingTime.samples == old(measures.queueingTime.samples)
    {
      hide Balanced, Flatten, Inners, ByPriority, Timed, LastTime;
      Rearranged(line, k, c);
      InnersOnly(qs, ls, R, line + [c], now);
      TimedLength(line, measures.inside);
      TimedInserted(line, measures.inside, k, c);
      pop := pop + 1;
      RecordArrival(measures, now, pop, k, qs, ls, R, Flatten(ls));
      lines, line, Repr := ls, Flatten(ls), R;
    }

    /** The first queue with anyone in it. The source reports an impossible state after the loop; it is not
        reached from a queue that is not empty. */
    method FirstNonEmpty() returns (i: nat)
      requires Valid() && pop > 0
      ensures i < nqueues && qs[i].pop > 0 && lines[i] != [] && forall k :: 0 <= k < i ==> lines[k] == []
    {
      InnerPopulations(qs, lines, Repr, line, measures.Clock());
      FlattenEmpty(lines);
      i := 0;
      while qs[i].pop == 0
        invariant i < nqueues && forall k :: 0 <= k < i ==> qs[k].pop == 0
        decreases nqueues - i
      {
        i := i + 1;
      }
    }

    method Head() returns (c: Customer)
      requires Valid() && pop > 0
      ensures line != [] && c == line[0] && forall x :: x in line ==> c.priority <= x.priority
    {
      HeadIsHighest(lines, 0);
      var i := FirstNonEmpty();
      c := HeadOf(qs[i], measures.Clock());
      FirstLineIsHead(lines, i);
    }

    /** Removes what `Head` returns. */
    method Dequeue(now: real) returns (c: Customer)
      requires Valid() && pop > 0 && measures.Clock() <= now
      modifies this`pop, this`lines, this`line, Repr, measures, measures.popMeasure, measures.queueingTime
      ensures Valid() && Repr == old(Repr) && old(line) != [] && measures.Clock() == now
      ensures c == old(line)[0] && line == old(line)[1..]
      ensures forall x :: x in old(line) ==> c.priority <= x.priority
      ensures measures.popMeasure.changes == old(measures.popMeasure.changes) + [Change(now, pop as real)]
      ensures measures.queueingTime.samples == old(measures.queueingTime.samples) + [now - c.queueInsertionTime]
    {
      hide Balanced, Flatten, Inners, ByPriority, Timed, LastTime;
      HeadIsHighest(lines, 0);
      var i := FirstNonEmpty();
      FirstLineIsHead(lines, i);
      StillByPriority(lines, i);
      InnersOwned(qs, lines, Repr, line, measures.Clock());
      c := LeaveLine(qs, i, now, lines, Repr, line, measures.Clock());
      CountDeparture(c, now, lines[i := lines[i][1..]]);
    }

    method CountDeparture(c: Customer, now: real, ghost ls: seq<seq<Customer>>)
      requires Outside(Repr) && |qs| == nqueues == |ls|
      requires Inners(qs, ls, Repr, line, now) && ByPriority(ls, 0)
      requires line != [] && c == line[0] && Flatten(ls) == line[1..] && pop == |line| <= INT_MAX
      requires measures.Valid() && Timed(line, measures.inside) && measures.Clock() <= now
      modifies this`pop, this`lines, this`line, measures, measures.popMeasure, measures.queueingTime
      ensures Valid() && measures.Clock() == now && line == old(line)[1..]
      ensures measures.popMeasure.changes == old(measures.popMeasure.changes) + [Change(now, pop as real)]
      ensures measures.queueingTime.samples == old(measures.queueingTime.samples) + [now - c.queueInsertionTime]
    {
      hide Balanced, Flatten, Inners, ByPriority, Timed, LastTime;
      InnersOnly(qs, ls, Repr, line, now);
      TimedTail(line, measures.inside, c);
      pop := pop - 1;
      RecordDeparture(measures, now, pop, c, qs, ls, Repr, line[1..]);
      lines, line := ls, line[1..];
    }
  }

  /** The outer measures are no part of the inner queues. */
  method RecordArrival(measures: QueueMeasures, now: real, pop: nat, ghost k: nat, ghost qs: seq<Queue>,
                       ghost lines: seq<seq<Customer>>, ghost R: set<object>, ghost line: seq<Customer>)
    requires Inners(qs, lines, R, line, now)
    requires measures !in R && measures.popMeasure !in R && measures.queueingTime !in R
    requires measures.Valid() && measures.Clock() <= now && k <= |measures.inside| && pop == |measures.inside| + 1
    requires Timed(line, measures.inside[..k] + [now] + measures.inside[k..])
    modifies measures, measures.popMeasure, measures.queueingTime
    ensures Inners(qs, lines, R, line, now)
    ensures measures.Valid() && measures.Clock() == now && Timed(line, measures.inside)
    ensures measures.popMeasure.changes == old(measures.popMeasure.changes) + [Change(now, pop as real)]
    ensures measures.queueingTime.samples == old(measures.queueingTime.samples)
  {
    hide Balanced, Inners, Timed;
    measures.RecordArrival(now, pop, k);
  }

  method RecordDeparture(measures: QueueMeasures, now: real, pop: nat, c: Customer,
                         ghost qs: seq<Queue>, ghost lines: seq<seq<Customer>>, ghost R: set<object>,
                         ghost line: seq<Customer>)
    requires Inners(qs, lines, R, line, now)
    requires measures !in R && measures.popMeasure !in R && measures.queueingTime !in R
    requires measures.Valid() && measures.Clock() <= now && measures.inside != [] && pop == |measures.inside| - 1
    requires c.queueInsertionTime == measures.inside[0] && Timed(line, measures.inside[1..])
    modifies measures, measures.popMeasure, measures.queueingTime
    ensures Inners(qs, lines, R, line, now)
    ensures measures.Valid() && measures.Clock() == now && Timed(line, measures.inside)
    ensures measures.popMeasure.changes == old(measures.popMeasure.changes) + [Change(now, pop as real)]
    ensures measures.queueingTime.samples == old(measures.queueingTime.samples) + [now - c.queueInsertionTime]
  {
    hide Balanced, Inners, Timed;
    measures.RecordDeparture(now, pop, c.queueInsertionTime);
  }

  lemma OthersEmpty(ss: seq<seq<Customer>>, p: nat)
    requires p < |ss| && forall i :: 0 <= i < |ss| && i != p ==> ss[i] == []
    ensures Flatten(ss) == ss[p]
  {
    FlattenSplits(ss, p);
    FlattenEmpty(ss[..p]);
    FlattenEmpty(ss[p + 1..]);
  }

  lemma NobodyInLine(lines: seq<seq<Customer>>)
    requires forall i :: 0 <= i < |lines| ==> lines[i] == []
    ensures ByPriority(lines, 0)
  {
  }
}
