/** The preemptive-resume node: an arrival deschedules the customer in service and puts it, with the
    service it still needs, at the head of the queue. */
module PreemptiveResume {
  import opened Workload

  /** A queued customer and its current service demand. */
  datatype Job = Job(id: nat, demand: real)

  /** A pending end-of-service event and the customer it carries. */
  datatype Ending = Ending(id: nat, time: real)

  /** The single server is claimed exactly when there is a customer in service, `inService`. Customers
      are numbered in the order of arrival. */
  datatype Node = Node(now: real, inService: Option<Ending>, queue: seq<Job>, arrivals: nat)

  /** What an observer who watches the server and the door writes down. */
  datatype Record =
    | Arrived(id: nat, time: real, demand: real)
    | Started(id: nat, time: real)
    | Preempted(id: nat, time: real)
    | Departed(id: nat, time: real)

  function InvokeService(s: Node, job: Job): (Node, seq<Record>) {
    (s.(inService := Some(Ending(job.id, s.now + job.demand))), [Started(job.id, s.now)])
  }

  function RemainingServiceTime(s: Node): real
    requires s.inService.Some?
  {
    s.inService.value.time - s.now
  }

  /** The customer in service goes back to the head of the queue. */
  function Preempt(s: Node): (Node, seq<Record>)
    requires s.inService.Some?
  {
    var id := s.inService.value.id;
    (s.(inService := None, queue := [Job(id, RemainingServiceTime(s))] + s.queue), [Preempted(id, s.now)])
  }

  function Accept(s: Node, demand: real): (Node, seq<Record>) {
    var t := s.(arrivals := s.arrivals + 1);
    var (u, log) := if s.inService.None? then (t, []) else Preempt(t);
    var (v, log') := InvokeService(u, Job(s.arrivals, demand));
    (v, [Arrived(s.arrivals, s.now, demand)] + log + log')
  }

  function ReleaseResource(s: Node): (Node, seq<Record>) {
    if s.queue == [] then (s, []) else InvokeService(s.(queue := s.queue[1..]), s.queue[0])
  }

  /** The customer is forwarded and leaves; then the server is released. */
  function Forward(s: Node): (Node, seq<Record>)
    requires s.inService.Some?
  {
    var (t, log) := ReleaseResource(s.(inService := None));
    (t, [Departed(s.inService.value.id, s.now)] + log)
  }

  predicate Possible(s: Node, step: Step) {
    match step
    case Advance(t) => s.now <= t && (s.inService.Some? ==> t <= s.inService.value.time)
    case Arrive(d) => d >= 0.0
    case Complete => s.inService.Some? && s.inService.value.time == s.now
  }

  function Do(s: Node, step: Step): (Node, seq<Record>)
    requires Possible(s, step)
  {
    match step
    case Advance(t) => (s.(now := t), [])
    case Arrive(d) => Accept(s, d)
    case Complete => Forward(s)
  }

  function Run(s: Node, steps: seq<Step>): Option<(Node, seq<Record>)>
    decreases |steps|
  {
    if steps == [] then Some((s, []))
    else if !Possible(s, steps[0]) then None
    else
      var (t, log) := Do(s, steps[0]);
      match Run(t, steps[1..])
      case None => None
      case Some((u, rest)) => Some((u, log + rest))
  }

  function Initial(): Node {
    Node(0.0, None, [], 0)
  }

  // ---- the customers inside form a stack ----

  function Ids(q: seq<Job>): seq<nat> {
    seq(|q|, i requires 0 <= i < |q| => q[i].id)
  }

  /** Everyone inside, the customer in service first. */
  function Inside(s: Node): seq<nat> {
    (if s.inService.Some? then [s.inService.value.id] else []) + Ids(s.queue)
  }

  /** Reads the record as pushes and pops. None if someone enters who is inside, or leaves who is not
      the last to have entered. */
  function Stack(log: seq<Record>): Option<seq<nat>> {
    if log == [] then Some([])
    else
      var r := log[|log| - 1];
      match Stack(log[..|log| - 1])
      case None => None
      case Some(st) =>
        if r.Arrived? then (if r.id in st then None else Some([r.id] + st))
        else if r.Departed? then (if st != [] && st[0] == r.id then Some(st[1..]) else None)
        else Some(st)
  }

  lemma {:induction false} StackConcatenate(a: seq<Record>, b: seq<Record>)
    requires Stack(a + b).Some?
    ensures Stack(a).Some?
    decreases |b|
  {
    if b == [] {
      assert a + b == a;
    } else {
      assert (a + b)[..|a + b| - 1] == a + b[..|b| - 1];
      StackConcatenate(a, b[..|b| - 1]);
    }
  }

  lemma StackPrefix(log: seq<Record>, n: nat)
    requires Stack(log).Some? && n <= |log|
    ensures Stack(log[..n]).Some?
  {
    assert log == log[..n] + log[n..];
    StackConcatenate(log[..n], log[n..]);
  }

  lemma StackStep(log: seq<Record>, n: nat)
    requires Stack(log).Some? && n < |log|
    ensures Stack(log[..n]).Some? && Stack(log[..n + 1]).Some?
    ensures var st, st' := Stack(log[..n]).value, Stack(log[..n + 1]).value;
      match log[n]
      case Arrived(i, _, _) => i !in st && st' == [i] + st
      case Departed(i, _) => st != [] && st[0] == i && st' == st[1..]
      case Started(_, _) => st' == st
      case Preempted(_, _) => st' == st
  {
    StackPrefix(log, n);
    StackPrefix(log, n + 1);
    assert log[..n + 1][..n] == log[..n];
  }

  /** `j` leaves between the two positions. */
  ghost predicate Leaves(log: seq<Record>, j: nat, from: nat, to: nat) {
    exists s :: from <= s < to && s < |log| && log[s].Departed? && log[s].id == j
  }

  ghost predicate Distinct(st: seq<nat>) {
    forall i, j :: 0 <= i < j < |st| ==> st[i] != st[j]
  }

  lemma {:induction false} StackDistinct(log: seq<Record>, n: nat)
    requires Stack(log).Some? && n <= |log|
    ensures Stack(log[..n]).Some? && Distinct(Stack(log[..n]).value)
    decreases n
  {
    if n > 0 {
      StackStep(log, n - 1);
      StackDistinct(log, n - 1);
    }
  }

  ghost predicate Below(st: seq<nat>, n: nat) {
    forall k :: 0 <= k < |st| ==> st[k] < n
  }

  ghost predicate EndsWith(st: seq<nat>, base: seq<nat>) {
    |base| <= |st| && st[|st| - |base|..] == base
  }

  /** As long as `j` does not leave, it and those under it stay where they are. */
  lemma {:induction false} BelowStays(log: seq<Record>, q: nat, n: nat, j: nat)
    requires Stack(log).Some? && q < n <= |log|
    requires log[q].Arrived? && log[q].id == j && !Leaves(log, j, q + 1, n)
    ensures Stack(log[..q]).Some? && Stack(log[..n]).Some?
    ensures EndsWith(Stack(log[..n]).value, [j] + Stack(log[..q]).value)
    decreases n
  {
    hide Stack;
    StackStep(log, q);
    StackStep(log, n - 1);
    if n > q + 1 {
      assert !Leaves(log, j, q + 1, n - 1);
      BelowStays(log, q, n - 1, j);
      var base := [j] + Stack(log[..q]).value;
      var st, st' := Stack(log[..n - 1]).value, Stack(log[..n]).value;
      var k := |st| - |base|;
      assert st[k] == st[k..][0] == j;
      if log[n - 1].Arrived? {
        assert st'[k + 1..] == st[k..];
      } else if log[n - 1].Departed? {
        assert k > 0;
        assert st'[k - 1..] == st[k..];
      }
    }
  }

  lemma TopIsNotBelow(st: seq<nat>, j: nat, base: seq<nat>, i: nat)
    requires Distinct(st) && EndsWith(st, [j] + base) && i in base
    ensures st != [] && st[0] != i
  {
    var k :| 0 <= k < |base| && base[k] == i;
    var at := |st| - |base| - 1;
    assert st[at + 1 + k] == st[at..][1 + k] == ([j] + base)[1 + k] == i;
  }

  /** In a record that reads as a stack, whoever arrives while `i` is inside leaves before `i` does. */
  lemma LaterLeavesFirst(log: seq<Record>, q: nat, r: nat)
    requires Stack(log).Some? && q < r < |log| && log[q].Arrived? && log[r].Departed?
    requires Stack(log[..q]).Some? && log[r].id in Stack(log[..q]).value
    ensures Leaves(log, log[q].id, q + 1, r)
  {
    hide Stack, Leaves, EndsWith, Distinct;
    StackDistinct(log, r);
    StackStep(log, r);
    if !Leaves(log, log[q].id, q + 1, r) {
      BelowStays(log, q, r, log[q].id);
      TopIsNotBelow(Stack(log[..r]).value, log[q].id, Stack(log[..q]).value, log[r].id);
    }
  }

  /** Visits are numbered in the order of arrival. */
  ghost predicate Numbered(log: seq<Record>, n: nat) {
    && (forall p :: 0 <= p < |log| && log[p].Arrived? ==> log[p].id < n)
    && (forall p, q :: 0 <= p < q < |log| && log[p].Arrived? && log[q].Arrived? ==> log[p].id < log[q].id)
  }

  lemma {:induction false} StaysOutside(log: seq<Record>, m: nat, n: nat, i: nat)
    requires Stack(log).Some? && m <= n <= |log|
    requires Stack(log[..m]).Some? && i !in Stack(log[..m]).value
    requires forall p :: m <= p < n && log[p].Arrived? ==> log[p].id != i
    ensures Stack(log[..n]).Some? && i !in Stack(log[..n]).value
    decreases n
  {
    hide Stack;
    if m < n {
      StackStep(log, n - 1);
      StaysOutside(log, m, n - 1, i);
    }
  }

  /** Sojourns in a numbered record that reads as a stack: if `i` arrives at p, `j` at q, later, and `i`
      leaves at r, then either r comes before q, or `j` leaves before r. */
  lemma NestedOrDisjoint(log: seq<Record>, n: nat, p: nat, q: nat, r: nat)
    requires Stack(log).Some? && Numbered(log, n)
    requires p < q < |log| && p < r < |log| && log[p].Arrived? && log[q].Arrived?
    requires log[r] == Departed(log[p].id, log[r].time)
    ensures r < q || Leaves(log, log[q].id, q + 1, r)
  {
    hide Stack;
    var i := log[p].id;
    if q < r {
      StackPrefix(log, q);
      StackStep(log, r);
      if i !in Stack(log[..q]).value { StaysOutside(log, q, r, i); }
      LaterLeavesFirst(log, q, r);
    }
  }

  lemma StackAppend(log: seq<Record>, r: Record)
    ensures Stack(log + [r]) ==
      match Stack(log)
      case None => None
      case Some(st) =>
        if r.Arrived? then (if r.id in st then None else Some([r.id] + st))
        else if r.Departed? then (if st != [] && st[0] == r.id then Some(st[1..]) else None)
        else Some(st)
  {
    assert (log + [r])[..|log|] == log;
  }

  // ---- service received ----

  /** The service a customer has had in completed intervals, and when the present one began. */
  datatype Meter = Meter(total: real, since: Option<real>)

  function Noted(m: Meter, r: Record, i: nat): Meter {
    if r.id != i then m
    else
      match r
      case Arrived(_, _, _) => m
      case Started(_, t) => m.(since := Some(t))
      case Preempted(_, t) => Stopped(m, t)
      case Departed(_, t) => Stopped(m, t)
  }

  function Stopped(m: Meter, t: real): Meter {
    if m.since.None? then m else Meter(m.total + (t - m.since.value), None)
  }

  /** What the record says about the service of customer `i`. */
  function Received(log: seq<Record>, i: nat): Meter {
    if log == [] then Meter(0.0, None) else Noted(Received(log[..|log| - 1], i), log[|log| - 1], i)
  }

  /** The demand sampled for customer `i`. */
  function Demand(log: seq<Record>, i: nat): real {
    if log == [] then 0.0
    else if log[|log| - 1].Arrived? && log[|log| - 1].id == i then log[|log| - 1].demand
    else Demand(log[..|log| - 1], i)
  }

  /** Service received and service owed make up the sampled demand, for everyone who ever entered. */
  ghost predicate Conserves(s: Node, log: seq<Record>) {
    && (s.inService.Some? ==> InServiceConserves(s.inService.value, log))
    && (forall k :: 0 <= k < |s.queue| ==> QueuedConserves(s.queue[k], log))
    && (forall i: nat :: i < s.arrivals && i !in Inside(s) ==> Received(log, i) == Meter(Demand(log, i), None))
    && (forall i: nat :: i >= s.arrivals ==> Received(log, i) == Meter(0.0, None))
  }

  ghost predicate InServiceConserves(e: Ending, log: seq<Record>) {
    var m := Received(log, e.id);
    m.since.Some? && m.total + (e.time - m.since.value) == Demand(log, e.id)
  }

  ghost predicate QueuedConserves(j: Job, log: seq<Record>) {
    var m := Received(log, j.id);
    m.since.None? && m.total + j.demand == Demand(log, j.id)
  }

  lemma ReceivedAppend(log: seq<Record>, r: Record, i: nat)
    ensures Received(log + [r], i) == Noted(Received(log, i), r, i)
    ensures Demand(log + [r], i) == if r.Arrived? && r.id == i then r.demand else Demand(log, i)
  {
    assert (log + [r])[..|log|] == log;
  }

  /** Records that do not mention `i` say nothing about it. */
  lemma {:induction false} NotMentioned(log: seq<Record>, more: seq<Record>, i: nat)
    requires forall k :: 0 <= k < |more| ==> more[k].id != i
    ensures Received(log + more, i) == Received(log, i) && Demand(log + more, i) == Demand(log, i)
    decreases |more|
  {
    if more == [] {
      assert log + more == log;
    } else {
      var n := |more| - 1;
      assert log + more == (log + more[..n]) + [more[n]];
      NotMentioned(log, more[..n], i);
      ReceivedAppend(log + more[..n], more[n], i);
    }
  }

  /** The state and the record of a run belong together. */
  ghost predicate Inv(s: Node, log: seq<Record>) {
    && Stack(log) == Some(Inside(s))
    && Numbered(log, s.arrivals)
    && Below(Inside(s), s.arrivals)
    && Distinct(Inside(s))
    && Conserves(s, log)
  }

  lemma IdsCons(j: Job, q: seq<Job>)
    ensures Ids([j] + q) == [j.id] + Ids(q)
  {
  }

  lemma IdsTail(q: seq<Job>)
    requires q != []
    ensures Ids(q) == [q[0].id] + Ids(q[1..])
  {
  }

  lemma AcceptIs(s: Node, d: real)
    ensures var (t, log) := Accept(s, d);
      && t.inService == Some(Ending(s.arrivals, s.now + d)) && t.now == s.now && t.arrivals == s.arrivals + 1
      && Inside(t) == [s.arrivals] + Inside(s)
      && (s.inService.None? ==> t.queue == s.queue)
      && (s.inService.Some? ==> t.queue == [Job(s.inService.value.id, RemainingServiceTime(s))] + s.queue)
      && log == [Arrived(s.arrivals, s.now, d)] + PreemptedRecords(s) + [Started(s.arrivals, s.now)]
  {
    if s.inService.Some? { IdsCons(Job(s.inService.value.id, RemainingServiceTime(s)), s.queue); }
  }

  function PreemptedRecords(s: Node): seq<Record> {
    if s.inService.Some? then [Preempted(s.inService.value.id, s.now)] else []
  }

  lemma AcceptStacks(s: Node, log: seq<Record>, d: real)
    requires Inv(s, log)
    ensures var (t, more) := Accept(s, d); Stack(log + more) == Some(Inside(t)) && Numbered(log + more, t.arrivals)
    ensures var t := Accept(s, d).0; Below(Inside(t), t.arrivals) && Distinct(Inside(t))
  {
    var (t, more) := Accept(s, d);
    AcceptIs(s, d);
    hide Accept, Inside, Conserves, Stack;
    var a := log + [more[0]];
    StackAppend(log, more[0]);
    var b := a + PreemptedRecords(s);
    if s.inService.Some? { StackAppend(a, more[1]); } else { assert b == a; }
    StackAppend(b, more[|more| - 1]);
    assert log + more == b + [more[|more| - 1]];
  }

  lemma AcceptConserves(s: Node, log: seq<Record>, d: real)
    requires Inv(s, log)
    ensures var (t, more) := Accept(s, d); Conserves(t, log + more)
  {
    var (t, more) := Accept(s, d);
    AcceptIs(s, d);
    hide Accept, Stack, Numbered;
    var all := log + more;
    var n := s.arrivals;
    AcceptedMeter(s, log, d);
    if s.inService.Some? { PreemptedMeter(s, log, d); }
    forall i: nat | i != n && (s.inService.Some? ==> i != s.inService.value.id)
      ensures Received(all, i) == Received(log, i) && Demand(all, i) == Demand(log, i)
    {
      NotMentioned(log, more, i);
    }
    forall k | 0 <= k < |t.queue| ensures QueuedConserves(t.queue[k], all) {
      var offset := |t.queue| - |s.queue|;
      if k >= offset {
        var j := s.queue[k - offset];
        assert t.queue[k] == j && QueuedConserves(j, log);
        QueuedIsInside(s, k - offset);
      }
    }
    forall i: nat | i < t.arrivals && i !in Inside(t) ensures Received(all, i) == Meter(Demand(all, i), None) {
      assert i !in Inside(s) && i != n;
      if s.inService.Some? { assert Inside(s)[0] == s.inService.value.id; }
    }
    forall i: nat | i >= t.arrivals ensures Received(all, i) == Meter(0.0, None) {
      if s.inService.Some? { assert Inside(s)[0] == s.inService.value.id; }
    }
  }

  lemma QueuedIsInside(s: Node, k: nat)
    requires k < |s.queue| && Distinct(Inside(s))
    ensures s.queue[k].id in Inside(s)
    ensures s.inService.Some? ==> s.queue[k].id != s.inService.value.id
    ensures forall l :: 0 <= l < |s.queue| && l != k ==> s.queue[l].id != s.queue[k].id
  {
    var c := if s.inService.Some? then 1 else 0;
    assert Inside(s)[c + k] == s.queue[k].id;
    if c == 1 { assert Inside(s)[0] == s.inService.value.id; }
    forall l | 0 <= l < |s.queue| && l != k ensures s.queue[l].id != s.queue[k].id {
      assert Inside(s)[c + l] == s.queue[l].id;
    }
  }

  lemma AcceptedMeter(s: Node, log: seq<Record>, d: real)
    requires Inv(s, log)
    ensures var (t, more) := Accept(s, d); InServiceConserves(t.inService.value, log + more)
  {
    var (t, more) := Accept(s, d);
    AcceptIs(s, d);
    hide Accept, Stack, Numbered;
    var n := s.arrivals;
    var a := log + [more[0]];
    ReceivedAppend(log, more[0], n);
    var b := a + PreemptedRecords(s);
    if s.inService.Some? {
      assert Inside(s)[0] == s.inService.value.id;
      NotMentioned(a, PreemptedRecords(s), n);
    } else {
      assert b == a;
    }
    ReceivedAppend(b, more[|more| - 1], n);
    assert log + more == b + [more[|more| - 1]];
  }

  lemma PreemptedMeter(s: Node, log: seq<Record>, d: real)
    requires Inv(s, log) && s.inService.Some?
    ensures var (t, more) := Accept(s, d); QueuedConserves(t.queue[0], log + more)
  {
    var (t, more) := Accept(s, d);
    AcceptIs(s, d);
    hide Accept, Stack, Numbered;
    var c := s.inService.value.id;
    assert Inside(s)[0] == c;
    assert more == [more[0], more[1], more[2]];
    assert log + more == ((log + [more[0]]) + [more[1]]) + [more[2]];
    ReceivedAppend(log, more[0], c);
    ReceivedAppend(log + [more[0]], more[1], c);
    ReceivedAppend((log + [more[0]]) + [more[1]], more[2], c);
  }

  // ---- departures ----

  function ResumedRecords(s: Node): seq<Record> {
    if s.queue == [] then [] else [Started(s.queue[0].id, s.now)]
  }

  lemma ForwardIs(s: Node)
    requires s.inService.Some?
    ensures var (t, log) := Forward(s);
      && t.now == s.now && t.arrivals == s.arrivals
      && Inside(s) == [s.inService.value.id] + Inside(t)
      && log == [Departed(s.inService.value.id, s.now)] + ResumedRecords(s)
      && (s.queue == [] ==> t.queue == [] && t.inService == None)
      && (s.queue != [] ==>
            t.queue == s.queue[1..] && t.inService == Some(Ending(s.queue[0].id, s.now + s.queue[0].demand)))
  {
    if s.queue != [] { IdsTail(s.queue); }
  }

  lemma TailOfDistinct(c: nat, st: seq<nat>, n: nat)
    requires Distinct([c] + st) && Below([c] + st, n)
    ensures Distinct(st) && Below(st, n) && ([c] + st)[1..] == st
  {
    assert forall k :: 0 <= k < |st| ==> st[k] == ([c] + st)[k + 1];
  }

  lemma NobodyArrives(log: seq<Record>, more: seq<Record>, n: nat)
    requires Numbered(log, n) && forall k :: 0 <= k < |more| ==> !more[k].Arrived?
    ensures Numbered(log + more, n)
  {
  }

  lemma ForwardStacks(s: Node, log: seq<Record>)
    requires Inv(s, log) && s.inService.Some?
    ensures var (t, more) := Forward(s); Stack(log + more) == Some(Inside(t)) && Numbered(log + more, t.arrivals)
    ensures var t := Forward(s).0; Below(Inside(t), t.arrivals) && Distinct(Inside(t))
  {
    var (t, more) := Forward(s);
    ForwardIs(s);
    hide Forward, Inside, Conserves, Stack;
    TailOfDistinct(s.inService.value.id, Inside(t), s.arrivals);
    NobodyArrives(log, more, s.arrivals);
    hide Distinct, Below, Numbered;
    StackAppend(log, more[0]);
    var a := log + [more[0]];
    if s.queue != [] {
      StackAppend(a, more[1]);
      assert log + more == a + [more[1]];
    } else {
      assert log + more == a;
    }
  }

  lemma ForwardConserves(s: Node, log: seq<Record>)
    requires Inv(s, log) && s.inService.Some? && s.inService.value.time == s.now
    ensures var (t, more) := Forward(s); Conserves(t, log + more)
  {
    var (t, more) := Forward(s);
    ForwardIs(s);
    hide Forward, Stack, Numbered;
    var all := log + more;
    var c := s.inService.value.id;
    assert Inside(s)[0] == c;
    DepartedMeter(s, log);
    if s.queue != [] { ResumedMeter(s, log); QueuedIsInside(s, 0); }
    forall i: nat | i != c && (s.queue != [] ==> i != s.queue[0].id)
      ensures Received(all, i) == Received(log, i) && Demand(all, i) == Demand(log, i)
    {
      NotMentioned(log, more, i);
    }
    forall k | 0 <= k < |t.queue| ensures QueuedConserves(t.queue[k], all) {
      assert t.queue[k] == s.queue[k + 1];
      assert QueuedConserves(s.queue[k + 1], log);
      QueuedIsInside(s, k + 1);
    }
    forall i: nat | i < t.arrivals && i !in Inside(t) ensures Received(all, i) == Meter(Demand(all, i), None) {
      if i != c { assert i !in Inside(s); }
    }
  }

  lemma DepartedMeter(s: Node, log: seq<Record>)
    requires Inv(s, log) && s.inService.Some? && s.inService.value.time == s.now
    ensures var all, c := log + Forward(s).1, s.inService.value.id; Received(all, c) == Meter(Demand(all, c), None)
  {
    var more, c := Forward(s).1, s.inService.value.id;
    ForwardIs(s);
    hide Forward, Stack, Numbered;
    ReceivedAppend(log, more[0], c);
    if s.queue != [] { QueuedIsInside(s, 0); }
    NotMentioned(log + [more[0]], ResumedRecords(s), c);
    assert log + more == (log + [more[0]]) + ResumedRecords(s);
  }

  lemma ResumedMeter(s: Node, log: seq<Record>)
    requires Inv(s, log) && s.inService.Some? && s.queue != []
    ensures var (t, more) := Forward(s); InServiceConserves(t.inService.value, log + more)
  {
    var (t, more) := Forward(s);
    ForwardIs(s);
    hide Forward, Stack, Numbered;
    var h := s.queue[0].id;
    QueuedIsInside(s, 0);
    assert QueuedConserves(s.queue[0], log);
    ReceivedAppend(log, more[0], h);
    ReceivedAppend(log + [more[0]], more[1], h);
    assert log + more == (log + [more[0]]) + [more[1]];
  }

  // ---- whole runs ----

  lemma DoKeeps(s: Node, log: seq<Record>, step: Step)
    requires Inv(s, log) && Possible(s, step)
    ensures Inv(Do(s, step).0, log + Do(s, step).1)
  {
    match step
    case Advance(t) =>
      hide Received, Demand, Stack;
      assert log + [] == log;
      assert Inside(s.(now := t)) == Inside(s);
    case Arrive(d) =>
      hide Accept, Conserves, Stack, Inside, Numbered, Distinct;
      AcceptStacks(s, log, d);
      AcceptConserves(s, log, d);
    case Complete =>
      hide Forward, Conserves, Stack, Inside, Numbered, Distinct;
      ForwardStacks(s, log);
      ForwardConserves(s, log);
  }

  lemma {:induction false} RunKeeps(s: Node, before: seq<Record>, steps: seq<Step>)
    requires Inv(s, before) && Run(s, steps).Some?
    ensures var (t, log) := Run(s, steps).value; Inv(t, before + log)
    decreases |steps|
  {
    hide Inv, Possible, Do;
    if steps == [] {
      assert before + [] == before;
    } else {
      var (t, log) := Do(s, steps[0]);
      DoKeeps(s, before, steps[0]);
      RunKeeps(t, before + log, steps[1..]);
      var rest := Run(t, steps[1..]).value.1;
      assert (before + log) + rest == before + (log + rest);
    }
  }

  lemma InitialInv()
    ensures Inv(Initial(), [])
  {
    assert Inside(Initial()) == [];
    assert Stack([]) == Some([]);
    hide Stack, Inside;
    assert Numbered([], 0) && Below([], 0) && Distinct([]);
    assert Conserves(Initial(), []) by { hide Demand; }
  }

  lemma RunFromInitial(steps: seq<Step>)
    requires Run(Initial(), steps).Some?
    ensures Inv(Run(Initial(), steps).value.0, Run(Initial(), steps).value.1)
  {
    InitialInv();
    hide Inv;
    RunKeeps(Initial(), [], steps);
    assert [] + Run(Initial(), steps).value.1 == Run(Initial(), steps).value.1;
  }

  lemma LeaverIsOutside(s: Node, log: seq<Record>, r: nat)
    requires Inv(s, log) && r < |log| && log[r].Departed?
    ensures log[r].id !in Inside(s) && log[r].id < s.arrivals
  {
    hide Stack, Inside, Conserves;
    var i := log[r].id;
    StackStep(log, r);
    StackDistinct(log, r);
    var st := Stack(log[..r]).value;
    var p := EnteredBefore(log, r, i);
    StaysOutside(log, r + 1, |log|, i);
    assert log[..|log|] == log;
  }

  /** Whoever is inside has come in. */
  lemma {:induction false} EnteredBefore(log: seq<Record>, n: nat, i: nat) returns (p: nat)
    requires Stack(log).Some? && n <= |log| && Stack(log[..n]).Some? && i in Stack(log[..n]).value
    ensures p < n && log[p].Arrived? && log[p].id == i
    decreases n
  {
    hide Stack;
    if n == 0 {
      EmptyStack(log);
    } else {
      StackStep(log, n - 1);
      if log[n - 1].Arrived? && log[n - 1].id == i { p := n - 1; } else { p := EnteredBefore(log, n - 1, i); }
    }
  }

  lemma EmptyStack(log: seq<Record>)
    ensures Stack(log[..0]) == Some([])
  {
  }

  /** No work is lost: over every run, each customer that has left had, over all its service intervals
      together, exactly the demand sampled when it entered. */
  lemma ServedExactly(steps: seq<Step>, r: nat)
    requires Run(Initial(), steps).Some?
    requires r < |Run(Initial(), steps).value.1| && Run(Initial(), steps).value.1[r].Departed?
    ensures var log := Run(Initial(), steps).value.1;
      Received(log, log[r].id) == Meter(Demand(log, log[r].id), None)
  {
    hide Run, Received, Demand, Stack;
    RunFromInitial(steps);
    var (s, log) := Run(Initial(), steps).value;
    LeaverIsOutside(s, log, r);
  }

  /** Those still inside have had exactly their demand less what they are still owed. */
  lemma OwedExactly(steps: seq<Step>, i: nat)
    requires Run(Initial(), steps).Some?
    ensures var (s, log) := Run(Initial(), steps).value;
      && (s.inService.Some? && i == s.inService.value.id ==>
            Received(log, i).since.Some?
            && Received(log, i).total + (s.now - Received(log, i).since.value)
               == Demand(log, i) - RemainingServiceTime(s))
      && (forall k :: 0 <= k < |s.queue| && s.queue[k].id == i ==>
            Received(log, i) == Meter(Demand(log, i) - s.queue[k].demand, None))
      && (Received(log, i).since.Some? <==> s.inService.Some? && i == s.inService.value.id)
  {
    hide Run, Received, Demand, Stack, Numbered;
    RunFromInitial(steps);
    var (s, log) := Run(Initial(), steps).value;
    if i < s.arrivals && i in Inside(s) && !(s.inService.Some? && i == s.inService.value.id) {
      var n := if s.inService.Some? then 1 else 0;
      var k :| 0 <= k < |Inside(s)| && Inside(s)[k] == i;
      assert QueuedConserves(s.queue[k - n], log);
    }
    forall k | 0 <= k < |s.queue| && s.queue[k].id == i
      ensures Received(log, i) == Meter(Demand(log, i) - s.queue[k].demand, None)
    {
      assert QueuedConserves(s.queue[k], log);
    }
  }

  /** The node is a stack: over every run, of two customers the one that came later either comes after
      the other has left or leaves before it. */
  lemma SojournsNestedOrDisjoint(steps: seq<Step>, p: nat, q: nat, r: nat)
    requires Run(Initial(), steps).Some?
    requires var log := Run(Initial(), steps).value.1;
      && p < q < |log| && p < r < |log| && log[p].Arrived? && log[q].Arrived?
      && log[r].Departed? && log[r].id == log[p].id
    ensures var log := Run(Initial(), steps).value.1;
      r < q || Leaves(log, log[q].id, q + 1, r)
  {
    hide Run, Stack, Numbered, Leaves;
    RunFromInitial(steps);
    var (s, log) := Run(Initial(), steps).value;
    NestedOrDisjoint(log, s.arrivals, p, q, r);
  }

  ghost predicate InTime(log: seq<Record>, now: real) {
    && (forall p, q :: 0 <= p < q < |log| ==> log[p].time <= log[q].time)
    && (forall p :: 0 <= p < |log| ==> log[p].time <= now)
  }

  lemma DoInTime(s: Node, log: seq<Record>, step: Step)
    requires InTime(log, s.now) && Possible(s, step)
    ensures InTime(log + Do(s, step).1, Do(s, step).0.now)
  {
    assert forall p :: 0 <= p < |Do(s, step).1| ==> Do(s, step).1[p].time == s.now;
  }

  /** The record is written in the order of time, so positions in it speak about times. */
  lemma {:induction false} RunInTime(s: Node, before: seq<Record>, steps: seq<Step>)
    requires InTime(before, s.now) && Run(s, steps).Some?
    ensures InTime(before + Run(s, steps).value.1, Run(s, steps).value.0.now)
    decreases |steps|
  {
    hide InTime, Possible, Do;
    if steps == [] {
      assert before + [] == before;
    } else {
      var (t, log) := Do(s, steps[0]);
      DoInTime(s, before, steps[0]);
      RunInTime(t, before + log, steps[1..]);
      var rest := Run(t, steps[1..]).value.1;
      assert (before + log) + rest == before + (log + rest);
    }
  }
}
