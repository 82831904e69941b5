/** The processor-sharing node. It never touches the waiting customers: each entry keeps the value of a
    virtual clock at which it will finish, and the virtual clock runs at the rate each customer is
    served. The specification serves every customer explicitly. */
module ProcessorSharing {
  import opened Reals
  import opened PointerList
  import opened Workload

  /** What each of n customers is served while dt passes. */
  function Share(dt: real, n: nat): real
    requires n > 0
  {
    dt / n as real
  }

  lemma ShareTimes(dt: real, n: nat)
    requires n > 0
    ensures Times(Share(dt, n), n as real) == dt
    ensures dt >= 0.0 ==> Share(dt, n) >= 0.0
  {
    QuotientEqual(dt, n as real, Share(dt, n));
    if dt >= 0.0 { FactorNonNegative(n as real, Share(dt, n)); }
  }

  lemma ShareAdds(a: real, b: real, n: nat)
    requires n > 0
    ensures Share(a + b, n) == Share(a, n) + Share(b, n)
  {
  }

  // ---- the node as the source keeps it ----

  datatype Entry = Entry(id: nat, finish: real)

  predicate FinishesFirst(x: Entry, y: Entry) {
    x.finish <= y.finish
  }

  /** The ordered queue inserts behind everything that finishes first or at the same time. */
  function Queued(q: seq<Entry>, e: Entry): seq<Entry> {
    Inserted((x: Entry, y: Entry) => FinishesFirst(x, y), q, e)
  }

  lemma QueuedAt(q: seq<Entry>, e: Entry) returns (k: nat)
    ensures k <= |q| && Queued(q, e) == q[..k] + [e] + q[k..]
    ensures forall i :: 0 <= i < k ==> q[i].finish <= e.finish
    ensures k < |q| ==> e.finish < q[k].finish
  {
    var before := (x: Entry, y: Entry) => FinishesFirst(x, y);
    k := InsertedAt(before, q, e);
    assert forall i :: 0 <= i < k ==> before(q[i], e);
    assert k < |q| ==> !before(q[k], e);
  }

  /** `claimed` is the single server, `pending` the time of the scheduled end-of-service event. Customers
      are numbered in the order of arrival. */
  datatype Node = Node(
    now: real,
    vtime: real,
    lastSchedule: real,
    queue: seq<Entry>,
    claimed: bool,
    pending: Option<real>,
    capacity: nat,
    arrivals: nat,
    losses: nat)

  function ServiceNextCustomer(s: Node): Node
    requires s.queue != []
  {
    var completion := Times(s.queue[0].finish - s.vtime, |s.queue| as real);
    s.(lastSchedule := s.now, pending := Some(s.now + completion))
  }

  /** The virtual clock at the present time. */
  function VirtualNow(s: Node): real {
    if s.queue == [] then s.vtime else s.vtime + Share(s.now - s.lastSchedule, |s.queue|)
  }

  function Accept(s: Node, demand: real): Node {
    var t := s.(arrivals := s.arrivals + 1);
    if |s.queue| < s.capacity then
      var vtime := if s.claimed then VirtualNow(s) else s.vtime;
      var queue := Queued(s.queue, Entry(s.arrivals, vtime + demand));
      InsertedNotEmpty(s.queue, Entry(s.arrivals, vtime + demand));
      ServiceNextCustomer(t.(vtime := vtime, claimed := true, queue := queue))
    else
      t.(losses := s.losses + 1)
  }

  lemma InsertedNotEmpty(s: seq<Entry>, e: Entry)
    ensures |Queued(s, e)| == |s| + 1
  {
    var _ := QueuedAt(s, e);
  }

  function Invoke(s: Node): Node
    requires s.queue != []
  {
    var t := s.(vtime := VirtualNow(s), queue := s.queue[1..], pending := None);
    if t.queue == [] then t.(claimed := false) else ServiceNextCustomer(t)
  }

  /** The clock loop cannot pass a pending event, and invokes one at its own time. Demands are not
      negative. */
  predicate Possible(s: Node, step: Step) {
    match step
    case Advance(t) => s.now <= t && (s.pending.Some? ==> t <= s.pending.value)
    case Arrive(d) => d >= 0.0
    case Complete => s.pending == Some(s.now) && s.queue != []
  }

  function Do(s: Node, step: Step): (Node, seq<Departure>)
    requires Possible(s, step)
  {
    match step
    case Advance(t) => (s.(now := t), [])
    case Arrive(d) => (Accept(s, d), [])
    case Complete => (Invoke(s), [Departure(s.queue[0].id, s.now)])
  }

  function Run(s: Node, steps: seq<Step>): Option<(Node, seq<Departure>)>
    decreases |steps|
  {
    if steps == [] then Some((s, []))
    else if !Possible(s, steps[0]) then None
    else
      var (t, log) := Do(s, steps[0]);
      match Run(t, steps[1..])
      case None => None
      case Some((u, rest)) => Some((u, log + rest))
  }

  function Initial(capacity: nat): Node {
    Node(0.0, 0.0, 0.0, [], false, None, capacity, 0, 0)
  }

  // ---- naive sharing ----

  /** The demand each customer still has. */
  datatype Sharing = Sharing(now: real, left: map<nat, real>, capacity: nat, arrivals: nat, losses: nat)

  ghost predicate FirstDone(left: map<nat, real>, i: nat) {
    i in left && left[i] == 0.0 && forall j :: j in left && left[j] == 0.0 ==> i <= j
  }

  ghost predicate CanDo(m: Sharing, step: Step) {
    match step
    case Advance(t) =>
      m.now <= t && forall i :: i in m.left ==> t - m.now <= Times(m.left[i], |m.left| as real)
    case Arrive(d) => d >= 0.0
    case Complete => exists i :: i in m.left && m.left[i] == 0.0
  }

  /** Every customer in the node is served at rate 1 / n. */
  function Serve(left: map<nat, real>, dt: real): map<nat, real> {
    map i | i in left :: left[i] - Share(dt, CardinalityPositive(left, i))
  }

  function CardinalityPositive(left: map<nat, real>, i: nat): (n: nat)
    requires i in left
    ensures n == |left| && n > 0
  {
    |left|
  }

  lemma {:induction false} FirstDoneExists(left: map<nat, real>, i: nat)
    requires i in left && left[i] == 0.0
    ensures exists k :: FirstDone(left, k)
    decreases i
  {
    if j :| j in left && left[j] == 0.0 && j < i {
      FirstDoneExists(left, j);
    } else {
      assert FirstDone(left, i);
    }
  }

  /** A customer whose demand is used up leaves; the one that arrived first, if there are several. */
  ghost function Make(m: Sharing, step: Step): (Sharing, seq<Departure>)
    requires CanDo(m, step)
  {
    match step
    case Advance(t) => (m.(now := t, left := Serve(m.left, t - m.now)), [])
    case Arrive(d) =>
      if |m.left| < m.capacity then
        (m.(left := m.left[m.arrivals := d], arrivals := m.arrivals + 1), [])
      else
        (m.(arrivals := m.arrivals + 1, losses := m.losses + 1), [])
    case Complete =>
      var done :| done in m.left && m.left[done] == 0.0;
      FirstDoneExists(m.left, done);
      var i :| FirstDone(m.left, i);
      (m.(left := m.left - {i}), [Departure(i, m.now)])
  }

  ghost function NaiveRun(m: Sharing, steps: seq<Step>): Option<(Sharing, seq<Departure>)>
    decreases |steps|
  {
    if steps == [] then Some((m, []))
    else if !CanDo(m, steps[0]) then None
    else
      var (t, log) := Make(m, steps[0]);
      match NaiveRun(t, steps[1..])
      case None => None
      case Some((u, rest)) => Some((u, log + rest))
  }

  // ---- the refinement ----

  predicate Before(x: Entry, y: Entry) {
    x.finish < y.finish || (x.finish == y.finish && x.id < y.id)
  }

  ghost predicate InOrder(q: seq<Entry>) {
    forall i, j :: 0 <= i < j < |q| ==> Before(q[i], q[j])
  }

  function Ids(q: seq<Entry>): set<nat> {
    if q == [] then {} else {q[0].id} + Ids(q[1..])
  }

  /** The entries are the customers still in the node, one entry each. */
  ghost predicate SameCustomers(q: seq<Entry>, left: map<nat, real>) {
    Ids(q) == left.Keys && |q| == |left|
  }

  /** A finish time is the virtual clock plus the demand left. */
  ghost predicate Tracks(q: seq<Entry>, v: real, left: map<nat, real>) {
    forall i :: 0 <= i < |q| ==> q[i].id in left && q[i].finish - v == left[q[i].id] >= 0.0
  }

  ghost predicate Scheduled(s: Node) {
    if s.queue == [] then s.pending == None && !s.claimed
    else
      && s.claimed
      && s.pending == Some(s.lastSchedule + Times(s.queue[0].finish - s.vtime, |s.queue| as real))
  }

  ghost predicate Refines(s: Node, m: Sharing) {
    && s.now == m.now && s.capacity == m.capacity && s.arrivals == m.arrivals && s.losses == m.losses
    && (forall i :: 0 <= i < |s.queue| ==> s.queue[i].id < s.arrivals)
    && InOrder(s.queue) && Scheduled(s)
    && SameCustomers(s.queue, m.left) && Tracks(s.queue, VirtualNow(s), m.left)
  }

  lemma {:induction false} IdsConcatenate(a: seq<Entry>, b: seq<Entry>)
    ensures Ids(a + b) == Ids(a) + Ids(b)
  {
    if a == [] {
      assert a + b == b;
    } else {
      assert (a + b)[1..] == a[1..] + b;
      IdsConcatenate(a[1..], b);
    }
  }

  lemma {:induction false} IdsWitness(q: seq<Entry>, k: nat) returns (i: nat)
    requires k in Ids(q)
    ensures i < |q| && q[i].id == k
  {
    if q[0].id == k {
      i := 0;
    } else {
      var j := IdsWitness(q[1..], k);
      i := j + 1;
    }
  }

  lemma {:induction false} IdsBounded(q: seq<Entry>)
    ensures |Ids(q)| <= |q|
  {
    if q != [] {
      IdsBounded(q[1..]);
      UnionSize(q[0].id, Ids(q[1..]));
    }
  }

  lemma UnionSize(x: nat, s: set<nat>)
    ensures |{x} + s| == if x in s then |s| else |s| + 1
  {
    if x in s { assert {x} + s == s; }
  }

  /** No customer has two entries. */
  lemma HeadOnce(q: seq<Entry>, left: map<nat, real>)
    requires q != [] && SameCustomers(q, left)
    ensures Ids(q[1..]) == left.Keys - {q[0].id}
  {
    IdsBounded(q[1..]);
    UnionSize(q[0].id, Ids(q[1..]));
    assert |left| == |left.Keys|;
  }

  lemma InitialRefines(capacity: nat)
    ensures Refines(Initial(capacity), Sharing(0.0, map[], capacity, 0, 0))
  {
  }

  /** The pending event is due exactly when the head has used up its demand: at any time it is the
      demand left of the head, times n, away. */
  lemma TimeToCompletion(s: Node, m: Sharing)
    requires Refines(s, m) && s.queue != []
    ensures s.pending.value - s.now == Times(m.left[s.queue[0].id], |s.queue| as real)
  {
    hide Times, Share;
    var n := |s.queue|;
    ShareTimes(s.now - s.lastSchedule, n);
    var a, b := s.queue[0].finish - s.vtime, Share(s.now - s.lastSchedule, n);
    Distributes(n as real, a, b);
    Distributes(a, n as real, 0.0);
    Distributes(b, n as real, 0.0);
    Distributes(a - b, n as real, 0.0);
  }

  /** Nobody has less left than the head of the queue. */
  lemma HeadHasLeast(s: Node, m: Sharing, k: nat)
    requires Refines(s, m) && k in m.left
    ensures s.queue != [] && m.left[s.queue[0].id] <= m.left[k]
    ensures m.left[k] == m.left[s.queue[0].id] ==> s.queue[0].id <= k
  {
    hide Times, Share, Scheduled;
    var i := IdsWitness(s.queue, k);
    if i > 0 { assert Before(s.queue[0], s.queue[i]); }
  }

  lemma CompletionIsFirstDone(s: Node, m: Sharing)
    requires Refines(s, m) && s.queue != []
    ensures s.pending == Some(s.now) <==> m.left[s.queue[0].id] == 0.0
    ensures s.pending == Some(s.now) ==> FirstDone(m.left, s.queue[0].id)
    ensures s.pending != Some(s.now) ==> forall k :: k in m.left ==> m.left[k] != 0.0
  {
    hide Times, Share, InOrder;
    TimeToCompletion(s, m);
    ProductZero(m.left[s.queue[0].id], |s.queue| as real);
    forall k | k in m.left
      ensures m.left[s.queue[0].id] <= m.left[k]
      ensures m.left[k] == m.left[s.queue[0].id] ==> s.queue[0].id <= k
    {
      HeadHasLeast(s, m, k);
    }
  }

  lemma Monotone(x: real, y: real, n: real)
    requires x <= y && n >= 0.0
    ensures Times(x, n) <= Times(y, n)
  {
    ProductNonNegative(y - x, n);
  }

  /** The fast node and naive sharing allow the same steps. */
  lemma StepsMatch(s: Node, m: Sharing, step: Step)
    requires Refines(s, m)
    ensures Possible(s, step) <==> CanDo(m, step)
  {
    hide Times, Share, InOrder;
    if s.queue != [] {
      TimeToCompletion(s, m);
      CompletionIsFirstDone(s, m);
      forall k | k in m.left
        ensures Times(m.left[s.queue[0].id], |m.left| as real) <= Times(m.left[k], |m.left| as real)
      {
        HeadHasLeast(s, m, k);
        Monotone(m.left[s.queue[0].id], m.left[k], |m.left| as real);
      }
      assert s.queue[0].id in m.left;
    }
  }

  lemma ServeKeeps(left: map<nat, real>, dt: real)
    ensures Serve(left, dt).Keys == left.Keys && |Serve(left, dt)| == |left|
  {
    assert Serve(left, dt).Keys == left.Keys;
    assert |Serve(left, dt)| == |Serve(left, dt).Keys| && |left| == |left.Keys|;
  }

  /** Serving everyone keeps up with the virtual clock. */
  lemma ServeTracks(q: seq<Entry>, v: real, left: map<nat, real>, dt: real)
    requires SameCustomers(q, left) && Tracks(q, v, left) && q != []
    requires forall k :: k in left ==> dt <= Times(left[k], |left| as real)
    ensures SameCustomers(q, Serve(left, dt)) && Tracks(q, v + Share(dt, |q|), Serve(left, dt))
  {
    ServeKeeps(left, dt);
    hide Share, Times;
    forall i | 0 <= i < |q| ensures q[i].finish - (v + Share(dt, |q|)) == Serve(left, dt)[q[i].id] >= 0.0 {
      ServedNonNegative(left[q[i].id], dt, |q|);
    }
  }

  lemma AdvanceRefines(s: Node, m: Sharing, t: real)
    requires Refines(s, m) && Possible(s, Advance(t))
    ensures Refines(s.(now := t), m.(now := t, left := Serve(m.left, t - m.now)))
  {
    if s.queue == [] {
      AdvanceIdle(s, m, t);
    } else {
      AdvanceBusy(s, m, t);
    }
  }

  lemma AdvanceIdle(s: Node, m: Sharing, t: real)
    requires Refines(s, m) && s.queue == []
    ensures Refines(s.(now := t), m.(now := t, left := Serve(m.left, t - m.now)))
  {
    assert m.left == map[];
    assert Serve(m.left, t - m.now) == map[];
  }

  lemma AdvanceBusy(s: Node, m: Sharing, t: real)
    requires Refines(s, m) && Possible(s, Advance(t)) && s.queue != []
    ensures Refines(s.(now := t), m.(now := t, left := Serve(m.left, t - m.now)))
  {
    hide InOrder, Tracks, Share, Times, Serve, Scheduled;
    ScheduledAt(s, t);
    StepsMatch(s, m, Advance(t));
    VirtualNowAdvances(s, t);
    hide VirtualNow;
    ServeTracks(s.queue, VirtualNow(s), m.left, t - s.now);
  }

  lemma ScheduledAt(s: Node, t: real)
    requires Scheduled(s)
    ensures Scheduled(s.(now := t))
  {
  }

  lemma VirtualNowAdvances(s: Node, t: real)
    requires s.queue != []
    ensures VirtualNow(s.(now := t)) == VirtualNow(s) + Share(t - s.now, |s.queue|)
  {
    ShareAdds(s.now - s.lastSchedule, t - s.now, |s.queue|);
  }

  lemma ServedNonNegative(x: real, dt: real, n: nat)
    requires n > 0 && dt <= Times(x, n as real)
    ensures x - Share(dt, n) >= 0.0
  {
    ShareTimes(dt, n);
    var r := Share(dt, n);
    assert Times(n as real, x - r) == Times(x, n as real) - Times(r, n as real);
    FactorNonNegative(n as real, x - r);
  }

  // ---- arrivals ----

  /** Inserting behind the entries that finish first or together keeps the line in order, because a
      later arrival has a larger number. */
  lemma QueuedInOrder(q: seq<Entry>, e: Entry)
    requires InOrder(q) && forall i :: 0 <= i < |q| ==> q[i].id < e.id
    ensures InOrder(Queued(q, e))
  {
    hide Queued;
    var k := QueuedAt(q, e);
    var r := Queued(q, e);
    forall i | 0 <= i < |q| ensures if i < k then Before(q[i], e) else Before(e, q[i]) {
      if i > k { assert Before(q[k], q[i]); }
    }
    forall i, j | 0 <= i < j < |r| ensures Before(r[i], r[j]) {
      assert r[i] == (if i < k then q[i] else if i == k then e else q[i - 1]);
      assert r[j] == (if j < k then q[j] else if j == k then e else q[j - 1]);
    }
  }

  lemma QueuedIds(q: seq<Entry>, e: Entry)
    ensures Ids(Queued(q, e)) == Ids(q) + {e.id} && |Queued(q, e)| == |q| + 1
  {
    hide Queued;
    var k := QueuedAt(q, e);
    IdsConcatenate(q[..k], q[k..]);
    assert q == q[..k] + q[k..];
    IdsConcatenate(q[..k] + [e], q[k..]);
    IdsConcatenate(q[..k], [e]);
    assert Ids([e]) == {e.id} + Ids([]);
  }

  lemma QueuedCustomers(q: seq<Entry>, e: Entry, left: map<nat, real>, d: real)
    requires SameCustomers(q, left) && e.id !in left
    ensures SameCustomers(Queued(q, e), left[e.id := d])
  {
    QueuedIds(q, e);
    hide Queued, Ids;
    assert left[e.id := d].Keys == left.Keys + {e.id};
  }

  lemma QueuedTracks(q: seq<Entry>, e: Entry, v: real, left: map<nat, real>, d: real)
    requires SameCustomers(q, left) && Tracks(q, v, left)
    requires e.id !in left && e.finish == v + d && d >= 0.0
    ensures SameCustomers(Queued(q, e), left[e.id := d]) && Tracks(Queued(q, e), v, left[e.id := d])
  {
    QueuedCustomers(q, e, left, d);
    hide Queued, SameCustomers;
    var k := QueuedAt(q, e);
    var r, left' := Queued(q, e), left[e.id := d];
    forall i | 0 <= i < |r| ensures r[i].id in left' && r[i].finish - v == left'[r[i].id] >= 0.0 {
      assert r[i] == (if i < k then q[i] else if i == k then e else q[i - 1]);
    }
  }

  lemma ScheduledAfterService(s: Node)
    requires s.queue != [] && s.claimed
    ensures Scheduled(ServiceNextCustomer(s)) && VirtualNow(ServiceNextCustomer(s)) == s.vtime
  {
    hide Times;
    assert Share(0.0, |s.queue|) == 0.0;
  }

  /** The state in which an accepted customer triggers the next scheduling. */
  function Enqueued(s: Node, demand: real): Node {
    s.(arrivals := s.arrivals + 1, vtime := VirtualNow(s), claimed := true,
       queue := Queued(s.queue, Entry(s.arrivals, VirtualNow(s) + demand)))
  }

  lemma AcceptIs(s: Node, d: real)
    requires Scheduled(s) && |s.queue| < s.capacity
    ensures Enqueued(s, d).queue != [] && Accept(s, d) == ServiceNextCustomer(Enqueued(s, d))
  {
    hide Times, Queued;
    InsertedNotEmpty(s.queue, Entry(s.arrivals, VirtualNow(s) + d));
  }

  lemma NewNumber(s: Node, m: Sharing)
    requires Refines(s, m)
    ensures s.arrivals !in m.left
  {
    hide Scheduled, InOrder, Tracks;
    if s.arrivals in m.left { var i := IdsWitness(s.queue, s.arrivals); }
  }

  lemma QueuedNumbers(q: seq<Entry>, e: Entry)
    requires forall i :: 0 <= i < |q| ==> q[i].id < e.id
    ensures forall i :: 0 <= i < |Queued(q, e)| ==> Queued(q, e)[i].id < e.id + 1
  {
    hide Queued;
    var k := QueuedAt(q, e);
    forall i | 0 <= i < |Queued(q, e)| ensures Queued(q, e)[i].id < e.id + 1 {
      assert Queued(q, e)[i] == (if i < k then q[i] else if i == k then e else q[i - 1]);
    }
  }

  lemma EnqueuedRefines(s: Node, m: Sharing, d: real)
    requires Refines(s, m) && d >= 0.0
    ensures var t, left := Enqueued(s, d), m.left[m.arrivals := d];
      && InOrder(t.queue) && SameCustomers(t.queue, left) && Tracks(t.queue, t.vtime, left)
      && forall i :: 0 <= i < |t.queue| ==> t.queue[i].id < t.arrivals
  {
    var v := VirtualNow(s);
    var e := Entry(s.arrivals, v + d);
    hide Scheduled, VirtualNow, InOrder, Queued, Tracks, SameCustomers;
    NewNumber(s, m);
    QueuedInOrder(s.queue, e);
    QueuedTracks(s.queue, e, v, m.left, d);
    QueuedNumbers(s.queue, e);
  }

  lemma AcceptRefines(s: Node, m: Sharing, d: real)
    requires Refines(s, m) && d >= 0.0 && |s.queue| < s.capacity
    ensures Refines(Accept(s, d), m.(left := m.left[m.arrivals := d], arrivals := m.arrivals + 1))
  {
    AcceptIs(s, d);
    EnqueuedRefines(s, m, d);
    ScheduledAfterService(Enqueued(s, d));
    ServiceKeeps(Enqueued(s, d));
    hide Queued, InOrder, SameCustomers, Tracks, Scheduled, ServiceNextCustomer, Accept, VirtualNow;
  }

  lemma ServiceKeeps(s: Node)
    requires s.queue != []
    ensures var t := ServiceNextCustomer(s);
      t == s.(lastSchedule := t.lastSchedule, pending := t.pending)
  {
  }

  // ---- departures ----

  lemma RemainingCustomers(q: seq<Entry>, v: real, left: map<nat, real>)
    requires q != [] && SameCustomers(q, left) && Tracks(q, v, left)
    ensures SameCustomers(q[1..], left - {q[0].id}) && Tracks(q[1..], v, left - {q[0].id})
  {
    var r, left' := q[1..], left - {q[0].id};
    HeadOnce(q, left);
    assert left'.Keys == left.Keys - {q[0].id};
    assert |left'| == |left'.Keys| && |left| == |left.Keys|;
    forall i | 0 <= i < |r| ensures r[i].id in left' {
      assert r[i] == q[i + 1];
      IdsMember(r, i);
    }
  }

  lemma {:induction false} IdsMember(q: seq<Entry>, i: nat)
    requires i < |q|
    ensures q[i].id in Ids(q)
  {
    if i > 0 { IdsMember(q[1..], i - 1); }
  }

  lemma InvokeRefines(s: Node, m: Sharing)
    requires Refines(s, m) && s.queue != []
    ensures Refines(Invoke(s), m.(left := m.left - {s.queue[0].id}))
  {
    var v, q := VirtualNow(s), s.queue[1..];
    RemainingCustomers(s.queue, v, m.left);
    assert InOrder(q);
    assert s.claimed;
    hide InOrder, SameCustomers, Tracks, Scheduled, ServiceNextCustomer;
    var t := s.(vtime := v, queue := q, pending := None);
    if q == [] {
      InvokeLast(s);
    } else {
      ScheduledAfterService(t);
      ServiceKeeps(t);
    }
  }

  lemma InvokeLast(s: Node)
    requires |s.queue| == 1
    ensures Scheduled(Invoke(s)) && VirtualNow(Invoke(s)) == VirtualNow(s)
  {
  }

  // ---- whole runs ----

  lemma CompleteRefines(s: Node, m: Sharing)
    requires Refines(s, m) && Possible(s, Complete) && CanDo(m, Complete)
    ensures Make(m, Complete) == (m.(left := m.left - {s.queue[0].id}), [Departure(s.queue[0].id, m.now)])
    ensures Refines(Invoke(s), Make(m, Complete).0)
  {
    InvokeRefines(s, m);
    CompletionIsFirstDone(s, m);
    hide Refines, Invoke;
    assert FirstDone(m.left, s.queue[0].id);
  }

  lemma LossRefines(s: Node, m: Sharing, d: real)
    requires Refines(s, m) && |s.queue| >= s.capacity
    ensures Refines(Accept(s, d), m.(arrivals := m.arrivals + 1, losses := m.losses + 1))
  {
    hide Times, Share, InOrder;
  }

  /** Each step of the fast node is the corresponding step of naive sharing. */
  lemma DoRefines(s: Node, m: Sharing, step: Step)
    requires Refines(s, m) && Possible(s, step) && CanDo(m, step)
    ensures Make(m, step).1 == Do(s, step).1 && Refines(Do(s, step).0, Make(m, step).0)
  {
    assert |m.left| == |s.queue|;
    match step
    case Advance(t) => AdvanceRefines(s, m, t);
    case Arrive(d) => if |s.queue| < s.capacity { AcceptRefines(s, m, d); } else { LossRefines(s, m, d); }
    case Complete => CompleteRefines(s, m);
  }

  /** Processor sharing by virtual time refines naive sharing over every run: from corresponding
      states, a sequence of steps is possible for the one exactly when it is for the other, the same
      customers depart in the same order at the same times, and the states correspond again. */
  lemma {:induction false} RunRefines(s: Node, m: Sharing, steps: seq<Step>)
    requires Refines(s, m)
    ensures Run(s, steps).Some? <==> NaiveRun(m, steps).Some?
    ensures Run(s, steps).Some? ==>
      var (s', log), (m', naiveLog) := Run(s, steps).value, NaiveRun(m, steps).value;
      log == naiveLog && Refines(s', m')
    decreases |steps|
  {
    hide Refines, CanDo, Make, Possible, Do;
    if steps != [] {
      StepsMatch(s, m, steps[0]);
      if Possible(s, steps[0]) {
        DoRefines(s, m, steps[0]);
        RunRefines(Do(s, steps[0]).0, Make(m, steps[0]).0, steps[1..]);
      }
    }
  }

  // ---- nobody is lost track of ----

  lemma DoCounts(s: Node, step: Step)
    requires Possible(s, step) && |s.queue| <= s.capacity
    ensures var (t, log) := Do(s, step);
      && |t.queue| + t.losses + |log| == |s.queue| + s.losses + (t.arrivals - s.arrivals)
      && t.arrivals == s.arrivals + |Arrivals(s.now, [step])| && t.now == TimeAfter(s.now, step)
      && |t.queue| <= t.capacity == s.capacity
  {
    hide Queued;
    assert [step][1..] == [];
    if step.Arrive? {
      InsertedNotEmpty(s.queue, Entry(s.arrivals, VirtualNow(s) + step.demand));
      InsertedNotEmpty(s.queue, Entry(s.arrivals, s.vtime + step.demand));
    }
  }

  lemma FirstArrivals(now: real, steps: seq<Step>)
    requires steps != []
    ensures |Arrivals(now, steps)|
         == |Arrivals(now, steps[..1])| + |Arrivals(TimeAfter(now, steps[0]), steps[1..])|
  {
    assert steps[..1] == [steps[0]] && steps[..1][1..] == [];
  }

  lemma {:induction false} RunCounts(s: Node, steps: seq<Step>)
    requires Run(s, steps).Some? && |s.queue| <= s.capacity
    ensures var (t, log) := Run(s, steps).value;
      && |t.queue| + t.losses + |log| == |s.queue| + s.losses + (t.arrivals - s.arrivals)
      && t.arrivals == s.arrivals + |Arrivals(s.now, steps)|
      && |t.queue| <= t.capacity == s.capacity
    decreases |steps|
  {
    hide Possible, Do;
    if steps != [] {
      DoCounts(s, steps[0]);
      FirstArrivals(s.now, steps);
      assert steps[..1] == [steps[0]];
      hide Arrivals;
      RunCounts(Do(s, steps[0]).0, steps[1..]);
    }
  }

  /** In every state of every run: whoever arrived is inside, has departed or was lost, and the next to arrive is
      lost exactly when as many are inside as the queue holds. */
  lemma EveryArrivalIsCounted(capacity: nat, steps: seq<Step>, demand: real)
    requires Run(Initial(capacity), steps).Some?
    ensures var (s, log) := Run(Initial(capacity), steps).value;
      && |Arrivals(0.0, steps)| == |s.queue| + |log| + s.losses
      && |s.queue| <= capacity
      && Accept(s, demand).losses == s.losses + if |s.queue| == capacity then 1 else 0
  {
    RunCounts(Initial(capacity), steps);
    hide Run, Arrivals, Queued;
  }
}
