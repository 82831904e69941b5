/** The queue of runnable threads: a binary heap, least estimated real time on top, whose keys change
    under it. The heap operations are those of the C++ standard library; nothing outside this file's
    heap methods depends on how they arrange equal keys. */
module ThreadQueue {

  /** What a thread's place in the queue depends on. */
  datatype Timing = Timing(
    estimatedRealTime: int,
    inIoPrediction: bool,
    lastRealTime: int,
    lastIoPrediction: int,
    timesPredictionAdded: int)

  /** A thread in an I/O prediction phase whose total predicted time has run out. */
  predicate Expired(t: Timing, currentRealTime: int) {
    var totalTimePredicted := (2 * t.timesPredictionAdded - 1) * t.lastIoPrediction;
    t.inIoPrediction && currentRealTime - t.lastRealTime - totalTimePredicted > 0
  }

  /** One invalidation: double the prediction period and leap forward by it. */
  function Invalidated(t: Timing): Timing {
    var times := 2 * t.timesPredictionAdded;
    t.(timesPredictionAdded := times, estimatedRealTime := t.estimatedRealTime + times * t.lastIoPrediction)
  }

  function InvalidatedTimes(t: Timing, k: nat): Timing {
    if k == 0 then t else Invalidated(InvalidatedTimes(t, k - 1))
  }

  function PowerOfTwo(k: nat): int {
    if k == 0 then 1 else 2 * PowerOfTwo(k - 1)
  }

  /** A prediction that has been invalidated k times has moved the key by 2, then 6, then 14 predictions and so
      on, and touched nothing else of what a prediction is. */
  lemma {:induction false} KeyAfterInvalidations(t: Timing, k: nat)
    requires t.timesPredictionAdded == 1
    ensures var u := InvalidatedTimes(t, k);
      && u.estimatedRealTime == t.estimatedRealTime + (2 * PowerOfTwo(k) - 2) * t.lastIoPrediction
      && u.timesPredictionAdded == PowerOfTwo(k)
      && u.inIoPrediction == t.inIoPrediction && u.lastRealTime == t.lastRealTime
      && u.lastIoPrediction == t.lastIoPrediction
  {
    if k > 0 {
      KeyAfterInvalidations(t, k - 1);
      var p, l := PowerOfTwo(k - 1), t.lastIoPrediction;
      assert (2 * p - 2) * l + (2 * p) * l == (2 * (2 * p) - 2) * l;
    }
  }

  /** However often it has been invalidated, a prediction has expired exactly when more real time has passed
      since it began than was predicted at first and has been added to the key. */
  lemma ExpiresWhenUsedUp(t: Timing, k: nat, now: int)
    requires t.timesPredictionAdded == 1
    ensures var u := InvalidatedTimes(t, k);
      Expired(u, now) <==>
        t.inIoPrediction
        && now - t.lastRealTime > t.lastIoPrediction + (u.estimatedRealTime - t.estimatedRealTime)
  {
    KeyAfterInvalidations(t, k);
    var p, l := PowerOfTwo(k), t.lastIoPrediction;
    assert (2 * p - 1) * l == l + (2 * p - 2) * l;
  }

  /** So what has expired stays expired, and one invalidation moves the last moment at which a prediction holds
      by exactly the growth of the key. */
  lemma InvalidationMovesExpiry(t: Timing, now: int, later: int)
    ensures Expired(t, now) && now <= later ==> Expired(t, later)
    ensures var u := Invalidated(t);
      Expired(u, now + (u.estimatedRealTime - t.estimatedRealTime)) <==> Expired(t, now)
  {
    var n, l := t.timesPredictionAdded, t.lastIoPrediction;
    assert (2 * (2 * n) - 1) * l == (2 * n - 1) * l + (2 * n) * l;
  }

  class VexThreadState {
    var estimatedRealTime: int
    var inIoPrediction: bool
    var lastRealTime: int
    var lastIoPrediction: int
    var timesPredictionAdded: int

    function CurrentTiming(): Timing
      reads this
    {
      Timing(estimatedRealTime, inIoPrediction, lastRealTime, lastIoPrediction, timesPredictionAdded)
    }

    constructor (timing: Timing)
      ensures CurrentTiming() == timing
    {
      estimatedRealTime, inIoPrediction := timing.estimatedRealTime, timing.inIoPrediction;
      lastRealTime, lastIoPrediction := timing.lastRealTime, timing.lastIoPrediction;
      timesPredictionAdded := timing.timesPredictionAdded;
    }

    predicate IsIoPredictionStillValid(currentRealTime: int)
      reads this
    {
      currentRealTime - lastRealTime - (2 * timesPredictionAdded - 1) * lastIoPrediction <= 0
    }

    method HasExpired(currentRealTime: int) returns (expired: bool)
      ensures expired == Expired(CurrentTiming(), currentRealTime)
    {
      expired := inIoPrediction && !IsIoPredictionStillValid(currentRealTime);
    }

    method InvalidateIoPrediction()
      modifies this
      ensures CurrentTiming() == Invalidated(old(CurrentTiming()))
    {
      timesPredictionAdded := timesPredictionAdded * 2;
      estimatedRealTime := estimatedRealTime + timesPredictionAdded * lastIoPrediction;
    }
  }

  // ---- heap order, on the keys alone ----

  function Parent(j: nat): nat
    requires j > 0
  {
    (j - 1) / 2
  }

  function Exchanged<T>(c: seq<T>, i: nat, j: nat): (d: seq<T>)
    requires i < |c| && j < |c|
    ensures |d| == |c|
    ensures multiset(d) == multiset(c)
  {
    c[i := c[j]][j := c[i]]
  }

  lemma OneTaken<T>(c: seq<T>, i: nat)
    requires i < |c|
    ensures multiset(c[..i] + c[i + 1..]) == multiset(c) - multiset{c[i]}
  {
    assert c == c[..i] + [c[i]] + c[i + 1..];
  }

  /** Heap order below position lo. */
  ghost predicate HeapFrom(k: seq<int>, lo: nat) {
    forall j :: 0 < j < |k| && Parent(j) >= lo ==> k[Parent(j)] <= k[j]
  }

  ghost predicate Heap(k: seq<int>) {
    HeapFrom(k, 0)
  }

  lemma {:induction false} RootIsLeast(k: seq<int>, i: nat)
    requires Heap(k) && i < |k|
    ensures k[0] <= k[i]
  {
    if i > 0 {
      RootIsLeast(k, Parent(i));
    }
  }

  /** The only disorder is between i and its parent. */
  ghost predicate HeapAbove(k: seq<int>, i: nat) {
    && (forall j :: 0 < j < |k| && j != i ==> k[Parent(j)] <= k[j])
    && (forall j :: 0 < j < |k| && Parent(j) == i && i > 0 ==> k[Parent(i)] <= k[j])
  }

  lemma SiftUpStep(k: seq<int>, i: nat)
    requires 0 < i < |k| && HeapAbove(k, i) && k[i] < k[Parent(i)]
    ensures HeapAbove(Exchanged(k, i, Parent(i)), Parent(i))
  {
    var p := Parent(i);
    var d := Exchanged(k, i, p);
    forall j | 0 < j < |k| && j != p ensures d[Parent(j)] <= d[j] {}
    forall j | 0 < j < |k| && Parent(j) == p && p > 0 ensures d[Parent(p)] <= d[j] {
      assert k[Parent(p)] <= k[p];
    }
  }

  /** The only disorder, from lo on, is between i and its children. */
  ghost predicate HeapBelow(k: seq<int>, lo: nat, i: nat) {
    && (forall j :: 0 < j < |k| && Parent(j) >= lo && Parent(j) != i ==> k[Parent(j)] <= k[j])
    && (forall j :: 0 < j < |k| && Parent(j) == i && i > 0 && Parent(i) >= lo ==> k[Parent(i)] <= k[j])
  }

  ghost predicate LeastChild(k: seq<int>, i: nat, m: nat) {
    && 0 < m < |k| && Parent(m) == i
    && forall j :: 0 < j < |k| && Parent(j) == i ==> k[m] <= k[j]
  }

  lemma SiftDownStep(k: seq<int>, lo: nat, i: nat, m: nat)
    requires lo <= i < |k| && HeapBelow(k, lo, i) && LeastChild(k, i, m) && k[m] < k[i]
    ensures HeapBelow(Exchanged(k, i, m), lo, m)
  {
    var d := Exchanged(k, i, m);
    forall j | 0 < j < |k| && Parent(j) >= lo && Parent(j) != m ensures d[Parent(j)] <= d[j] {}
    forall j | 0 < j < |k| && Parent(j) == m ensures d[Parent(m)] <= d[j] {}
  }

  lemma LeavesAreHeaps(k: seq<int>)
    ensures HeapFrom(k, |k| / 2)
  {
  }

  lemma HeapBelowRoot(k: seq<int>, lo: nat)
    requires HeapFrom(k, lo + 1)
    ensures HeapBelow(k, lo, lo)
  {
  }

  lemma HeapBelowDone(k: seq<int>, lo: nat, i: nat)
    requires lo <= i < |k| && HeapBelow(k, lo, i)
    requires forall j :: 0 < j < |k| && Parent(j) == i ==> k[i] <= k[j]
    ensures HeapFrom(k, lo)
  {
  }

  lemma LeastOfTwo(k: seq<int>, i: nat, m: nat)
    requires 2 * i + 1 < |k|
    requires m == if 2 * i + 2 < |k| && k[2 * i + 2] < k[2 * i + 1] then 2 * i + 2 else 2 * i + 1
    ensures LeastChild(k, i, m)
  {
    forall j | 0 < j < |k| && Parent(j) == i ensures k[m] <= k[j] {
      assert j == 2 * i + 1 || j == 2 * i + 2;
    }
  }

  lemma AppendKey(k: seq<int>, x: int)
    requires Heap(k)
    ensures HeapAbove(k + [x], |k|)
  {
    var d := k + [x];
    forall j | 0 < j < |d| && j != |k| ensures d[Parent(j)] <= d[j] {
      assert k[Parent(j)] <= k[j];
    }
  }

  lemma HeapAboveDone(k: seq<int>, i: nat)
    requires i < |k| && HeapAbove(k, i) && (i == 0 || k[Parent(i)] <= k[i])
    ensures Heap(k)
  {
  }

  lemma ReplaceRoot(k: seq<int>, x: int)
    requires Heap(k) && |k| > 1
    ensures HeapFrom([x] + k[1..|k| - 1], 1)
  {
    var d := [x] + k[1..|k| - 1];
    forall j | 0 < j < |d| && Parent(j) >= 1 ensures d[Parent(j)] <= d[j] {
      assert k[Parent(j)] <= k[j] && d[j] == k[j] && d[Parent(j)] == k[Parent(j)];
    }
  }

  // ---- the heap over threads ----

  ghost function Keys(c: seq<VexThreadState>): (k: seq<int>)
    reads c
    ensures |k| == |c|
    ensures forall i :: 0 <= i < |c| ==> k[i] == c[i].estimatedRealTime
  {
    seq(|c|, i requires 0 <= i < |c| reads c => c[i].estimatedRealTime)
  }

  ghost predicate Distinct(c: seq<VexThreadState>) {
    forall i, j :: 0 <= i < j < |c| ==> c[i] != c[j]
  }

  class AdaptiblePQueue {
    var c: seq<VexThreadState>

    /** The underlying container is a heap for the current keys and holds no thread twice. */
    ghost predicate Valid()
      reads this, c
    {
      Distinct(c) && Heap(Keys(c))
    }

    ghost function Members(): set<VexThreadState>
      reads this
    {
      set t | t in c
    }

    predicate Empty()
      reads this
    {
      c == []
    }

    method Top() returns (t: VexThreadState)
      requires Valid() && c != []
      ensures t == c[0]
      ensures forall u :: u in c ==> t.estimatedRealTime <= u.estimatedRealTime
    {
      t := c[0];
      forall i | 0 <= i < |c| ensures t.estimatedRealTime <= c[i].estimatedRealTime {
        RootIsLeast(Keys(c), i);
      }
    }

    method Swap(i: nat, j: nat)
      requires i < |c| && j < |c|
      modifies this
      ensures |c| == |old(c)| && multiset(c) == multiset(old(c))
      ensures Keys(c) == Exchanged(old(Keys(c)), i, j)
    {
      c := Exchanged(c, i, j);
    }

    method SiftUp(at: nat)
      requires at < |c| && HeapAbove(Keys(c), at)
      modifies this
      ensures multiset(c) == multiset(old(c)) && Heap(Keys(c))
    {
      hide HeapAbove, Exchanged;
      var i: nat := at;
      while i > 0 && c[i].estimatedRealTime < c[Parent(i)].estimatedRealTime
        invariant i < |c| && multiset(c) == multiset(old(c)) && HeapAbove(Keys(c), i)
      {
        SiftUpStep(Keys(c), i);
        Swap(i, Parent(i));
        i := Parent(i);
      }
      HeapAboveDone(Keys(c), i);
    }

    method SiftDown(lo: nat)
      requires lo < |c| && HeapFrom(Keys(c), lo + 1)
      modifies this
      ensures |c| == |old(c)| && multiset(c) == multiset(old(c)) && HeapFrom(Keys(c), lo)
    {
      hide HeapFrom, HeapBelow, Exchanged;
      HeapBelowRoot(Keys(c), lo);
      var i := lo;
      while 2 * i + 1 < |c|
        invariant lo <= i < |c| == |old(c)| && multiset(c) == multiset(old(c)) && HeapBelow(Keys(c), lo, i)
        decreases |c| - i
      {
        var m := 2 * i + 1;
        if m + 1 < |c| && c[m + 1].estimatedRealTime < c[m].estimatedRealTime {
          m := m + 1;
        }
        LeastOfTwo(Keys(c), i, m);
        if c[i].estimatedRealTime <= c[m].estimatedRealTime {
          break;
        }
        SiftDownStep(Keys(c), lo, i, m);
        Swap(i, m);
        i := m;
      }
      HeapBelowDone(Keys(c), lo, i);
    }

    method Push(t: VexThreadState)
      requires Valid() && t !in c
      modifies this
      ensures Valid() && multiset(c) == multiset(old(c)) + multiset{t}
    {
      hide HeapAbove, Heap;
      ghost var before := c + [t];
      AppendKey(Keys(c), t.estimatedRealTime);
      assert Keys(c + [t]) == Keys(c) + [t.estimatedRealTime];
      c := c + [t];
      SiftUp(|c| - 1);
      SameElementsDistinct(before, c);
    }

    method Pop()
      requires Valid() && c != []
      modifies this
      ensures Valid() && multiset(c) == multiset(old(c)) - multiset{old(c)[0]}
    {
      hide HeapFrom;
      if |c| == 1 {
        c := [];
        LeavesAreHeaps([]);
        return;
      }
      var last := c[|c| - 1];
      ReplaceRoot(Keys(c), last.estimatedRealTime);
      var rest := [last] + c[1..|c| - 1];
      RestWithoutRoot(c, rest);
      assert Keys(rest) == [last.estimatedRealTime] + Keys(c)[1..|c| - 1];
      c := rest;
      SiftDown(0);
      SameElementsDistinct(rest, c);
    }

    /** Rebuilds the heap from any arrangement of any keys. */
    method Update()
      modifies this
      ensures multiset(c) == multiset(old(c)) && Heap(Keys(c))
    {
      hide HeapFrom;
      var n: nat := |c| / 2;
      LeavesAreHeaps(Keys(c));
      while n > 0
        invariant n <= |c| / 2 && |c| == |old(c)| && multiset(c) == multiset(old(c)) && HeapFrom(Keys(c), n)
      {
        n := n - 1;
        SiftDown(n);
      }
    }

    /** Removes the first occurrence, wherever it is, and rebuilds the heap. */
    method Erase(t: VexThreadState)
      modifies this
      ensures multiset(c) == multiset(old(c)) - multiset{t} && Heap(Keys(c))
    {
      for i := 0 to |c|
        invariant c == old(c) && t !in c[..i]
      {
        if c[i] == t {
          OneTaken(c, i);
          c := c[..i] + c[i + 1..];
          break;
        }
      }
      Update();
    }
  }

  // ---- the expired-prediction pass ----

  type Timings = map<VexThreadState, Timing>

  ghost function TimingsOf(c: seq<VexThreadState>): (m: Timings)
    reads c
    ensures forall t :: t in m ==> t in c
    ensures forall t :: t in c ==> t in m && m[t] == t.CurrentTiming()
  {
    map t | t in c :: t.CurrentTiming()
  }

  /** `popped` is the run of heads of the heap whose prediction has expired: taken in key order, all
      expired, all at or before everything left behind, and stopped by the end of the queue or by a
      head that has not expired. `m` holds the timings before the pass. */
  ghost predicate ExpiredRun(m: Timings, popped: seq<VexThreadState>, now: int) {
    && Distinct(popped)
    && (forall t :: t in popped ==> t in m && Expired(m[t], now))
    && (forall i, j :: 0 <= i < j < |popped| ==>
          m[popped[i]].estimatedRealTime <= m[popped[j]].estimatedRealTime)
    && (forall p, t :: p in popped && t in m && t !in popped ==>
          m[p].estimatedRealTime <= m[t].estimatedRealTime)
    && ((forall t :: t in m ==> t in popped)
        || exists h :: h in m && h !in popped && !Expired(m[h], now) && LeastLeft(m, popped, h))
  }

  ghost predicate LeastLeft(m: Timings, popped: seq<VexThreadState>, h: VexThreadState)
    requires h in m
  {
    forall t :: t in m && t !in popped ==> m[h].estimatedRealTime <= m[t].estimatedRealTime
  }

  lemma EmptyRun(c: seq<VexThreadState>, now: int)
    requires Heap(Keys(c)) && (c == [] || !Expired(c[0].CurrentTiming(), now))
    ensures ExpiredRun(TimingsOf(c), [], now)
  {
    hide Expired;
    forall i | 0 <= i < |c| ensures c[0].estimatedRealTime <= c[i].estimatedRealTime {
      RootIsLeast(Keys(c), i);
    }
    if c != [] {
      assert c[0] in c;
      assert LeastLeft(TimingsOf(c), [], c[0]);
    }
  }

  lemma LongerRun(m: Timings, head: VexThreadState, popped: seq<VexThreadState>, now: int)
    requires head in m && Expired(m[head], now) && LeastLeft(m, [], head)
    requires ExpiredRun(m - {head}, popped, now)
    ensures ExpiredRun(m, [head] + popped, now)
  {
    hide Expired;
    var n, longer := m - {head}, [head] + popped;
    assert forall t :: t in longer <==> t == head || t in popped;
    if h :| h in n && h !in popped && !Expired(n[h], now) && LeastLeft(n, popped, h) {
      assert h in m && h !in longer && LeastLeft(m, longer, h);
    }
  }

  /** Exactly the given threads have been invalidated, once each. */
  ghost predicate InvalidatedExactly(m: Timings, hit: set<VexThreadState>)
    reads m.Keys
  {
    forall t :: t in m ==> t.CurrentTiming() == if t in hit then Invalidated(m[t]) else m[t]
  }

  lemma WithoutHead(c: seq<VexThreadState>, rest: seq<VexThreadState>)
    requires c != [] && Distinct(c) && multiset(rest) == multiset(c) - multiset{c[0]}
    ensures forall t :: t in rest <==> t in c && t != c[0]
    ensures |rest| == |c| - 1
    ensures multiset(rest) + multiset{c[0]} == multiset(c)
  {
    OnceMeansOne(c, c[0]);
    assert c[0] in multiset(c);
    assert |multiset(rest)| == |multiset(c)| - 1;
    forall t ensures t in rest <==> t in c && t != c[0] {
      OnceMeansOne(c, t);
      assert t in rest <==> t in multiset(rest);
      assert t in c <==> t in multiset(c);
    }
  }

  lemma SameMembers(c: seq<VexThreadState>, d: seq<VexThreadState>)
    requires multiset(c) == multiset(d)
    ensures forall t :: t in c <==> t in d
  {
    forall t ensures t in c <==> t in d {
      assert t in c <==> t in multiset(c);
      assert t in d <==> t in multiset(d);
    }
  }

  class ThreadQueue {
    const threadsQueue: AdaptiblePQueue

    constructor ()
      ensures threadsQueue.Valid() && threadsQueue.c == [] && fresh(threadsQueue)
    {
      threadsQueue := new AdaptiblePQueue;
      new;
      threadsQueue.c := [];
    }

    /** Invalidates `state` and the run of expired heads under it. Keys change only while their thread
        is out of the heap: each thread is pushed back after it has been invalidated, the last popped
        first. */
    method RecursivelyUpdatePendingIoRequests(state: VexThreadState, now: int)
      returns (ghost popped: seq<VexThreadState>)
      requires threadsQueue.Valid() && state !in threadsQueue.c
      modifies threadsQueue, threadsQueue.Members(), state
      ensures threadsQueue.Valid() && multiset(threadsQueue.c) == multiset(old(threadsQueue.c))
      ensures ExpiredRun(old(TimingsOf(threadsQueue.c)), popped, now)
      ensures InvalidatedExactly(old(TimingsOf(threadsQueue.c)), set t | t in popped)
      ensures state.CurrentTiming() == Invalidated(old(state.CurrentTiming()))
      decreases |threadsQueue.c|, 2
    {
      hide Heap, ExpiredRun, Expired, Invalidated;
      ghost var c, m := threadsQueue.c, TimingsOf(threadsQueue.c);
      popped := PopExpired(now);
      SameMembers(c, threadsQueue.c);
      state.InvalidateIoPrediction();
    }

    /** The conditional part of the recursion. */
    method PopExpired(now: int) returns (ghost popped: seq<VexThreadState>)
      requires threadsQueue.Valid()
      modifies threadsQueue, threadsQueue.Members()
      ensures threadsQueue.Valid() && multiset(threadsQueue.c) == multiset(old(threadsQueue.c))
      ensures ExpiredRun(old(TimingsOf(threadsQueue.c)), popped, now)
      ensures InvalidatedExactly(old(TimingsOf(threadsQueue.c)), set t | t in popped)
      decreases |threadsQueue.c|, 1
    {
      hide ExpiredRun, Expired, Invalidated;
      popped := [];
      ghost var c, m := threadsQueue.c, TimingsOf(threadsQueue.c);
      if threadsQueue.Empty() {
        EmptyRun(c, now);
      } else {
        var nextThread := threadsQueue.Top();
        var expired := nextThread.HasExpired(now);
        if expired {
          ghost var more := PopUpdatePush(nextThread, now);
          LongerRun(m, nextThread, more, now);
          popped := [nextThread] + more;
          assert (set t | t in popped) == (set t | t in more) + {nextThread};
        } else {
          EmptyRun(c, now);
        }
      }
    }

    /** Pops the head, updates below it, and pushes it back. */
    method PopUpdatePush(head: VexThreadState, now: int) returns (ghost popped: seq<VexThreadState>)
      requires threadsQueue.Valid() && threadsQueue.c != [] && head == threadsQueue.c[0]
      modifies threadsQueue, threadsQueue.Members()
      ensures threadsQueue.Valid() && multiset(threadsQueue.c) == multiset(old(threadsQueue.c))
      ensures ExpiredRun(old(TimingsOf(threadsQueue.c)) - {head}, popped, now)
      ensures InvalidatedExactly(old(TimingsOf(threadsQueue.c)), (set t | t in popped) + {head})
      decreases |threadsQueue.c|, 0
    {
      hide ExpiredRun, Heap, Expired, Invalidated;
      ghost var m := TimingsOf(threadsQueue.c);
      PopHead(head);
      ghost var rest := threadsQueue.c;
      popped := RecursivelyUpdatePendingIoRequests(head, now);
      SameMembers(rest, threadsQueue.c);
      threadsQueue.Push(head);
    }

    method PopHead(head: VexThreadState)
      requires threadsQueue.Valid() && threadsQueue.c != [] && head == threadsQueue.c[0]
      modifies threadsQueue
      ensures threadsQueue.Valid() && |threadsQueue.c| == |old(threadsQueue.c)| - 1
      ensures head in old(threadsQueue.Members()) && threadsQueue.Members() == old(threadsQueue.Members()) - {head}
      ensures multiset(threadsQueue.c) + multiset{head} == multiset(old(threadsQueue.c))
      ensures TimingsOf(threadsQueue.c) == old(TimingsOf(threadsQueue.c)) - {head}
    {
      hide Heap;
      ghost var c := threadsQueue.c;
      threadsQueue.Pop();
      WithoutHead(c, threadsQueue.c);
    }

    /** Invalidates exactly the head and the maximal run of expired heads that follow it, once each, and
        leaves a valid heap of the same threads under their new keys. */
    method InvalidateExpiredIoPredictions(now: int) returns (ghost popped: seq<VexThreadState>)
      requires threadsQueue.Valid()
      modifies threadsQueue, threadsQueue.Members()
      ensures threadsQueue.Valid() && multiset(threadsQueue.c) == multiset(old(threadsQueue.c))
      ensures old(threadsQueue.c) != [] ==>
        var head, m := old(threadsQueue.c[0]), old(TimingsOf(threadsQueue.c));
        && LeastLeft(m, [], head)
        && ExpiredRun(m - {head}, popped, now)
        && InvalidatedExactly(m, (set t | t in popped) + {head})
    {
      hide ExpiredRun, Heap, Expired, Invalidated;
      popped := [];
      if !threadsQueue.Empty() {
        var state := threadsQueue.Top();
        popped := PopUpdatePush(state, now);
      }
    }
  }

  lemma RestWithoutRoot(c: seq<VexThreadState>, rest: seq<VexThreadState>)
    requires Distinct(c) && |c| > 1 && rest == [c[|c| - 1]] + c[1..|c| - 1]
    ensures Distinct(rest) && multiset(rest) == multiset(c) - multiset{c[0]}
  {
    assert c == [c[0]] + c[1..|c| - 1] + [c[|c| - 1]];
    forall i, j | 0 <= i < j < |rest| ensures rest[i] != rest[j] {
      assert rest[j] == c[j] && (i > 0 ==> rest[i] == c[i]);
    }
  }

  lemma SameElementsDistinct(c: seq<VexThreadState>, d: seq<VexThreadState>)
    requires Distinct(c) && multiset(c) == multiset(d)
    ensures Distinct(d)
  {
    forall i, j | 0 <= i < j < |d| ensures d[i] != d[j] {
      if d[i] == d[j] {
        TwiceMeansTwo(d, i, j);
        OnceMeansOne(c, d[i]);
      }
    }
  }

  lemma TwiceMeansTwo<T>(d: seq<T>, i: nat, j: nat)
    requires i < j < |d| && d[i] == d[j]
    ensures multiset(d)[d[i]] >= 2
  {
    assert d == d[..i] + [d[i]] + d[i + 1..j] + [d[j]] + d[j + 1..];
  }

  lemma {:induction false} OnceMeansOne<T>(c: seq<T>, t: T)
    requires forall i, j :: 0 <= i < j < |c| ==> c[i] != c[j]
    ensures multiset(c)[t] <= 1
  {
    if c != [] {
      var r := c[..|c| - 1];
      assert c == r + [c[|c| - 1]];
      OnceMeansOne(r, t);
      if c[|c| - 1] == t { assert t !in r; }
    }
  }
}
