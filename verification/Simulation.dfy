/** The event diary and the clock loop. `Run` is what the loop means, on values; the class `Sim`
    does it in place on a pointer list. What an event does when it is invoked is a parameter: it may
    change the user's state and issue schedule and deschedule calls. */
module Simulation {
  import opened PointerList

  /** `id` is the construction counter of the source, so two events are the same object exactly when
      they are equal. */
  datatype Event<+P> = Event(id: nat, time: real, payload: P)

  predicate NotAfter<P>(x: Event<P>, y: Event<P>) {
    x.time <= y.time
  }

  function DiaryInsert<P>(diary: seq<Event<P>>, e: Event<P>): seq<Event<P>> {
    Inserted((x, y) => NotAfter(x, y), diary, e)
  }

  datatype Command<+P> = Schedule(time: real, payload: P) | Deschedule(event: Event<P>)

  datatype Program<!S, !P> = Program(
    invoke: (S, Event<P>, nat) -> (S, seq<Command<P>>),
    stop: (S, real) -> bool)

  /** The state of a simulation together with the fate of every event so far. `failed` is set by a
      deschedule of an event that is not in the diary. */
  datatype Machine<S, P> = Machine(
    user: S,
    clock: real,
    diary: seq<Event<P>>,
    failed: bool,
    scheduled: seq<Event<P>>,
    executed: seq<Event<P>>,
    cancelled: seq<Event<P>>,
    dropped: seq<Event<P>>)

  function Perform<S, P(==)>(m: Machine<S, P>, c: Command<P>): Machine<S, P> {
    match c
    case Schedule(time, payload) =>
      var e := Event(|m.scheduled|, time, payload);
      m.(diary := DiaryInsert(m.diary, e), scheduled := m.scheduled + [e])
    case Deschedule(e) =>
      if e !in m.diary then m.(failed := true)
      else
        var k := FirstOccurrence(m.diary, e);
        m.(diary := m.diary[..k] + m.diary[k + 1..], cancelled := m.cancelled + [e])
  }

  function PerformAll<S, P(==)>(m: Machine<S, P>, cs: seq<Command<P>>): Machine<S, P>
    decreases |cs|
  {
    if cs == [] || m.failed then m else PerformAll(Perform(m, cs[0]), cs[1..])
  }

  predicate Halted<S, P>(p: Program<S, P>, m: Machine<S, P>) {
    m.diary == [] || m.failed || p.stop(m.user, m.clock)
  }

  /** One turn of the loop: pop, move the clock, and invoke unless `stop` has just turned true. */
  function Turn<S, P(==)>(p: Program<S, P>, m: Machine<S, P>): Machine<S, P>
    requires m.diary != []
  {
    var e := m.diary[0];
    var popped := m.(diary := m.diary[1..], clock := e.time);
    if p.stop(m.user, e.time) then popped.(dropped := m.dropped + [e])
    else
      var (user, commands) := p.invoke(m.user, e, |m.scheduled|);
      PerformAll(popped.(user := user, executed := m.executed + [e]), commands)
  }

  function Run<S, P(==)>(p: Program<S, P>, m: Machine<S, P>, turns: nat): Machine<S, P>
    decreases turns
  {
    if turns == 0 || Halted(p, m) then m else Run(p, Turn(p, m), turns - 1)
  }

  // ---- each event has one fate ----

  ghost predicate Numbered<P>(scheduled: seq<Event<P>>) {
    forall i :: 0 <= i < |scheduled| ==> scheduled[i].id == i
  }

  /** Nothing is lost, repeated or invented: the scheduled events are exactly the executed, the
      descheduled, the dropped and the pending ones. */
  ghost predicate Accounted<S, P>(m: Machine<S, P>) {
    && Numbered(m.scheduled)
    && multiset(m.executed) + multiset(m.cancelled) + multiset(m.dropped) + multiset(m.diary)
       == multiset(m.scheduled)
  }

  lemma DiaryInsertElements<P>(diary: seq<Event<P>>, e: Event<P>)
    ensures multiset(DiaryInsert(diary, e)) == multiset(diary) + multiset{e}
  {
    InsertedKeepsElements((x, y) => NotAfter(x, y), diary, e);
  }

  lemma RemovalElements<P>(diary: seq<Event<P>>, k: nat)
    requires k < |diary|
    ensures multiset(diary[..k] + diary[k + 1..]) + multiset{diary[k]} == multiset(diary)
  {
    assert diary == diary[..k] + [diary[k]] + diary[k + 1..];
  }

  lemma ScheduleAccounts<S, P>(m: Machine<S, P>, time: real, payload: P)
    requires Accounted(m)
    ensures Accounted(Perform(m, Schedule(time, payload)))
  {
    var e := Event(|m.scheduled|, time, payload);
    DiaryInsertElements(m.diary, e);
    assert multiset(m.scheduled + [e]) == multiset(m.scheduled) + multiset{e};
  }

  lemma MoveOne<E>(a: multiset<E>, b: multiset<E>, b': multiset<E>, c: multiset<E>,
                   d: multiset<E>, d': multiset<E>, e: E)
    requires b' == b + multiset{e} && d == d' + multiset{e}
    ensures a + b' + c + d' == a + b + c + d
  {
  }

  lemma DescheduleAccounts<S, P>(m: Machine<S, P>, e: Event<P>)
    requires Accounted(m)
    ensures Accounted(Perform(m, Deschedule(e)))
  {
    if e in m.diary {
      var k := FirstOccurrence(m.diary, e);
      var left := m.diary[..k] + m.diary[k + 1..];
      RemovalElements(m.diary, k);
      MoveOne(multiset(m.executed), multiset(m.cancelled), multiset(m.cancelled + [e]),
              multiset(m.dropped), multiset(m.diary), multiset(left), e);
    }
  }

  lemma PerformAccounts<S, P>(m: Machine<S, P>, c: Command<P>)
    requires Accounted(m)
    ensures Accounted(Perform(m, c))
  {
    match c
    case Schedule(time, payload) => ScheduleAccounts(m, time, payload);
    case Deschedule(e) => DescheduleAccounts(m, e);
  }

  /** Commands touch only the diary and the fates of the events in it. */
  lemma {:induction false} PerformAllKeeps<S, P>(m: Machine<S, P>, cs: seq<Command<P>>)
    ensures PerformAll(m, cs).executed == m.executed && PerformAll(m, cs).dropped == m.dropped
    ensures PerformAll(m, cs).clock == m.clock && PerformAll(m, cs).user == m.user
    decreases |cs|
  {
    if cs != [] && !m.failed {
      PerformAllKeeps(Perform(m, cs[0]), cs[1..]);
    }
  }

  lemma {:induction false} PerformAllAccounts<S, P>(m: Machine<S, P>, cs: seq<Command<P>>)
    requires Accounted(m)
    ensures Accounted(PerformAll(m, cs))
    decreases |cs|
  {
    if cs != [] && !m.failed {
      PerformAccounts(m, cs[0]);
      PerformAllAccounts(Perform(m, cs[0]), cs[1..]);
    }
  }

  lemma TurnAccounts<S, P>(p: Program<S, P>, m: Machine<S, P>)
    requires Accounted(m) && m.diary != []
    ensures Accounted(Turn(p, m))
  {
    var e := m.diary[0];
    assert m.diary == [e] + m.diary[1..];
    var popped := m.(diary := m.diary[1..], clock := e.time);
    if !p.stop(m.user, e.time) {
      var (user, commands) := p.invoke(m.user, e, |m.scheduled|);
      PerformAllAccounts(popped.(user := user, executed := m.executed + [e]), commands);
    }
  }

  lemma {:induction false} RunAccounts<S, P>(p: Program<S, P>, m: Machine<S, P>, turns: nat)
    requires Accounted(m)
    ensures Accounted(Run(p, m, turns))
    decreases turns
  {
    if turns != 0 && !Halted(p, m) {
      TurnAccounts(p, m);
      RunAccounts(p, Turn(p, m), turns - 1);
    }
  }

  lemma {:induction false} NumberedDistinct<P>(s: seq<Event<P>>, e: Event<P>)
    requires Numbered(s)
    ensures multiset(s)[e] <= 1
  {
    if s != [] {
      var r := s[..|s| - 1];
      assert s == r + [s[|s| - 1]];
      NumberedDistinct(r, e);
      if e == s[|s| - 1] {
        assert forall i :: 0 <= i < |r| ==> r[i].id == i;
        assert e !in r;
      }
    }
  }

  /** Over any run of any program, every event that was ever scheduled has exactly one fate, and it
      has it once: run, descheduled, dropped, or still pending. In particular no event runs twice and
      none that was descheduled runs. */
  lemma EachEventHasOneFate<S, P>(p: Program<S, P>, m: Machine<S, P>, turns: nat, e: Event<P>)
    requires Accounted(m)
    ensures var r := Run(p, m, turns);
      multiset(r.executed)[e] + multiset(r.cancelled)[e] + multiset(r.dropped)[e] + multiset(r.diary)[e]
      == (if e in r.scheduled then 1 else 0)
  {
    RunAccounts(p, m, turns);
    var r := Run(p, m, turns);
    NumberedDistinct(r.scheduled, e);
    assert multiset(r.scheduled)[e]
        == (multiset(r.executed) + multiset(r.cancelled) + multiset(r.dropped) + multiset(r.diary))[e];
    assert e in r.scheduled <==> e in multiset(r.scheduled);
  }

  /** The loop throws an event away only as its last act: at most one event is dropped, and then
      `stop` holds at that event's own time. */
  lemma {:induction false} DroppedOnlyAtStop<S, P>(p: Program<S, P>, m: Machine<S, P>, turns: nat)
    requires m.dropped == []
    ensures var r := Run(p, m, turns);
      r.dropped == [] || (|r.dropped| == 1 && r.clock == r.dropped[0].time && p.stop(r.user, r.clock))
    decreases turns
  {
    if turns != 0 && !Halted(p, m) {
      var e := m.diary[0];
      var t := Turn(p, m);
      if p.stop(m.user, e.time) {
        assert Halted(p, t);
      } else {
        var (user, commands) := p.invoke(m.user, e, |m.scheduled|);
        PerformAllKeeps(
          m.(diary := m.diary[1..], clock := e.time, user := user, executed := m.executed + [e]), commands);
        DroppedOnlyAtStop(p, t, turns - 1);
      }
    }
  }

  /** What one turn more adds to any run: nothing if the diary is empty, a deschedule has failed or `stop` holds.
      Otherwise the first event is taken out at its own time, and either thrown away, because `stop` holds then,
      or executed in the state that the user is in. */
  lemma {:induction false} OneTurnMore<S, P>(p: Program<S, P>, m: Machine<S, P>, turns: nat)
    ensures var r, t := Run(p, m, turns), Run(p, m, turns + 1);
      if r.diary == [] || r.failed || p.stop(r.user, r.clock) then t == r
      else
        && t.clock == r.diary[0].time
        && if p.stop(r.user, r.diary[0].time) then
             t.user == r.user && t.dropped == r.dropped + [r.diary[0]] && t.executed == r.executed
             && t.diary == r.diary[1..] && t.scheduled == r.scheduled && t.cancelled == r.cancelled
           else
             t.executed == r.executed + [r.diary[0]] && t.dropped == r.dropped
             && t.user == p.invoke(r.user, r.diary[0], |r.scheduled|).0
    decreases turns
  {
    if turns > 0 && !Halted(p, m) {
      OneTurnMore(p, Turn(p, m), turns - 1);
    } else if turns == 0 && !Halted(p, m) {
      assert Run(p, m, 1) == Run(p, Turn(p, m), 0) == Turn(p, m);
      var e := m.diary[0];
      if !p.stop(m.user, e.time) {
        var (user, commands) := p.invoke(m.user, e, |m.scheduled|);
        PerformAllKeeps(
          m.(diary := m.diary[1..], clock := e.time, user := user, executed := m.executed + [e]), commands);
      }
    }
  }

  // ---- the order in which events run ----

  /** Time order, ties broken by the order of scheduling. */
  predicate Precedes<P>(x: Event<P>, y: Event<P>) {
    x.time < y.time || (x.time == y.time && x.id < y.id)
  }

  ghost predicate Chronological<P>(s: seq<Event<P>>) {
    forall i, j :: 0 <= i < j < |s| ==> Precedes(s[i], s[j])
  }

  /** Events executed so far, then events pending, form one chronological line whose past is at or
      before the clock and whose future is at or after it. */
  ghost predicate InOrder<S, P>(m: Machine<S, P>) {
    && Chronological(m.executed + m.diary)
    && (forall e :: e in m.executed ==> e.time <= m.clock && e.id < |m.scheduled|)
    && (forall e :: e in m.diary ==> m.clock <= e.time && e.id < |m.scheduled|)
  }

  /** What the next turn asks the diary to do. */
  function Issued<S, P>(p: Program<S, P>, m: Machine<S, P>): seq<Command<P>>
    requires m.diary != []
  {
    if p.stop(m.user, m.diary[0].time) then [] else p.invoke(m.user, m.diary[0], |m.scheduled|).1
  }

  /** In none of these turns of this run does an event schedule into the past. The diary itself does not
      check this. */
  ghost predicate NeverIntoPast<S, P>(p: Program<S, P>, m: Machine<S, P>, turns: nat)
    decreases turns
  {
    turns == 0 || Halted(p, m)
    || (NoPast(m.diary[0].time, Issued(p, m)) && NeverIntoPast(p, Turn(p, m), turns - 1))
  }

  ghost predicate NoPast<P>(now: real, cs: seq<Command<P>>) {
    forall i :: 0 <= i < |cs| && cs[i].Schedule? ==> now <= cs[i].time
  }

  lemma ChronologicalInsert<P>(before: seq<Event<P>>, diary: seq<Event<P>>, e: Event<P>)
    requires Chronological(before + diary)
    requires forall x :: x in before ==> x.time <= e.time && x.id < e.id
    requires forall x :: x in diary ==> x.id < e.id
    ensures Chronological(before + DiaryInsert(diary, e))
  {
    var k := InsertionPoint((x, y) => NotAfter(x, y), diary, e);
    var old', new' := before + diary, before + DiaryInsert(diary, e);
    var at := |before| + k;
    assert forall i :: 0 <= i < at ==> new'[i] == old'[i];
    assert new'[at] == e;
    assert forall i :: at < i < |new'| ==> new'[i] == old'[i - 1];
    assert forall i :: 0 <= i < k ==> NotAfter(diary[i], e);
    forall i | 0 <= i < |old'| ensures i < at ==> Precedes(old'[i], e)
                               ensures i >= at ==> Precedes(e, old'[i])
    {
      if i < |before| { assert old'[i] in before; }
      else {
        assert old'[i] == diary[i - |before|];
        if i > at { assert Precedes(old'[at], old'[i]); assert old'[at] == diary[k]; }
      }
    }
  }

  lemma ChronologicalRemoval<P>(before: seq<Event<P>>, diary: seq<Event<P>>, k: nat)
    requires Chronological(before + diary) && k < |diary|
    ensures Chronological(before + (diary[..k] + diary[k + 1..]))
  {
    var all, left := before + diary, before + (diary[..k] + diary[k + 1..]);
    assert forall i :: 0 <= i < |left| ==> left[i] == all[if i < |before| + k then i else i + 1];
  }

  lemma PerformInOrder<S, P>(m: Machine<S, P>, c: Command<P>)
    requires InOrder(m)
    requires c.Schedule? ==> m.clock <= c.time
    ensures InOrder(Perform(m, c))
  {
    match c
    case Schedule(time, payload) =>
      var e := Event(|m.scheduled|, time, payload);
      assert forall x :: x in DiaryInsert(m.diary, e) ==> x in m.diary || x == e;
      ChronologicalInsert(m.executed, m.diary, e);
    case Deschedule(e) =>
      if e in m.diary {
        ChronologicalRemoval(m.executed, m.diary, FirstOccurrence(m.diary, e));
      }
  }

  lemma {:induction false} PerformAllInOrder<S, P>(m: Machine<S, P>, cs: seq<Command<P>>)
    requires InOrder(m) && NoPast(m.clock, cs)
    ensures InOrder(PerformAll(m, cs))
    decreases |cs|
  {
    if cs != [] && !m.failed {
      PerformInOrder(m, cs[0]);
      PerformAllInOrder(Perform(m, cs[0]), cs[1..]);
    }
  }

  lemma TurnInOrder<S, P>(p: Program<S, P>, m: Machine<S, P>)
    requires InOrder(m) && m.diary != [] && NoPast(m.diary[0].time, Issued(p, m))
    ensures InOrder(Turn(p, m)) && m.clock <= Turn(p, m).clock
  {
    var e := m.diary[0];
    var all := m.executed + m.diary;
    assert all[|m.executed|] == e;
    var popped := m.(diary := m.diary[1..], clock := e.time);
    forall x | x in m.diary[1..] ensures Precedes(e, x) {
      var i :| 0 <= i < |m.diary| - 1 && m.diary[1..][i] == x;
      assert all[|m.executed| + 1 + i] == x;
    }
    if p.stop(m.user, e.time) {
      var left := m.executed + m.diary[1..];
      assert forall i :: 0 <= i < |left| ==> left[i] == all[if i < |m.executed| then i else i + 1];
    } else {
      var (user, commands) := p.invoke(m.user, e, |m.scheduled|);
      var next := popped.(user := user, executed := m.executed + [e]);
      assert next.executed + next.diary == all;
      PerformAllInOrder(next, commands);
      PerformAllKeeps(next, commands);
    }
  }

  /** Whatever the events do, as long as none of those that run schedules into the past: over the whole
      run events are executed in chronological order with ties in scheduling order, everything still
      pending comes after everything executed, and the clock never goes back. */
  lemma {:induction false} RunInOrder<S, P>(p: Program<S, P>, m: Machine<S, P>, turns: nat)
    requires InOrder(m) && NeverIntoPast(p, m, turns)
    ensures InOrder(Run(p, m, turns)) && m.clock <= Run(p, m, turns).clock
    ensures Chronological(Run(p, m, turns).executed)
    decreases turns
  {
    var r := Run(p, m, turns);
    if turns != 0 && !Halted(p, m) {
      TurnInOrder(p, m);
      RunInOrder(p, Turn(p, m), turns - 1);
    } else {
      assert forall i :: 0 <= i < |r.executed| ==> (r.executed + r.diary)[i] == r.executed[i];
    }
  }

  // ---- the loop in place ----

  class Sim<S, P(==)> {
    var user: S
    var clock: real
    const diary: List<Event<P>>
    var eventsCreated: nat
    ghost var scheduled: seq<Event<P>>
    ghost var executed: seq<Event<P>>
    ghost var cancelled: seq<Event<P>>
    ghost var dropped: seq<Event<P>>
    var failed: bool

    ghost predicate Valid()
      reads this, diary, diary.Repr
    {
      diary.Valid() && this !in diary.Repr && eventsCreated == |scheduled|
    }

    ghost function Snapshot(): Machine<S, P>
      reads this, diary
    {
      Machine(user, clock, diary.contents, failed, scheduled, executed, cancelled, dropped)
    }

    constructor (user: S)
      ensures Valid() && fresh(diary) && fresh(diary.Repr)
      ensures Snapshot() == Machine(user, 0.0, [], false, [], [], [], [])
    {
      this.user, clock, eventsCreated, failed := user, 0.0, 0, false;
      diary := new List();
      scheduled, executed, cancelled, dropped := [], [], [], [];
    }

    method Schedule(time: real, payload: P) returns (e: Event<P>)
      requires Valid()
      modifies this, diary.Repr
      ensures Valid() && fresh(diary.Repr - old(diary.Repr))
      ensures e == Event(old(|scheduled|), time, payload)
      ensures Snapshot() == Perform(old(Snapshot()), Command.Schedule(time, payload))
    {
      e := Event(eventsCreated, time, payload);
      eventsCreated := eventsCreated + 1;
      diary.InsertInOrder((x, y) => NotAfter(x, y), e);
      scheduled := scheduled + [e];
    }

    method Deschedule(e: Event<P>)
      requires Valid()
      modifies this, diary.Repr
      ensures Valid() && diary.Repr == old(diary.Repr)
      ensures Snapshot() == Perform(old(Snapshot()), Command.Deschedule(e))
    {
      var outcome := diary.Remove(e);
      if outcome.NullDereference? {
        failed := true;
      } else {
        cancelled := cancelled + [e];
      }
    }

    method PerformCommand(c: Command<P>)
      requires Valid()
      modifies this, diary.Repr
      ensures Valid() && fresh(diary.Repr - old(diary.Repr))
      ensures Snapshot() == Perform(old(Snapshot()), c)
    {
      match c
      case Schedule(time, payload) => var _ := Schedule(time, payload);
      case Deschedule(e) => Deschedule(e);
    }

    method PerformCommands(cs: seq<Command<P>>)
      requires Valid()
      modifies this, diary.Repr
      ensures Valid() && fresh(diary.Repr - old(diary.Repr))
      ensures Snapshot() == PerformAll(old(Snapshot()), cs)
    {
      var i := 0;
      while i < |cs| && !failed
        invariant i <= |cs|
        invariant Valid() && fresh(diary.Repr - old(diary.Repr))
        invariant PerformAll(Snapshot(), cs[i..]) == PerformAll(old(Snapshot()), cs)
      {
        assert cs[i..][0] == cs[i] && cs[i..][1..] == cs[i + 1..];
        PerformCommand(cs[i]);
        i := i + 1;
      }
    }

    /** Takes the first event out of the diary and moves the clock to it. */
    method NextEvent() returns (e: Event<P>)
      requires Valid() && diary.contents != []
      modifies this, diary.Repr
      ensures Valid() && diary.Repr == old(diary.Repr)
      ensures e == old(diary.contents)[0]
      ensures Snapshot() == old(Snapshot()).(diary := old(diary.contents)[1..], clock := e.time)
    {
      e := diary.RemoveFromFront();
      clock := e.time;
    }

    /** The body of the loop. */
    method TakeTurn(p: Program<S, P>)
      requires Valid() && diary.contents != []
      modifies this, diary.Repr
      ensures Valid() && fresh(diary.Repr - old(diary.Repr))
      ensures Snapshot() == Turn(p, old(Snapshot()))
    {
      var e := NextEvent();
      if !p.stop(user, clock) {
        var (u, commands) := p.invoke(user, e, eventsCreated);
        user := u;
        executed := executed + [e];
        PerformCommands(commands);
      } else {
        dropped := dropped + [e];
      }
    }

    /** The first `turns` turns of the loop. */
    method Go(p: Program<S, P>, turns: nat)
      requires Valid()
      modifies this, diary.Repr
      ensures Valid() && fresh(diary.Repr - old(diary.Repr))
      ensures Snapshot() == Run(p, old(Snapshot()), turns)
    {
      var n := turns;
      while n > 0 && !diary.IsEmpty() && !failed && !p.stop(user, clock)
        invariant Valid() && fresh(diary.Repr - old(diary.Repr))
        invariant Run(p, Snapshot(), n) == Run(p, old(Snapshot()), turns)
      {
        TakeTurn(p);
        n := n - 1;
      }
    }
  }
}
