/** The part of the event diary that belongs to one node. */
module NodeDiary {
  import opened PointerList
  import opened Simulation

  /** What an event in the diary is for: the end of service at a processor-sharing node, the end of a
      customer's service at a queueing node, or something else. */
  datatype Token = EndOfService(node: nat) | EndService(node: nat, customer: nat) | Elsewhere(tag: nat)

  type Diary = seq<Event<Token>>

  predicate IsOwn(e: Event<Token>, node: nat) {
    !e.payload.Elsewhere? && e.payload.node == node
  }

  function Own(diary: Diary, node: nat): Diary {
    if diary == [] then [] else IfOwn(diary[0], node) + Own(diary[1..], node)
  }

  function IfOwn(e: Event<Token>, node: nat): Diary {
    if IsOwn(e, node) then [e] else []
  }

  /** The diary is in time order and nothing in it is in the past. */
  ghost predicate Upcoming(diary: Diary, now: real) {
    && (forall i, j :: 0 <= i < j < |diary| ==> diary[i].time <= diary[j].time)
    && (forall i :: 0 <= i < |diary| ==> now <= diary[i].time)
  }

  lemma Associates(a: Diary, b: Diary, c: Diary)
    ensures a + (b + c) == (a + b) + c
  {
  }

  lemma {:induction false} OwnConcatenate(a: Diary, b: Diary, node: nat)
    ensures Own(a + b, node) == Own(a, node) + Own(b, node)
  {
    hide IfOwn;
    if a == [] {
      assert a + b == b;
    } else {
      assert (a + b)[1..] == a[1..] + b;
      OwnConcatenate(a[1..], b, node);
      Associates(IfOwn(a[0], node), Own(a[1..], node), Own(b, node));
    }
  }

  lemma OwnOne(e: Event<Token>, node: nat)
    ensures Own([e], node) == IfOwn(e, node)
  {
    assert [e][1..] == [];
  }

  lemma {:induction false} OwnFrom(diary: Diary, node: nat, i: nat) returns (j: nat)
    requires i < |Own(diary, node)|
    ensures j < |diary| && diary[j] == Own(diary, node)[i] && IsOwn(diary[j], node)
  {
    if IsOwn(diary[0], node) && i == 0 {
      j := 0;
    } else {
      var k := OwnFrom(diary[1..], node, if IsOwn(diary[0], node) then i - 1 else i);
      j := k + 1;
    }
  }

  lemma {:induction false} OwnIn(diary: Diary, node: nat, j: nat)
    requires j < |diary| && IsOwn(diary[j], node)
    ensures diary[j] in Own(diary, node)
  {
    if j > 0 { OwnIn(diary[1..], node, j - 1); }
  }

  lemma DiaryInsertAt(diary: Diary, e: Event<Token>) returns (k: nat)
    ensures k <= |diary| && DiaryInsert(diary, e) == diary[..k] + [e] + diary[k..]
    ensures forall i :: 0 <= i < k ==> diary[i].time <= e.time
    ensures k < |diary| ==> e.time < diary[k].time
  {
    var before := (x, y) => NotAfter(x, y);
    k := InsertedAt(before, diary, e);
    assert forall i :: 0 <= i < k ==> before(diary[i], e);
    assert k < |diary| ==> !before(diary[k], e);
  }

  lemma OwnAround(diary: Diary, k: nat, e: Event<Token>, node: nat)
    requires k <= |diary|
    ensures Own(diary, node) == Own(diary[..k], node) + Own(diary[k..], node)
    ensures Own(diary[..k] + [e] + diary[k..], node)
         == Own(diary[..k], node) + IfOwn(e, node) + Own(diary[k..], node)
  {
    hide Own;
    OwnConcatenate(diary[..k], diary[k..], node);
    assert diary == diary[..k] + diary[k..];
    OwnConcatenate(diary[..k] + [e], diary[k..], node);
    OwnConcatenate(diary[..k], [e], node);
    OwnOne(e, node);
  }

  /** What others schedule is not seen. */
  lemma ForeignInsert(diary: Diary, e: Event<Token>, node: nat)
    requires !IsOwn(e, node)
    ensures Own(DiaryInsert(diary, e), node) == Own(diary, node)
  {
    var k := DiaryInsertAt(diary, e);
    OwnAround(diary, k, e, node);
    hide Own, DiaryInsert;
  }

  /** What the node schedules enters its part of the diary in time order, behind what is due at the same
      time. */
  lemma OwnInsert(diary: Diary, e: Event<Token>, node: nat, now: real) returns (k: nat)
    requires IsOwn(e, node) && Upcoming(diary, now)
    ensures var own := Own(diary, node);
      && k <= |own| && Own(DiaryInsert(diary, e), node) == own[..k] + [e] + own[k..]
      && (forall i :: 0 <= i < k ==> own[i].time <= e.time)
      && (forall i :: k <= i < |own| ==> e.time < own[i].time)
  {
    var at := DiaryInsertAt(diary, e);
    OwnAround(diary, at, e, node);
    hide Own, DiaryInsert;
    k := |Own(diary[..at], node)|;
    var own := Own(diary, node);
    forall i | 0 <= i < k ensures own[i].time <= e.time {
      var j := OwnFrom(diary[..at], node, i);
    }
    forall i | k <= i < |own| ensures e.time < own[i].time {
      var j := OwnFrom(diary[at..], node, i - k);
      assert diary[at + j].time >= diary[at].time;
    }
  }

  lemma FirstInsert(diary: Diary, e: Event<Token>, node: nat)
    requires IsOwn(e, node) && Own(diary, node) == []
    ensures Own(DiaryInsert(diary, e), node) == [e]
  {
    var k := DiaryInsertAt(diary, e);
    OwnAround(diary, k, e, node);
    hide Own, DiaryInsert;
  }

  function Without(diary: Diary, e: Event<Token>): Diary
    requires e in diary
  {
    var k := FirstOccurrence(diary, e);
    diary[..k] + diary[k + 1..]
  }

  lemma OwnOfThree(a: Diary, e: Event<Token>, b: Diary, node: nat)
    ensures Own(a + b, node) == Own(a, node) + Own(b, node)
    ensures Own(a + [e] + b, node) == Own(a, node) + IfOwn(e, node) + Own(b, node)
  {
    hide Own;
    OwnConcatenate(a + [e], b, node);
    OwnConcatenate(a, [e], node);
    OwnOne(e, node);
    OwnConcatenate(a, b, node);
  }

  lemma OwnWithout(diary: Diary, e: Event<Token>, node: nat)
    requires e in diary
    ensures !IsOwn(e, node) ==> Own(Without(diary, e), node) == Own(diary, node)
    ensures Own(diary, node) == [e] ==> Own(Without(diary, e), node) == []
  {
    hide Own;
    var k := FirstOccurrence(diary, e);
    var a, b := diary[..k], diary[k + 1..];
    OwnOfThree(a, e, b, node);
    assert diary == a + [e] + b;
    if Own(diary, node) == [e] {
      var j := OwnFrom(diary, node, 0);
      OnlyOne(Own(a, node), e, Own(b, node));
    }
  }

  lemma OnlyOne(a: Diary, e: Event<Token>, b: Diary)
    requires a + [e] + b == [e]
    ensures a + b == []
  {
    assert |a + [e] + b| == |a| + 1 + |b|;
  }

  lemma UpcomingInsert(diary: Diary, e: Event<Token>, now: real)
    requires Upcoming(diary, now) && now <= e.time
    ensures Upcoming(DiaryInsert(diary, e), now)
  {
    var k := DiaryInsertAt(diary, e);
    hide DiaryInsert;
    var r := DiaryInsert(diary, e);
    forall i | 0 <= i < |diary| ensures if i < k then diary[i].time <= e.time else e.time <= diary[i].time {
      if i > k { assert diary[k].time <= diary[i].time; }
    }
    forall i, j | 0 <= i < j < |r| ensures r[i].time <= r[j].time {
      assert r[i] == (if i < k then diary[i] else if i == k then e else diary[i - 1]);
      assert r[j] == (if j < k then diary[j] else if j == k then e else diary[j - 1]);
    }
    forall i | 0 <= i < |r| ensures now <= r[i].time {
      assert r[i] == (if i < k then diary[i] else if i == k then e else diary[i - 1]);
    }
  }

  lemma UpcomingWithout(diary: Diary, e: Event<Token>, now: real)
    requires Upcoming(diary, now) && e in diary
    ensures Upcoming(Without(diary, e), now)
  {
    var k := FirstOccurrence(diary, e);
    var r := Without(diary, e);
    forall i | 0 <= i < |r| ensures r[i] == diary[if i < k then i else i + 1] {}
  }

  lemma UpcomingNext(diary: Diary, now: real)
    requires Upcoming(diary, now) && diary != []
    ensures Upcoming(diary[1..], diary[0].time) && now <= diary[0].time
  {
  }

  /** An event that others take out of the diary comes no later than the node's own. */
  lemma OwnIsLater(diary: Diary, now: real, node: nat)
    requires Upcoming(diary, now) && diary != []
    ensures forall i :: 0 <= i < |Own(diary, node)| ==> diary[0].time <= Own(diary, node)[i].time
  {
    forall i | 0 <= i < |Own(diary, node)| ensures diary[0].time <= Own(diary, node)[i].time {
      var j := OwnFrom(diary, node, i);
    }
  }

  lemma OwnTail(diary: Diary, id: nat)
    requires diary != []
    ensures !IsOwn(diary[0], id) ==> Own(diary[1..], id) == Own(diary, id)
    ensures IsOwn(diary[0], id) ==>
      Own(diary, id) != [] && Own(diary, id)[0] == diary[0] && Own(diary, id)[1..] == Own(diary[1..], id)
  {
  }

  // ---- commands ----

  lemma {:induction false} PerformConcatenate<S>(m: Machine<S, Token>, a: seq<Command<Token>>, b: seq<Command<Token>>)
    ensures PerformAll(m, a + b) == PerformAll(PerformAll(m, a), b)
    decreases |a|
  {
    hide Perform;
    if a == [] || m.failed {
      assert a == [] ==> a + b == b;
    } else {
      assert (a + b)[1..] == a[1..] + b;
      PerformConcatenate(Perform(m, a[0]), a[1..], b);
    }
  }

  lemma PerformOne<S>(m: Machine<S, Token>, c: Command<Token>)
    requires !m.failed
    ensures PerformAll(m, [c]) == Perform(m, c)
  {
    assert PerformAll(Perform(m, c), [c][1..]) == Perform(m, c);
  }

  /** Delays and demands are not negative. */
  type Duration = x: real | x >= 0.0

  /** What is not in the diary does not change while commands are performed. */
  ghost predicate SameOtherwise<S>(m: Machine<S, Token>, t: Machine<S, Token>) {
    t.clock == m.clock && t.user == m.user && t.dropped == m.dropped && t.executed == m.executed
  }

  /** Scheduling an event leaves the diary of everyone else as it is. */
  lemma ScheduleEffect<S>(m: Machine<S, Token>, time: real, token: Token)
    requires Upcoming(m.diary, m.clock) && m.clock <= time
    ensures var t := Perform(m, Schedule(time, token));
      && Upcoming(t.diary, t.clock) && SameOtherwise(m, t)
      && t.failed == m.failed && |t.scheduled| == |m.scheduled| + 1
      && forall node :: !IsOwn(Event(|m.scheduled|, time, token), node) ==> Own(t.diary, node) == Own(m.diary, node)
  {
    hide Own, DiaryInsert, Upcoming;
    var e := Event(|m.scheduled|, time, token);
    UpcomingInsert(m.diary, e, m.clock);
    forall node | !IsOwn(e, node) ensures Own(DiaryInsert(m.diary, e), node) == Own(m.diary, node) {
      ForeignInsert(m.diary, e, node);
    }
  }

  /** So does descheduling one that is there; if it was its owner's only event, none is left. */
  lemma DescheduleEffect<S>(m: Machine<S, Token>, e: Event<Token>, owner: nat)
    requires Upcoming(m.diary, m.clock) && Own(m.diary, owner) == [e]
    ensures var t := Perform(m, Deschedule(e));
      && Upcoming(t.diary, t.clock) && SameOtherwise(m, t)
      && t.failed == m.failed && t.scheduled == m.scheduled && Own(t.diary, owner) == []
      && forall node :: node != owner ==> Own(t.diary, node) == Own(m.diary, node)
  {
    hide Own, Upcoming;
    var j := OwnFrom(m.diary, owner, 0);
    UpcomingWithout(m.diary, e, m.clock);
    OwnWithout(m.diary, e, owner);
    forall node | node != owner ensures Own(Without(m.diary, e), node) == Own(m.diary, node) {
      OwnWithout(m.diary, e, node);
    }
  }

  /** An event the clock loop has taken out cannot be descheduled. */
  lemma DescheduleTaken<S>(m: Machine<S, Token>, e: Event<Token>, node: nat)
    requires Own(m.diary, node) == [] && IsOwn(e, node)
    ensures Perform(m, Deschedule(e)) == m.(failed := true)
  {
    if e in m.diary {
      var j :| 0 <= j < |m.diary| && m.diary[j] == e;
      OwnIn(m.diary, node, j);
    }
  }
}
