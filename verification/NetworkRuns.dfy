/** Whole simulations of a network of service nodes. */
module NetworkRuns {
  import opened Workload
  import opened Simulation
  import opened NodeDiary
  import opened ServiceNodes
  import opened Networks
  import QN = Queueing
  import PS = ProcessorSharing
  import PR = PreemptiveResume
  import W = WorkConservation

  /** Every node is sound and has got where it is by a run of its own. Its part of the diary, with the event
      that the loop has dropped put back, is what it waits for; and nothing left in the diary is in the past. */
  ghost predicate Kept<E>(m: Machine<System<E>, Token>) {
    && (forall i :: 0 <= i < |m.user.stations| ==> KeptAt(i, m.user.stations[i], m.dropped + m.diary, m.clock))
    && forall e :: e in m.diary ==> m.clock <= e.time
  }

  ghost predicate KeptAt(id: nat, st: Station, diary: Diary, now: real) {
    && Holds(id, Own(diary, id), st, false) && Sound(st.node) && Now(st.node) <= now
    && RunNode(st.start, st.steps) == Some(st.node)
  }

  /** Either all this holds or a customer has come straight back and the simulation has failed. At most one
      event has been dropped, and then the loop has stopped. */
  ghost predicate Inv<E>(w: World<E>, starts: seq<Station>, m: Machine<System<E>, Token>) {
    && (m.failed <==> m.user.fedBack)
    && |m.dropped| <= 1 && (m.dropped != [] ==> w.stop(m.user.env, Nodes(m.user.stations), m.clock))
    && (!m.failed ==> Kept(m) && SameStarts(starts, m.user.stations))
    && (m.dropped == [] && !m.failed ==> Consistent(m))
  }

  lemma ConsistentIsKept<E>(m: Machine<System<E>, Token>)
    requires Consistent(m) && m.dropped == []
    ensures Kept(m)
  {
    hide Holds, Own, Sound, RunNode;
    assert m.dropped + m.diary == m.diary;
  }

  /** Dropping the next event takes it from its owner's part of the diary and does nothing else. */
  lemma DropKeeps<E>(m: Machine<System<E>, Token>)
    requires Consistent(m) && m.dropped == [] && m.diary != []
    ensures Kept(m.(diary := m.diary[1..], clock := m.diary[0].time, dropped := m.dropped + [m.diary[0]]))
  {
    hide Holds, Own, Sound, RunNode;
    assert (m.dropped + [m.diary[0]]) + m.diary[1..] == m.diary;
    UpcomingNext(m.diary, m.clock);
  }

  /** The next event is invoked, and it brings a customer back to the single-server node it belongs to. */
  predicate ComesBackNow<E>(w: World<E>, m: Machine<System<E>, Token>)
    requires m.diary != []
  {
    !w.stop(m.user.env, Nodes(m.user.stations), m.diary[0].time) && ComesBack(w, m)
  }

  /** One turn of the clock loop. It schedules nothing into the past, and it fails exactly when a customer
      comes straight back to a single-server node. */
  lemma TurnKeeps<E>(w: World<E>, starts: seq<Station>, m: Machine<System<E>, Token>)
    requires Inv(w, starts, m) && !Halted(Loop(w), m)
    ensures Inv(w, starts, Turn(Loop(w), m))
    ensures NoPast(m.diary[0].time, Issued(Loop(w), m))
    ensures Turn(Loop(w), m).failed <==> ComesBackNow(w, m)
  {
    hide Upcoming, Own, Holds, AllFit, Acts, Owner, Dispatch, PerformAll, NoPast, SameStarts, Kept;
    var e := m.diary[0];
    if w.stop(m.user.env, Nodes(m.user.stations), e.time) {
      NoCommands(e.time);
      DropKeeps(m);
    } else {
      var (u, cs) := Dispatch(w, m.user, e, |m.scheduled|);
      assert Turn(Loop(w), m) == PerformAll(Popped(m, u), cs);
      if Owner(e, |m.user.stations|).None? {
        DispatchElsewhere(w, m);
      } else {
        DispatchOwn(w, m, Owner(e, |m.user.stations|).value);
      }
      StartsStay(starts, m.user.stations, u.stations);
      if !Turn(Loop(w), m).failed { ConsistentIsKept(Turn(Loop(w), m)); }
    }
  }

  lemma NoCommands(now: real)
    ensures NoPast<Token>(now, [])
  {
  }

  lemma StartsStay(a: seq<Station>, b: seq<Station>, c: seq<Station>)
    ensures SameStarts(a, b) && SameStarts(b, c) ==> SameStarts(a, c)
  {
  }

  lemma {:induction false} RunKeeps<E>(w: World<E>, starts: seq<Station>, m: Machine<System<E>, Token>, turns: nat)
    requires Inv(w, starts, m)
    ensures Inv(w, starts, Simulation.Run(Loop(w), m, turns)) && NeverIntoPast(Loop(w), m, turns)
    decreases turns
  {
    hide Inv, Turn, Loop, NoPast, Issued;
    if turns != 0 && !Halted(Loop(w), m) {
      TurnKeeps(w, starts, m);
      RunKeeps(w, starts, Turn(Loop(w), m), turns - 1);
    }
  }

  // ---- the theorems ----

  predicate IsInitial(n: Node) {
    match n
    case Sharing(s) => s == PS.Initial(s.capacity)
    case Resuming(r) => r == PR.Initial()
    case Pooling(q) => q == QN.Initial(q.servers, q.discipline, q.capacity)
  }

  /** A simulation about to start: nobody is in any node, and no node has an event in the diary. */
  ghost predicate Starting<E>(m: Machine<System<E>, Token>) {
    && (forall i :: 0 <= i < |m.user.stations| ==> StationStarts(m.user.stations[i]) && Own(m.diary, i) == [])
    && !m.user.fedBack
    && m.clock == 0.0 && !m.failed && m.dropped == [] && Upcoming(m.diary, 0.0)
  }

  predicate StationStarts(st: Station) {
    IsInitial(st.start) && st.node == st.start && st.steps == []
  }

  lemma StationReady(id: nat, st: Station)
    requires StationStarts(st)
    ensures Fits(st, 0.0) && Holds(id, [], st, false)
  {
    hide PS.Refines;
    match st.start
    case Sharing(s) => PS.InitialRefines(s.capacity);
    case Resuming(r) =>
    case Pooling(q) =>
      QN.InitialConsistent(q.servers, q.discipline, q.capacity);
      assert Endings([]) == [];
  }

  lemma StartingInv<E>(w: World<E>, m: Machine<System<E>, Token>)
    requires Starting(m)
    ensures Inv(w, m.user.stations, m)
  {
    hide Own, Upcoming, Fits, Holds, StationStarts, Kept;
    forall i | 0 <= i < |m.user.stations|
      ensures Fits(m.user.stations[i], 0.0) && Holds(i, Own(m.diary, i), m.user.stations[i], false)
    {
      StationReady(i, m.user.stations[i]);
    }
    assert Consistent(m);
    ConsistentIsKept(m);
  }

  /** Whatever the rest of the world does, in every state the simulation reaches without failing: every node
      has got where it is by a run of its own from its start; its part of the diary is what the node waits
      for (one event per taken server of a pool, with its customer; one event of a busy single-server node;
      none of an idle one), except that the event the loop drops when it stops is missing; and nothing in the
      diary is in the past. */
  lemma ConsistentThroughout<E>(w: World<E>, m: Machine<System<E>, Token>, turns: nat, i: nat)
    requires Starting(m) && i < |m.user.stations|
    ensures var r := Simulation.Run(Loop(w), m, turns);
      && (r.failed <==> r.user.fedBack) && |r.dropped| <= 1
      && (!r.failed ==>
            && |r.user.stations| == |m.user.stations|
            && Holds(i, Own(r.dropped + r.diary, i), r.user.stations[i], false)
            && Sound(r.user.stations[i].node) && Now(r.user.stations[i].node) <= r.clock
            && RunNode(m.user.stations[i].node, r.user.stations[i].steps) == Some(r.user.stations[i].node)
            && (forall e :: e in r.diary ==> r.clock <= e.time))
      && (!r.failed && r.dropped == [] ==> Now(r.user.stations[i].node) == r.clock)
  {
    hide Own, Sound, Holds, RunNode, Loop, Simulation.Run, NeverIntoPast, Upcoming;
    StartingInv(w, m);
    RunKeeps(w, m.user.stations, m, turns);
    var r := Simulation.Run(Loop(w), m, turns);
    if !r.failed { assert KeptAt(i, r.user.stations[i], r.dropped + r.diary, r.clock); }
  }

  /** In every simulation of a network events are executed in chronological order, ties in the order of
      scheduling, and the clock never goes back. */
  lemma RunsInOrder<E>(w: World<E>, m: Machine<System<E>, Token>, turns: nat)
    requires Starting(m) && InOrder(m)
    ensures var r := Simulation.Run(Loop(w), m, turns);
      InOrder(r) && m.clock <= r.clock && Chronological(r.executed)
  {
    hide Starting, InOrder, Chronological, Inv, Loop, NeverIntoPast, Simulation.Run;
    StartingInv(w, m);
    RunKeeps(w, m.user.stations, m, turns);
    RunInOrder(Loop(w), m, turns);
  }

  /** In one of these turns a customer comes straight back to a single-server node. */
  ghost predicate SomeoneComesBack<E>(w: World<E>, m: Machine<System<E>, Token>, turns: nat)
    decreases turns
  {
    turns > 0 && !Halted(Loop(w), m)
    && (ComesBackNow(w, m) || SomeoneComesBack(w, Turn(Loop(w), m), turns - 1))
  }

  /** A deschedule misses exactly if a customer comes straight back to a single-server node. */
  lemma {:induction false} FailsExactlyIf<E>(w: World<E>, starts: seq<Station>, m: Machine<System<E>, Token>,
                                             turns: nat)
    requires Inv(w, starts, m) && !m.failed
    ensures Simulation.Run(Loop(w), m, turns).failed <==> SomeoneComesBack(w, m, turns)
    decreases turns
  {
    hide Inv, Turn, Loop, ComesBackNow;
    if turns != 0 && !Halted(Loop(w), m) {
      TurnKeeps(w, starts, m);
      var t := Turn(Loop(w), m);
      if t.failed {
        FailedStays(w, t, turns - 1);
      } else {
        FailsExactlyIf(w, starts, t, turns - 1);
      }
    }
  }

  lemma FailedStays<E>(w: World<E>, m: Machine<System<E>, Token>, turns: nat)
    requires m.failed
    ensures Simulation.Run(Loop(w), m, turns) == m && Halted(Loop(w), m)
  {
    hide Turn;
  }

  lemma FailsExactlyIfSomeoneComesBack<E>(w: World<E>, m: Machine<System<E>, Token>, turns: nat)
    requires Starting(m)
    ensures Simulation.Run(Loop(w), m, turns).failed <==> SomeoneComesBack(w, m, turns)
  {
    StartingInv(w, m);
    hide Inv, Simulation.Run, SomeoneComesBack, Loop;
    FailsExactlyIf(w, m.user.stations, m, turns);
  }

  // ---- a simulation that fails ----

  /** Every event brings a customer into node 0, so whoever is served there comes straight back. */
  function StraightBack(): World<()> {
    World((_, _, _) => Reaction((), [Entering(0, QN.Visit(0.0, 1.0))]), (_, _, _) => false)
  }

  /** Node 0 is `n`, and the first customer comes at time 0. */
  function OneArrival(n: Node): Machine<System<()>, Token> {
    var e := Event(0, 0.0, Elsewhere(0));
    Machine(System([Station(n, n, e, [])], (), false), 0.0, [e], false, [e], [], [], [])
  }

  /** The station once the first customer has come in. */
  function Occupied(n: Node): Station
    requires Possible(n, QN.Passes(0.0))
  {
    EnterStation(0, Passing(OneArrival(n).user.stations[0], 0.0), QN.Visit(0.0, 1.0), 1).0
  }

  lemma EmptyPasses(n: Node)
    requires IsInitial(n) && !n.Pooling? && Admits(n)
    ensures Possible(n, QN.Passes(0.0))
    ensures var p := Do(n, QN.Passes(0.0)); !p.Pooling? && Admits(p) && Due(p).None?
  {
  }

  lemma FirstEntry(n: Node)
    requires IsInitial(n) && !n.Pooling? && Admits(n)
    ensures Possible(n, QN.Passes(0.0)) && !Occupied(n).node.Pooling? && Due(Occupied(n).node).Some?
    ensures EnterStation(0, Passing(OneArrival(n).user.stations[0], 0.0), QN.Visit(0.0, 1.0), 1).1
         == [Schedule(Due(Occupied(n).node).value, EndOfService(0))]
  {
    EmptyPasses(n);
    var p := Do(n, QN.Passes(0.0));
    EntryPossible(p, QN.Visit(0.0, 1.0));
    ArrivalDue(p, QN.Visit(0.0, 1.0));
    hide Do, Possible, Due, Admits;
  }

  lemma FirstDispatch(n: Node)
    requires IsInitial(n) && !n.Pooling? && Admits(n)
    ensures Possible(n, QN.Passes(0.0)) && !Occupied(n).node.Pooling? && Due(Occupied(n).node).Some?
    ensures Dispatch(StraightBack(), OneArrival(n).user, OneArrival(n).diary[0], 1)
         == (System([Occupied(n)], (), false), [Schedule(Due(Occupied(n).node).value, EndOfService(0))])
  {
    FirstEntry(n);
    hide Passing, EnterStation, Possible, Due, IsInitial, Admits;
    var act := Entering(0, QN.Visit(0.0, 1.0));
    var ss := AllPassing(OneArrival(n).user.stations, 0.0);
    assert ss == [Passing(OneArrival(n).user.stations[0], 0.0)];
    var (ss', cs) := ActOn(ss, None, act, 0.0, 1);
    assert ss' == [Occupied(n)];
    assert Acts(ss, None, [act], 0.0, 1) == Outcome(ss', cs, false) by {
      assert [act][1..] == [];
      assert cs + [] == cs;
    }
  }

  /** The first service has begun. */
  lemma FirstTurn(n: Node)
    requires IsInitial(n) && !n.Pooling? && Admits(n)
    ensures var m := Turn(Loop(StraightBack()), OneArrival(n));
      && !m.failed && |m.user.stations| == 1 && !m.user.stations[0].node.Pooling?
      && |m.diary| == 1 && m.diary[0].payload == EndOfService(0)
  {
    FirstDispatch(n);
    hide Dispatch, IsInitial, Admits, Due, Possible, Occupied, PerformAll;
    var w, m, u := StraightBack(), OneArrival(n), System([Occupied(n)], (), false);
    var c := Schedule(Due(Occupied(n).node).value, EndOfService(0));
    assert Turn(Loop(w), m) == PerformAll(Popped(m, u), [c]);
    OnlyScheduled(Popped(m, u), c.time);
  }

  lemma OnlyScheduled(m: Machine<System<()>, Token>, time: real)
    requires m.diary == [] && !m.failed
    ensures var c := Schedule(time, EndOfService(0));
      PerformAll(m, [c]) == m.(diary := [Event(|m.scheduled|, time, EndOfService(0))],
                               scheduled := m.scheduled + [Event(|m.scheduled|, time, EndOfService(0))])
  {
    var c: Command<Token> := Schedule(time, EndOfService(0));
    PerformOne(m, c);
    var e := Event(|m.scheduled|, time, EndOfService(0));
    assert DiaryInsert([], e) == [e];
  }

  /** A simulation that fails, with any processor-sharing or preemptive-resume node: a customer comes, is
      served, and is forwarded to the same node. */
  lemma StraightBackFails(n: Node)
    requires IsInitial(n) && !n.Pooling? && Admits(n)
    ensures Starting(OneArrival(n))
    ensures Simulation.Run(Loop(StraightBack()), OneArrival(n), 2).failed
  {
    var m, w := OneArrival(n), StraightBack();
    ArrivalStarts(n);
    FirstTurn(n);
    var t := Turn(Loop(w), m);
    ServedComesBack(t);
    hide Turn, ComesBackNow, Starting, IsInitial;
    assert SomeoneComesBack(w, t, 1);
    assert SomeoneComesBack(w, m, 2);
    FailsExactlyIfSomeoneComesBack(w, m, 2);
  }

  lemma ArrivalStarts(n: Node)
    requires IsInitial(n)
    ensures Starting(OneArrival(n))
  {
    hide IsInitial;
    OwnOne(OneArrival(n).diary[0], 0);
  }

  lemma ServedComesBack(t: Machine<System<()>, Token>)
    requires |t.user.stations| == 1 && !t.user.stations[0].node.Pooling?
    requires |t.diary| == 1 && t.diary[0].payload == EndOfService(0)
    ensures ComesBackNow(StraightBack(), t)
  {
    var act := Entering(0, QN.Visit(0.0, 1.0));
    assert [act][1..] == [];
    assert Entrants([act], 0) == Entrant(act, 0) + Entrants([], 0);
  }

  // ---- one node of the network ----

  lemma {:induction false} RunOfSharing(s: PS.Node, steps: seq<QN.NodeStep>)
    requires RunNode(Sharing(s), steps).Some?
    ensures PS.Run(s, W.PlainAll(steps)).Some?
    ensures RunNode(Sharing(s), steps) == Some(Sharing(PS.Run(s, W.PlainAll(steps)).value.0))
    decreases |steps|
  {
    hide PS.Possible, PS.Do;
    if steps != [] {
      W.PlainWithoutFeedback(steps);
      RunOfSharing(PS.Do(s, W.Plain(steps[0])).0, steps[1..]);
    }
  }

  lemma {:induction false} RunOfResuming(r: PR.Node, steps: seq<QN.NodeStep>)
    requires RunNode(Resuming(r), steps).Some?
    ensures PR.Run(r, W.PlainAll(steps)).Some?
    ensures RunNode(Resuming(r), steps) == Some(Resuming(PR.Run(r, W.PlainAll(steps)).value.0))
    decreases |steps|
  {
    hide PR.Possible, PR.Do;
    if steps != [] {
      W.PlainWithoutFeedback(steps);
      RunOfResuming(PR.Do(r, W.Plain(steps[0])).0, steps[1..]);
    }
  }

  lemma {:induction false} RunOfPool(q: QN.Node, steps: seq<QN.NodeStep>)
    requires RunNode(Pooling(q), steps).Some?
    ensures QN.Run(q, steps).Some? && RunNode(Pooling(q), steps) == Some(Pooling(QN.Run(q, steps).value))
    decreases |steps|
  {
    hide QN.Possible, QN.Do;
    if steps != [] { RunOfPool(QN.Do(q, steps[0]), steps[1..]); }
  }

  /** A processor-sharing node anywhere in a network is naive sharing of the customers it was given: they
      leave it in the same order at the same times. */
  lemma SimulatedSharing<E>(w: World<E>, m: Machine<System<E>, Token>, turns: nat, i: nat, capacity: nat)
    requires Starting(m) && i < |m.user.stations| && m.user.stations[i].node == Sharing(PS.Initial(capacity))
    requires !Simulation.Run(Loop(w), m, turns).failed
    ensures |Simulation.Run(Loop(w), m, turns).user.stations| == |m.user.stations|
    ensures var st := Simulation.Run(Loop(w), m, turns).user.stations[i];
      var naive := PS.NaiveRun(PS.Sharing(0.0, map[], capacity, 0, 0), W.PlainAll(st.steps));
      && st.node.Sharing? && naive.Some? && PS.Refines(st.node.ps, naive.value.0)
      && PS.Run(PS.Initial(capacity), W.PlainAll(st.steps)) == Some((st.node.ps, naive.value.1))
      && (st.node.ps.losses == 0 ==>
            W.SharedWork(st.node.ps) == Unfinished(Arrivals(0.0, W.PlainAll(st.steps)), st.node.ps.now))
  {
    ConsistentThroughout(w, m, turns, i);
    var st := Simulation.Run(Loop(w), m, turns).user.stations[i];
    hide Simulation.Run, Own, PS.Refines, Starting;
    RunOfSharing(PS.Initial(capacity), st.steps);
    PS.InitialRefines(capacity);
    PS.RunRefines(PS.Initial(capacity), PS.Sharing(0.0, map[], capacity, 0, 0), W.PlainAll(st.steps));
    if st.node.ps.losses == 0 { W.SharingConservesWork(capacity, W.PlainAll(st.steps)); }
  }

  /** A preemptive-resume node anywhere in a network has run as the model's does, so what is proved of those
      runs holds here: service received, nested sojourns, unfinished work. */
  lemma SimulatedResuming<E>(w: World<E>, m: Machine<System<E>, Token>, turns: nat, i: nat)
    requires Starting(m) && i < |m.user.stations| && m.user.stations[i].node == Resuming(PR.Initial())
    requires !Simulation.Run(Loop(w), m, turns).failed
    ensures |Simulation.Run(Loop(w), m, turns).user.stations| == |m.user.stations|
    ensures var st := Simulation.Run(Loop(w), m, turns).user.stations[i];
      var run := PR.Run(PR.Initial(), W.PlainAll(st.steps));
      && st.node.Resuming? && run.Some? && run.value.0 == st.node.pr
      && W.ResumedWork(st.node.pr) == Unfinished(Arrivals(0.0, W.PlainAll(st.steps)), st.node.pr.now)
  {
    ConsistentThroughout(w, m, turns, i);
    var st := Simulation.Run(Loop(w), m, turns).user.stations[i];
    hide Simulation.Run, Own, Starting;
    RunOfResuming(PR.Initial(), st.steps);
    W.ResumeConservesWork(W.PlainAll(st.steps));
  }

  /** A pool anywhere in a network, customers that come straight back included: every visit is accounted
      for, every taken server has exactly one event in the diary, with the customer it serves, and nobody
      waits while a server is free. */
  lemma SimulatedPool<E>(w: World<E>, m: Machine<System<E>, Token>, turns: nat, i: nat, start: QN.Node)
    requires Starting(m) && i < |m.user.stations| && m.user.stations[i].node == Pooling(start)
    requires !Simulation.Run(Loop(w), m, turns).failed
    ensures |Simulation.Run(Loop(w), m, turns).user.stations| == |m.user.stations|
    ensures var r := Simulation.Run(Loop(w), m, turns);
      && r.user.stations[i].node.Pooling?
      && var q := r.user.stations[i].node.qn;
         && QN.Run(start, r.user.stations[i].steps) == Some(q)
         && Endings(Own(r.dropped + r.diary, i)) == q.pending && |q.pending| == q.servers - q.free
         && (q.queue != [] ==> q.free == 0) && QN.Accounted(q)
         && (start.servers == 1 && q.losses == 0 ==>
               W.NodeWork(q) == Unfinished(Arrivals(0.0, W.PlainAll(r.user.stations[i].steps)), q.now))
  {
    ConsistentThroughout(w, m, turns, i);
    var st := Simulation.Run(Loop(w), m, turns).user.stations[i];
    hide Simulation.Run, Own, Starting, QN.Accounted;
    RunOfPool(start, st.steps);
    if start.servers == 1 && st.node.qn.losses == 0 {
      W.QueueingConservesWork(start.discipline, start.capacity, st.steps);
    }
  }
}
