/** What the nodes of a simulated network have been given, read off the events that were invoked and what the
    world set off at each of them. */
module NetworkHistories {
  import opened Workload
  import opened Simulation
  import opened NodeDiary
  import opened ServiceNodes
  import opened Networks
  import opened NetworkRuns
  import QN = Queueing

  // ---- entries ----

  function Entered(vs: seq<QN.Visit>): (steps: seq<QN.NodeStep>)
    ensures |steps| == |vs| && forall i :: 0 <= i < |vs| ==> steps[i] == QN.Enters(vs[i])
  {
    seq(|vs|, i requires 0 <= i < |vs| => QN.Enters(vs[i]))
  }

  lemma EnteredConcatenate(a: seq<QN.Visit>, b: seq<QN.Visit>)
    ensures Entered(a + b) == Entered(a) + Entered(b)
  {
  }

  lemma ActSteps(ss: seq<Station>, f: Option<nat>, act: Act, now: real, created: nat, j: nat)
    requires j < |ss| && f != Some(j)
    ensures ActOn(ss, f, act, now, created).0[j].steps == ss[j].steps + Entered(Entrant(act, j))
  {
    assert Entered([]) == [];
    if act.Entering? && act.node == j { assert Entered([act.visit]) == [QN.Enters(act.visit)]; }
  }

  lemma Joined(a: seq<QN.NodeStep>, b: seq<QN.NodeStep>, c: seq<QN.NodeStep>)
    ensures (a + b) + c == a + (b + c)
  {
  }

  /** Every node but the one that is forwarding takes exactly the customers sent to it, in order. */
  lemma {:induction false} ActsSteps(ss: seq<Station>, f: Option<nat>, acts: seq<Act>, now: real, created: nat, j: nat)
    requires j < |ss| && f != Some(j) && !Acts(ss, f, acts, now, created).faulted
    ensures Acts(ss, f, acts, now, created).stations[j].steps == ss[j].steps + Entered(Entrants(acts, j))
    decreases |acts|
  {
    hide ActOn, Faults, Creates, Entered, Entrant;
    if acts == [] {
      NobodyEntered(ss[j].steps);
    } else {
      var (ss', cs) := ActOn(ss, f, acts[0], now, created);
      ActSteps(ss, f, acts[0], now, created, j);
      ActsSteps(ss', f, acts[1..], now, created + Creates(cs), j);
      EnteredConcatenate(Entrant(acts[0], j), Entrants(acts[1..], j));
      Joined(ss[j].steps, Entered(Entrant(acts[0], j)), Entered(Entrants(acts[1..], j)));
    }
  }

  lemma NobodyEntered(steps: seq<QN.NodeStep>)
    ensures steps + Entered([]) == steps
  {
  }

  /** Act number i sends its customer to its node and to no other: as the next of that node's entrants. */
  lemma {:induction false} EntrantsInPlace(acts: seq<Act>, id: nat, i: nat)
    requires i < |acts|
    ensures |Entrants(acts[..i], id)| <= |Entrants(acts[..i + 1], id)| <= |Entrants(acts, id)|
    ensures var k := |Entrants(acts[..i], id)|;
      if acts[i].Entering? && acts[i].node == id
      then |Entrants(acts[..i + 1], id)| == k + 1 && Entrants(acts, id)[k] == acts[i].visit
      else |Entrants(acts[..i + 1], id)| == k
  {
    EntrantsConcatenate(acts[..i], [acts[i]], id);
    assert acts[..i + 1] == acts[..i] + [acts[i]];
    EntrantsConcatenate(acts[..i + 1], acts[i + 1..], id);
    assert acts == acts[..i + 1] + acts[i + 1..];
    assert [acts[i]][1..] == [];
    assert Entrants([acts[i]], id) == Entrant(acts[i], id);
  }

  lemma {:induction false} EntrantsConcatenate(a: seq<Act>, b: seq<Act>, id: nat)
    ensures Entrants(a + b, id) == Entrants(a, id) + Entrants(b, id)
  {
    hide Entrant;
    if a == [] {
      assert a + b == b;
    } else {
      assert (a + b)[1..] == a[1..] + b;
      EntrantsConcatenate(a[1..], b, id);
      JoinedVisits(Entrant(a[0], id), Entrants(a[1..], id), Entrants(b, id));
    }
  }

  lemma JoinedVisits(a: seq<QN.Visit>, b: seq<QN.Visit>, c: seq<QN.Visit>)
    ensures (a + b) + c == a + (b + c)
  {
  }

  // ---- one turn ----

  /** What the next event gives to node j: time passes, and it takes the customers sent to it; if the event is
      its own it completes a service, and those sent to it come straight back. */
  function Sent<E>(w: World<E>, m: Machine<System<E>, Token>, j: nat): seq<QN.NodeStep>
    requires m.diary != []
  {
    var e, ss := m.diary[0], m.user.stations;
    var vs := Entrants(w.react(m.user.env, Nodes(ss), e).acts, j);
    [QN.Passes(e.time)] + if Owner(e, |ss|) == Some(j) then [QN.Finishes(vs)] else Entered(vs)
  }

  lemma PassingSteps(st: Station, now: real)
    requires Possible(st.node, QN.Passes(now))
    ensures Passing(st, now).steps == st.steps + [QN.Passes(now)]
  {
  }

  lemma FinishSteps(id: nat, st: Station, back: seq<QN.Visit>, created: nat)
    requires st.node.Pooling? || Possible(st.node, QN.Finishes([]))
    ensures Finish(id, st, back, created).0.steps == st.steps + [QN.Finishes(back)]
  {
    hide Possible, Do, Awaited, Restart;
  }

  lemma LeavingSteps(st: Station)
    requires Due(st.node).Some?
    ensures Leaving(st).steps == st.steps
  {
  }

  lemma RejoinedSteps(st: Station, vs: seq<QN.Visit>)
    ensures Rejoined(st, vs).steps == st.steps
  {
  }

  lemma ElsewhereSteps<E>(w: World<E>, m: Machine<System<E>, Token>, j: nat)
    requires Consistent(m) && m.diary != [] && j < |m.user.stations| && Owner(m.diary[0], |m.user.stations|).None?
    ensures var u := Dispatch(w, m.user, m.diary[0], |m.scheduled|).0;
      |u.stations| == |m.user.stations| && u.stations[j].steps == m.user.stations[j].steps + Sent(w, m, j)
  {
    hide Views, AllFit, Acts, Owner, Possible, Passing, Entered, Holds;
    var e, ss := m.diary[0], m.user.stations;
    EventComes(m, m.user);
    var acts := w.react(m.user.env, Nodes(ss), e).acts;
    NeverForwarding(AllPassing(ss, e.time), acts, e.time, |m.scheduled|);
    ActsSteps(AllPassing(ss, e.time), None, acts, e.time, |m.scheduled|, j);
    PassingSteps(ss[j], e.time);
    Joined(ss[j].steps, [QN.Passes(e.time)], Entered(Entrants(acts, j)));
  }

  lemma CompleteSteps<E>(id: nat, u: System<E>, env: E, o: Outcome, back: seq<QN.Visit>, created: nat, j: nat)
    requires id < |o.stations| && j < |o.stations| && !o.faulted
    requires o.stations[id].node.Pooling? || Possible(o.stations[id].node, QN.Finishes([]))
    ensures var v := Networks.Complete(id, u, env, o, back, created).0;
      && |v.stations| == |o.stations|
      && v.stations[j].steps == o.stations[j].steps + if j == id then [QN.Finishes(back)] else []
  {
    hide Possible, Finish, Creates;
    FinishSteps(id, o.stations[id], back, created + Creates(o.commands));
  }

  /** The forwarding node when everything has been set off: it can finish, and its steps are as before. */
  lemma ForwardingStays<E>(w: World<E>, m: Machine<System<E>, Token>, id: nat)
    requires Consistent(m) && m.diary != []
    requires Owner(m.diary[0], |m.user.stations|) == Some(id) && !ComesBack(w, m)
    ensures var e, ss := m.diary[0], m.user.stations;
      var acts := w.react(m.user.env, Nodes(ss), e).acts;
      && CanPass(ss, e.time) && Due(AllPassing(ss, e.time)[id].node).Some?
      && Invoked(ss, e) == AllPassing(ss, e.time)[id := Leaving(AllPassing(ss, e.time)[id])]
      && var o := Acts(Invoked(ss, e), Some(id), acts, e.time, |m.scheduled|);
         && !o.faulted && o.stations[id].steps == AllPassing(ss, e.time)[id].steps
         && (o.stations[id].node.Pooling? || Possible(o.stations[id].node, QN.Finishes([])))
  {
    var e, ss := m.diary[0], m.user.stations;
    EventComes(m, m.user);
    var p, ss' := AllPassing(ss, e.time)[id], Invoked(ss, e);
    PassingPools(ss, e.time, id);
    hide Views, CanPass, Acts, Owner, Leaving, Due, Passing, Fits, FitsMidway, Possible, Finish, NoPast;
    var acts := w.react(m.user.env, Nodes(ss), e).acts;
    ActsFit(ss', Some(id), acts, e.time, |m.scheduled|);
    ActsAtForwarding(ss', id, acts, e.time, |m.scheduled|);
    var o := Acts(ss', Some(id), acts, e.time, |m.scheduled|);
    CompleteFits(id, o, p, Entrants(acts, id), |m.scheduled|, e.time);
    LeavingSteps(p);
    RejoinedSteps(Leaving(p), Entrants(acts, id));
  }

  lemma OwnSteps<E>(w: World<E>, m: Machine<System<E>, Token>, id: nat, j: nat)
    requires Consistent(m) && m.diary != [] && j < |m.user.stations|
    requires Owner(m.diary[0], |m.user.stations|) == Some(id) && !ComesBack(w, m)
    ensures var u := Dispatch(w, m.user, m.diary[0], |m.scheduled|).0;
      |u.stations| == |m.user.stations| && u.stations[j].steps == m.user.stations[j].steps + Sent(w, m, j)
  {
    hide Consistent, ComesBack, Acts, Owner, Possible, Passing, Entered, Leaving, Due, Networks.Complete, Entrants;
    ForwardingStays(w, m, id);
    var e, ss := m.diary[0], m.user.stations;
    var re := w.react(m.user.env, Nodes(ss), e);
    var ss' := Invoked(ss, e);
    var o := Acts(ss', Some(id), re.acts, e.time, |m.scheduled|);
    assert Dispatch(w, m.user, e, |m.scheduled|)
        == Networks.Complete(id, m.user, re.env, o, Entrants(re.acts, id), |m.scheduled|);
    CompleteSteps(id, m.user, re.env, o, Entrants(re.acts, id), |m.scheduled|, j);
    PassingAt(ss, e.time, j);
    if j == id {
      Joined(ss[j].steps, [QN.Passes(e.time)], [QN.Finishes(Entrants(re.acts, id))]);
    } else {
      ActsSteps(ss', Some(id), re.acts, e.time, |m.scheduled|, j);
      Joined(ss[j].steps, [QN.Passes(e.time)], Entered(Entrants(re.acts, j)));
      NothingMore(o.stations[j].steps);
    }
  }

  lemma PassingAt(ss: seq<Station>, now: real, j: nat)
    requires CanPass(ss, now) && j < |ss|
    ensures AllPassing(ss, now)[j].steps == ss[j].steps + [QN.Passes(now)]
  {
    hide Possible, Do;
  }

  lemma NothingMore(steps: seq<QN.NodeStep>)
    ensures steps + [] == steps
  {
  }

  // ---- what is scheduled elsewhere ----

  /** When, and for what, events elsewhere have been scheduled. */
  function Outside(es: seq<Event<Token>>): seq<(real, nat)> {
    if es == [] then []
    else
      Outside(es[..|es| - 1])
      + var e := es[|es| - 1]; if e.payload.Elsewhere? then [(e.time, e.payload.tag)] else []
  }

  function OutsideCommand(c: Command<Token>): seq<(real, nat)> {
    if c.Schedule? && c.payload.Elsewhere? then [(c.time, c.payload.tag)] else []
  }

  function OutsideCommands(cs: seq<Command<Token>>): seq<(real, nat)> {
    if cs == [] then [] else OutsideCommand(cs[0]) + OutsideCommands(cs[1..])
  }

  /** What the world asks for at time `now`: each delay from then on, in order. */
  function Calls(acts: seq<Act>, now: real): seq<(real, nat)> {
    if acts == [] then []
    else (if acts[0].Scheduling? then [(now + acts[0].delay, acts[0].tag)] else []) + Calls(acts[1..], now)
  }

  /** Act number i, if it schedules, asks for an event its delay from now, as the next of what is asked for. */
  lemma CallsInPlace(acts: seq<Act>, now: real, i: nat)
    requires i < |acts|
    ensures |Calls(acts[..i], now)| <= |Calls(acts[..i + 1], now)| <= |Calls(acts, now)|
    ensures var k := |Calls(acts[..i], now)|;
      if acts[i].Scheduling?
      then |Calls(acts[..i + 1], now)| == k + 1 && Calls(acts, now)[k].0 - now == acts[i].delay
           && Calls(acts, now)[k].1 == acts[i].tag
      else |Calls(acts[..i + 1], now)| == k
  {
    CallsConcatenate(acts[..i], [acts[i]], now);
    assert acts[..i + 1] == acts[..i] + [acts[i]];
    CallsConcatenate(acts[..i + 1], acts[i + 1..], now);
    assert acts == acts[..i + 1] + acts[i + 1..];
    assert [acts[i]][1..] == [];
  }

  lemma {:induction false} CallsConcatenate(a: seq<Act>, b: seq<Act>, now: real)
    ensures Calls(a + b, now) == Calls(a, now) + Calls(b, now)
  {
    if a == [] {
      assert a + b == b;
    } else {
      assert (a + b)[1..] == a[1..] + b;
      CallsConcatenate(a[1..], b, now);
      JoinedCalls(if a[0].Scheduling? then [(now + a[0].delay, a[0].tag)] else [], Calls(a[1..], now), Calls(b, now));
    }
  }

  lemma JoinedCalls(a: seq<(real, nat)>, b: seq<(real, nat)>, c: seq<(real, nat)>)
    ensures (a + b) + c == a + (b + c) && [] + a == a == a + []
  {
  }

  lemma {:induction false} OutsideConcatenate(a: seq<Command<Token>>, b: seq<Command<Token>>)
    ensures OutsideCommands(a + b) == OutsideCommands(a) + OutsideCommands(b)
  {
    hide OutsideCommand;
    if a == [] {
      assert a + b == b;
    } else {
      assert (a + b)[1..] == a[1..] + b;
      OutsideConcatenate(a[1..], b);
      JoinedCalls(OutsideCommand(a[0]), OutsideCommands(a[1..]), OutsideCommands(b));
    }
  }

  lemma OutsideOne(c: Command<Token>)
    ensures OutsideCommands([c]) == OutsideCommand(c)
  {
    assert [c][1..] == [];
  }

  lemma RestartIsInside(id: nat, t: Node)
    ensures OutsideCommands(Restart(id, t)) == []
  {
    hide Due;
    if Due(t).Some? { OutsideOne(Schedule(Due(t).value, EndOfService(id))); }
  }

  lemma AcceptIsInside(id: nat, s: Node, t: Node, next: Event<Token>)
    ensures OutsideCommands(AcceptCommands(id, s, t, next)) == []
  {
    hide Due, Admits, Restart;
    RestartIsInside(id, t);
    OutsideOne(Deschedule(next));
    OutsideConcatenate(if Due(s).Some? then [Deschedule(next)] else [], Restart(id, t));
  }

  lemma PoolIsInside(id: nat, q: QN.Node, v: QN.Visit)
    ensures OutsideCommands(PoolEnterCommands(id, q, v)) == []
    ensures OutsideCommands(PoolReleaseCommands(id, q)) == []
  {
    OutsideOne(ServiceCommand(id, q, q.arrivals, v.demand));
    if q.queue != [] { OutsideOne(ServiceCommand(id, q, q.queue[0].id, q.queue[0].demand)); }
  }

  lemma ActCalls(ss: seq<Station>, f: Option<nat>, act: Act, now: real, created: nat)
    ensures OutsideCommands(ActOn(ss, f, act, now, created).1)
         == if act.Scheduling? then [(now + act.delay, act.tag)] else []
  {
    hide OutsideCommands, AcceptCommands, PoolEnterCommands, Do, Awaited, Admits;
    match act
    case Scheduling(delay, tag) => OutsideOne(Schedule(now + delay, Elsewhere(tag)));
    case Entering(id, v) =>
      NoCommandsInside();
      if id < |ss| {
        if ss[id].node.Pooling? { PoolIsInside(id, ss[id].node.qn, v); }
        else { AcceptIsInside(id, ss[id].node, Do(ss[id].node, QN.Enters(v)), ss[id].next); }
      }
  }

  lemma NoCommandsInside()
    ensures OutsideCommands([]) == []
  {
  }

  lemma {:induction false} ActsCall(ss: seq<Station>, f: Option<nat>, acts: seq<Act>, now: real, created: nat)
    requires !Acts(ss, f, acts, now, created).faulted
    ensures OutsideCommands(Acts(ss, f, acts, now, created).commands) == Calls(acts, now)
    decreases |acts|
  {
    hide ActOn, Faults, Creates, OutsideCommands, Calls;
    if acts == [] {
      NoCommandsInside();
      NoCalls(now);
    } else {
      var (ss', cs) := ActOn(ss, f, acts[0], now, created);
      ActCalls(ss, f, acts[0], now, created);
      ActsCall(ss', f, acts[1..], now, created + Creates(cs));
      FirstCall(acts, now);
      OutsideConcatenate(cs, Acts(ss', f, acts[1..], now, created + Creates(cs)).commands);
    }
  }

  lemma NoCalls(now: real)
    ensures Calls([], now) == []
  {
  }

  lemma FirstCall(acts: seq<Act>, now: real)
    requires acts != []
    ensures Calls(acts, now)
         == (if acts[0].Scheduling? then [(now + acts[0].delay, acts[0].tag)] else []) + Calls(acts[1..], now)
  {
  }

  lemma {:induction false} PerformAllOutside<S>(m: Machine<S, Token>, cs: seq<Command<Token>>)
    requires !PerformAll(m, cs).failed
    ensures Outside(PerformAll(m, cs).scheduled) == Outside(m.scheduled) + OutsideCommands(cs)
    decreases |cs|
  {
    hide Outside, OutsideCommand;
    if cs == [] || m.failed {
      JoinedCalls(Outside(m.scheduled), [], []);
    } else {
      PerformOutside(m, cs[0]);
      hide Perform;
      PerformAllOutside(Perform(m, cs[0]), cs[1..]);
      JoinedCalls(Outside(m.scheduled), OutsideCommand(cs[0]), OutsideCommands(cs[1..]));
    }
  }

  lemma PerformOutside<S>(m: Machine<S, Token>, c: Command<Token>)
    ensures Outside(Perform(m, c).scheduled) == Outside(m.scheduled) + OutsideCommand(c)
  {
    hide DiaryInsert;
    if c.Schedule? {
      var e := Event(|m.scheduled|, c.time, c.payload);
      assert (m.scheduled + [e])[..|m.scheduled|] == m.scheduled;
    }
  }

  lemma CompleteCalls<E>(id: nat, u: System<E>, env: E, o: Outcome, back: seq<QN.Visit>, created: nat)
    requires id < |o.stations| && !o.faulted
    requires o.stations[id].node.Pooling? || Possible(o.stations[id].node, QN.Finishes([]))
    ensures var (v, cs) := Networks.Complete(id, u, env, o, back, created);
      OutsideCommands(cs) == OutsideCommands(o.commands) && v.env == env
  {
    hide Possible, Creates, Do, Restart, PoolReleaseCommands, Awaited, OutsideCommands;
    var st := o.stations[id];
    var (st', cs) := Finish(id, st, back, created + Creates(o.commands));
    if st.node.Pooling? { PoolIsInside(id, st.node.qn, QN.Visit(0.0, 0.0)); }
    else { RestartIsInside(id, Do(st.node, QN.Finishes([]))); }
    OutsideConcatenate(o.commands, cs);
    JoinedCalls(OutsideCommands(o.commands), [], []);
  }

  lemma ElsewhereCalls<E>(w: World<E>, m: Machine<System<E>, Token>)
    requires Consistent(m) && m.diary != [] && Owner(m.diary[0], |m.user.stations|).None?
    ensures var re, (u, cs) := w.react(m.user.env, Nodes(m.user.stations), m.diary[0]),
                               Dispatch(w, m.user, m.diary[0], |m.scheduled|);
      u.env == re.env && OutsideCommands(cs) == Calls(re.acts, m.diary[0].time)
  {
    hide Views, AllFit, Acts, Owner, Possible, Passing, Holds, OutsideCommands;
    var e, ss := m.diary[0], m.user.stations;
    EventComes(m, m.user);
    var acts := w.react(m.user.env, Nodes(ss), e).acts;
    NeverForwarding(AllPassing(ss, e.time), acts, e.time, |m.scheduled|);
    ActsCall(AllPassing(ss, e.time), None, acts, e.time, |m.scheduled|);
  }

  lemma OwnCalls<E>(w: World<E>, m: Machine<System<E>, Token>, id: nat)
    requires Consistent(m) && m.diary != []
    requires Owner(m.diary[0], |m.user.stations|) == Some(id) && !ComesBack(w, m)
    ensures var re, (u, cs) := w.react(m.user.env, Nodes(m.user.stations), m.diary[0]),
                               Dispatch(w, m.user, m.diary[0], |m.scheduled|);
      u.env == re.env && OutsideCommands(cs) == Calls(re.acts, m.diary[0].time)
  {
    hide Consistent, ComesBack, Acts, Owner, Possible, Passing, Leaving, Due, Networks.Complete, Entrants;
    ForwardingStays(w, m, id);
    hide OutsideCommands;
    var e, ss := m.diary[0], m.user.stations;
    var re := w.react(m.user.env, Nodes(ss), e);
    var o := Acts(Invoked(ss, e), Some(id), re.acts, e.time, |m.scheduled|);
    CompleteCalls(id, m.user, re.env, o, Entrants(re.acts, id), |m.scheduled|);
    ActsCall(Invoked(ss, e), Some(id), re.acts, e.time, |m.scheduled|);
  }

  // ---- over a turn and over a run ----

  /** A turn that invokes its event and does not fail gives every node what the event sent it, schedules
      elsewhere what it asked for and when, and leaves the world in the state it wanted. */
  lemma TurnGives<E>(w: World<E>, starts: seq<Station>, m: Machine<System<E>, Token>, j: nat)
    requires Inv(w, starts, m) && !Halted(Loop(w), m) && !Turn(Loop(w), m).failed && j < |m.user.stations|
    requires !w.stop(m.user.env, Nodes(m.user.stations), m.diary[0].time)
    ensures var t, re := Turn(Loop(w), m), w.react(m.user.env, Nodes(m.user.stations), m.diary[0]);
      && |t.user.stations| == |m.user.stations|
      && t.user.stations[j].steps == m.user.stations[j].steps + Sent(w, m, j)
      && t.user.env == re.env
      && Outside(t.scheduled) == Outside(m.scheduled) + Calls(re.acts, m.diary[0].time)
  {
    hide Consistent, Kept, Dispatch, PerformAll, Owner, ComesBack, Outside, OutsideCommands, Calls, Sent, SameStarts;
    TurnKeeps(w, starts, m);
    var e := m.diary[0];
    var (u, cs) := Dispatch(w, m.user, e, |m.scheduled|);
    assert Turn(Loop(w), m) == PerformAll(Popped(m, u), cs);
    PerformAllKeeps(Popped(m, u), cs);
    PerformAllOutside(Popped(m, u), cs);
    match Owner(e, |m.user.stations|)
    case None =>
      ElsewhereSteps(w, m, j);
      ElsewhereCalls(w, m);
    case Some(id) =>
      OwnSteps(w, m, id, j);
      OwnCalls(w, m, id);
  }

  /** The events of the next turns that are invoked. */
  predicate Invokes<E>(w: World<E>, m: Machine<System<E>, Token>) {
    !Halted(Loop(w), m) && !w.stop(m.user.env, Nodes(m.user.stations), m.diary[0].time)
  }

  function SentThroughout<E>(w: World<E>, m: Machine<System<E>, Token>, turns: nat, j: nat): seq<QN.NodeStep>
    decreases turns
  {
    if turns == 0 || !Invokes(w, m) then [] else Sent(w, m, j) + SentThroughout(w, Turn(Loop(w), m), turns - 1, j)
  }

  function CalledThroughout<E>(w: World<E>, m: Machine<System<E>, Token>, turns: nat): seq<(real, nat)>
    decreases turns
  {
    if turns == 0 || !Invokes(w, m) then []
    else
      Calls(w.react(m.user.env, Nodes(m.user.stations), m.diary[0]).acts, m.diary[0].time)
      + CalledThroughout(w, Turn(Loop(w), m), turns - 1)
  }

  lemma StopsAfter<E>(w: World<E>, m: Machine<System<E>, Token>, turns: nat)
    requires turns > 0 && !Invokes(w, m)
    ensures var r := Simulation.Run(Loop(w), m, turns);
      r.user == m.user && r.scheduled == m.scheduled
  {
    if !Halted(Loop(w), m) {
      var t := Turn(Loop(w), m);
      assert Halted(Loop(w), t);
    }
  }

  lemma {:induction false} RunGives<E>(w: World<E>, starts: seq<Station>, m: Machine<System<E>, Token>, turns: nat,
                                       j: nat)
    requires Inv(w, starts, m) && !Simulation.Run(Loop(w), m, turns).failed && j < |m.user.stations|
    ensures var r := Simulation.Run(Loop(w), m, turns);
      && |r.user.stations| == |m.user.stations|
      && r.user.stations[j].steps == m.user.stations[j].steps + SentThroughout(w, m, turns, j)
      && Outside(r.scheduled) == Outside(m.scheduled) + CalledThroughout(w, m, turns)
    decreases turns
  {
    hide Inv, Turn, Sent, Calls, Outside;
    NothingMore(m.user.stations[j].steps);
    JoinedCalls(Outside(m.scheduled), [], []);
    if turns > 0 && !Invokes(w, m) {
      StopsAfter(w, m, turns);
    } else if turns > 0 {
      var t := Turn(Loop(w), m);
      TurnKeeps(w, starts, m);
      if t.failed { FailedStays(w, t, turns - 1); }
      TurnGives(w, starts, m, j);
      RunGives(w, starts, t, turns - 1, j);
      Joined(m.user.stations[j].steps, Sent(w, m, j), SentThroughout(w, t, turns - 1, j));
      var calls := Calls(w.react(m.user.env, Nodes(m.user.stations), m.diary[0]).acts, m.diary[0].time);
      JoinedCalls(Outside(m.scheduled), calls, CalledThroughout(w, t, turns - 1));
    }
  }

  /** In every simulation of a network that has not failed, running or stopped, every node has been given exactly
      the customers that the events sent to it, in order and at the events' times, and everything scheduled
      elsewhere is what the events asked for. No customer that a node forwards to another is lost on the way. */
  lemma NodesGetWhatTheyAreSent<E>(w: World<E>, m: Machine<System<E>, Token>, turns: nat, j: nat)
    requires Starting(m) && !Simulation.Run(Loop(w), m, turns).failed && j < |m.user.stations|
    ensures var r := Simulation.Run(Loop(w), m, turns);
      && |r.user.stations| == |m.user.stations|
      && r.user.stations[j].steps == SentThroughout(w, m, turns, j)
      && Outside(r.scheduled) == Outside(m.scheduled) + CalledThroughout(w, m, turns)
      && RunNode(m.user.stations[j].node, SentThroughout(w, m, turns, j)) == Some(r.user.stations[j].node)
  {
    hide Inv, Simulation.Run, SentThroughout, CalledThroughout, Loop, Outside, Own, Holds, RunNode, Sound;
    StartingInv(w, m);
    RunGives(w, m.user.stations, m, turns, j);
    ConsistentThroughout(w, m, turns, j);
    assert StationStarts(m.user.stations[j]);
    assert [] + SentThroughout(w, m, turns, j) == SentThroughout(w, m, turns, j);
  }
}
