/** One processor-sharing node and the clock loop, both in place: the node's own fields and list, and the
    diary's list. What the rest of the world does is a parameter. */
module SharingInPlace {
  import opened Workload
  import opened Simulation
  import opened NodeDiary
  import opened Resources
  import opened Queues
  import opened NodeParts
  import opened ServiceNodes
  import opened ProcessorSharingNodes
  import opened Networks
  import opened NetworkRuns
  import QN = Queueing
  import PS = ProcessorSharing

  // ---- two structures that share no state ----

  /** The node in place is the model's node `s`, or `s` while the first in line is being forwarded: it has
      left, and the server is not yet released. */
  ghost predicate Stands(node: ProcessorSharingNode, s: PS.Node, midway: bool)
    reads node, node.resources, node.resources.resourceCount
    reads node.queue, node.queue.Repr, node.queue.q, node.queue.q.contents
    reads node.queue.measures, node.queue.measures.popMeasure, node.queue.measures.queueingTime
  {
    && node.id == 0
    && if midway then s.queue != [] && Departed(node, s) else node.Valid(s)
  }

  ghost predicate Departed(node: ProcessorSharingNode, s: PS.Node)
    requires s.queue != []
    reads node, node.resources, node.resources.resourceCount
    reads node.queue, node.queue.Repr, node.queue.q, node.queue.q.contents
    reads node.queue.measures, node.queue.measures.popMeasure, node.queue.measures.queueingTime
  {
    && node !in node.queue.Repr && node.queue.discipline == ByRank && node.resources.nresources == 1
    && Ready(node.queue, node.resources, s.now) && node.resources.resources == 0
    && s.claimed && s.capacity == node.queue.capacity && s.arrivals == node.arrivals && s.losses == node.losses
    && node.vtime == PS.Invoke(s).vtime && Entries(node.queue.q.contents) == PS.Invoke(s).queue
    && node.timeOfLastSchedule == s.lastSchedule && node.queue.CanAccept()
  }

  ghost predicate Apart<E>(sim: Sim<E, Token>, node: ProcessorSharingNode)
    reads sim.diary, node.queue, node.queue.q
  {
    && sim !in node.queue.Repr && sim.diary !in node.queue.Repr && sim.diary.Repr !! node.queue.Repr
    && node !in sim.diary.Repr && node.resources !in sim.diary.Repr && node.resources.resourceCount !in sim.diary.Repr
    && node.queue in node.queue.Repr && node.queue.q in node.queue.Repr && node.queue.measures in node.queue.Repr
    && node.queue.measures.popMeasure in node.queue.Repr && node.queue.measures.queueingTime in node.queue.Repr
    && forall k :: 0 <= k < |node.queue.q.contents| ==> node.queue.q.contents[k] !in sim.diary.Repr
  }

  method PerformInPlace<E>(sim: Sim<E, Token>, node: ProcessorSharingNode, cs: seq<Command<Token>>,
                           ghost s: PS.Node, ghost midway: bool)
    requires sim.Valid() && Stands(node, s, midway) && Apart(sim, node)
    modifies sim, sim.diary.Repr
    ensures sim.Valid() && Stands(node, s, midway) && Apart(sim, node)
    ensures fresh(sim.diary.Repr - old(sim.diary.Repr)) && node.queue.Repr == old(node.queue.Repr)
    ensures node.nextEndServiceEvent == old(node.nextEndServiceEvent)
    ensures sim.Snapshot() == PerformAll(old(sim.Snapshot()), cs)
  {
    hide Stands, PerformAll;
    sim.PerformCommands(cs);
  }

  lemma TimePasses(node: ProcessorSharingNode, s: PS.Node, t: real)
    requires Stands(node, s, false) && s.now <= t
    ensures Stands(node, s.(now := t), false)
  {
    hide Entries;
  }

  /** A customer enters, and the diary does what the node says. */
  method EnterInPlace<E>(sim: Sim<E, Token>, node: ProcessorSharingNode, demand: real, ghost s: PS.Node)
    requires sim.Valid() && Stands(node, s, false) && Apart(sim, node) && s.now == sim.clock
    modifies sim, sim.diary.Repr, node, node.queue.Repr, node.resources, node.resources.resourceCount
    ensures sim.Valid() && Stands(node, PS.Accept(s, demand), false) && Apart(sim, node)
    ensures fresh(sim.diary.Repr - old(sim.diary.Repr)) && fresh(node.queue.Repr - old(node.queue.Repr))
    ensures var t, next := Sharing(PS.Accept(s, demand)), old(node.nextEndServiceEvent);
      && sim.Snapshot() == PerformAll(old(sim.Snapshot()), AcceptCommands(0, Sharing(s), t, next))
      && node.nextEndServiceEvent
         == if |s.queue| < s.capacity then Awaited(0, t, next, old(|sim.scheduled|)) else next
  {
    hide PerformAll, PS.Accept, AcceptCommands, Awaited;
    var cs := EnterApart(sim, node, demand, s);
    hide Stands;
    PerformInPlace(sim, node, cs, PS.Accept(s, demand), false);
  }

  /** The node changes; the diary does not. */
  method EnterApart<E>(sim: Sim<E, Token>, node: ProcessorSharingNode, demand: real, ghost s: PS.Node)
    returns (cs: seq<Command<Token>>)
    requires sim.Valid() && Stands(node, s, false) && Apart(sim, node) && s.now == sim.clock
    modifies node, node.queue.Repr, node.resources, node.resources.resourceCount
    ensures sim.Valid() && Stands(node, PS.Accept(s, demand), false) && Apart(sim, node)
    ensures sim.Snapshot() == old(sim.Snapshot()) && fresh(node.queue.Repr - old(node.queue.Repr))
    ensures cs == AcceptCommands(0, Sharing(s), Sharing(PS.Accept(s, demand)), old(node.nextEndServiceEvent))
    ensures node.nextEndServiceEvent
         == if |s.queue| < s.capacity
            then Awaited(0, Sharing(PS.Accept(s, demand)), old(node.nextEndServiceEvent), |sim.scheduled|)
            else old(node.nextEndServiceEvent)
  {
    hide Ready, PS.Accept, AcceptCommands, Awaited, Entries;
    AcceptCounts(s, demand);
    ghost var R := sim.diary.Repr;
    cs := node.Enter(s, demand, sim.clock, sim.eventsCreated);
    ReadyParts(node.queue, node.resources, sim.clock);
    forall k | 0 <= k < |node.queue.q.contents| ensures node.queue.q.contents[k] !in R {
      assert node.queue.q.contents[k] in node.queue.q.contents;
    }
  }

  lemma ReadyParts(queue: Queue, resources: Resource, now: real)
    requires Ready(queue, resources, now)
    ensures queue in queue.Repr && queue.q in queue.Repr && queue.measures in queue.Repr
    ensures queue.measures.popMeasure in queue.Repr && queue.measures.queueingTime in queue.Repr
  {
    OwnsItsParts(queue, now);
  }

  /** The first in line leaves and is forwarded. */
  method DepartApart<E>(sim: Sim<E, Token>, node: ProcessorSharingNode, ghost s: PS.Node) returns (departed: nat)
    requires sim.Valid() && Stands(node, s, false) && Apart(sim, node) && s.now == sim.clock && s.queue != []
    modifies node, node.queue.Repr
    ensures sim.Valid() && Stands(node, s, true) && Apart(sim, node) && departed == s.queue[0].id
    ensures sim.Snapshot() == old(sim.Snapshot()) && node.queue.Repr == old(node.queue.Repr)
    ensures node.nextEndServiceEvent == old(node.nextEndServiceEvent) && sim.diary.Repr == old(sim.diary.Repr)
  {
    hide Ready, PS.Invoke, Entries;
    ghost var R := sim.diary.Repr;
    departed := node.Depart(s, sim.clock);
    ReadyParts(node.queue, node.resources, sim.clock);
    forall k | 0 <= k < |node.queue.q.contents| ensures node.queue.q.contents[k] !in R {
      assert node.queue.q.contents[k] in node.queue.q.contents;
    }
  }

  /** The server is released, or the next completion scheduled. */
  method ContinueInPlace<E>(sim: Sim<E, Token>, node: ProcessorSharingNode, ghost s: PS.Node)
    requires sim.Valid() && Stands(node, s, true) && Apart(sim, node) && s.now == sim.clock && s.queue != []
    modifies sim, sim.diary.Repr, node, node.resources, node.resources.resourceCount
    ensures sim.Valid() && Stands(node, PS.Invoke(s), false) && Apart(sim, node)
    ensures fresh(sim.diary.Repr - old(sim.diary.Repr)) && node.queue.Repr == old(node.queue.Repr)
    ensures var t, next := Sharing(PS.Invoke(s)), old(node.nextEndServiceEvent);
      && sim.Snapshot() == PerformAll(old(sim.Snapshot()), Restart(0, t))
      && node.nextEndServiceEvent == Awaited(0, t, next, old(|sim.scheduled|))
  {
    hide PerformAll, PS.Invoke, Restart, Awaited;
    var cs := ContinueApart(sim, node, s);
    hide Stands;
    PerformInPlace(sim, node, cs, PS.Invoke(s), false);
  }

  method ContinueApart<E>(sim: Sim<E, Token>, node: ProcessorSharingNode, ghost s: PS.Node)
    returns (cs: seq<Command<Token>>)
    requires sim.Valid() && Stands(node, s, true) && Apart(sim, node) && s.now == sim.clock && s.queue != []
    modifies node, node.resources, node.resources.resourceCount
    ensures sim.Valid() && Stands(node, PS.Invoke(s), false) && Apart(sim, node)
    ensures sim.diary.Repr == old(sim.diary.Repr) && node.queue.Repr == old(node.queue.Repr)
    ensures sim.Snapshot() == old(sim.Snapshot()) && cs == Restart(0, Sharing(PS.Invoke(s)))
    ensures node.nextEndServiceEvent
         == Awaited(0, Sharing(PS.Invoke(s)), old(node.nextEndServiceEvent), |sim.scheduled|)
  {
    hide Ready, PS.Invoke, Entries, Restart, Awaited;
    InvokeCounts(s);
    cs := node.Continue(s, sim.clock, sim.eventsCreated);
  }

  // ---- what an event sets off ----

  ghost predicate Together<E>(sim: Sim<E, Token>, node: ProcessorSharingNode, st: Station, midway: bool)
    reads sim, sim.diary, sim.diary.Repr, node, node.resources, node.resources.resourceCount
    reads node.queue, node.queue.Repr, node.queue.q, node.queue.q.contents
    reads node.queue.measures, node.queue.measures.popMeasure, node.queue.measures.queueingTime
  {
    && sim.Valid() && Apart(sim, node)
    && st.node.Sharing? && st.next == node.nextEndServiceEvent && Stands(node, st.node.ps, midway)
  }

  /** Node 0 is the only station, and it is forwarding a customer if `midway`. */
  function Forwarder(midway: bool): Option<nat> {
    if midway then Some(0) else None
  }

  method ActInPlace<E>(sim: Sim<E, Token>, node: ProcessorSharingNode, act: Act, ghost st: Station,
                       ghost midway: bool)
    returns (ghost st': Station)
    requires Together(sim, node, st, midway) && st.node.ps.now == sim.clock && !sim.failed
    requires midway ==> !(act.Entering? && act.node == 0)
    modifies sim, sim.diary.Repr, node, node.queue.Repr, node.resources, node.resources.resourceCount
    ensures Together(sim, node, st', midway)
    ensures fresh(sim.diary.Repr - old(sim.diary.Repr)) && fresh(node.queue.Repr - old(node.queue.Repr))
    ensures var (ss, cs) := ActOn([st], Forwarder(midway), act, old(sim.clock), old(|sim.scheduled|));
      ss == [st'] && sim.Snapshot() == PerformAll(old(sim.Snapshot()), cs)
  {
    hide Apart, Stands, PerformAll, Awaited, AcceptCommands, PS.Accept;
    st' := st;
    match act
    case Scheduling(delay, tag) =>
      PerformInPlace(sim, node, [Schedule(sim.clock + delay, Elsewhere(tag))], st.node.ps, midway);
    case Entering(id, v) =>
      if id == 0 {
        EnterInPlace(sim, node, v.demand, st.node.ps);
        st' := EnterStation(0, st, v, old(|sim.scheduled|)).0;
        EnteredIs(st, v, old(|sim.scheduled|));
      } else {
        NothingPerformed(sim.Snapshot());
      }
  }

  lemma NothingPerformed<E>(m: Machine<E, Token>)
    ensures PerformAll(m, []) == m
  {
  }

  lemma EnteredIs(st: Station, v: Demanding, created: nat)
    requires st.node.Sharing?
    ensures var (t, cs) := EnterStation(0, st, v, created);
      var u := Sharing(PS.Accept(st.node.ps, v.demand));
      && t.node == u && t.start == st.start && cs == AcceptCommands(0, st.node, u, st.next)
      && t.next == if |st.node.ps.queue| < st.node.ps.capacity then Awaited(0, u, st.next, created) else st.next
  {
    hide PS.Accept, Awaited, AcceptCommands;
  }

  /** The acts `acts` remain to be done of those that were begun at `x0`. */
  ghost predicate Remaining<E>(x0: Machine<E, Token>, ss0: seq<Station>, all: seq<Act>,
                               x: Machine<E, Token>, ss: seq<Station>, acts: seq<Act>, f: Option<nat>) {
    && Views(x, ss, f) && AllFit(ss, x.clock, f)
    && var o, rest := Acts(ss0, f, all, x0.clock, |x0.scheduled|), Acts(ss, f, acts, x.clock, |x.scheduled|);
       && o.stations == rest.stations && o.faulted == rest.faulted
       && PerformAll(x, rest.commands) == PerformAll(x0, o.commands)
  }

  lemma OneDone<E>(x0: Machine<E, Token>, ss0: seq<Station>, all: seq<Act>,
                   x: Machine<E, Token>, ss: seq<Station>, acts: seq<Act>, f: Option<nat>)
    requires Remaining(x0, ss0, all, x, ss, acts, f) && acts != [] && !Faults(ss, f, acts[0])
    ensures var (ss', cs) := ActOn(ss, f, acts[0], x.clock, |x.scheduled|);
      Remaining(x0, ss0, all, PerformAll(x, cs), ss', acts[1..], f)
  {
    hide Views, AllFit, Faults, ActOn, Creates, PerformAll, Done;
    FirstActPerforms(x, ss, f, acts[0]);
    var (ss', cs) := ActOn(ss, f, acts[0], x.clock, |x.scheduled|);
    var y := PerformAll(x, cs);
    PerformConcatenate(x, cs, Acts(ss', f, acts[1..], y.clock, |y.scheduled|).commands);
  }

  lemma AllDone<E>(x0: Machine<E, Token>, ss0: seq<Station>, all: seq<Act>,
                   x: Machine<E, Token>, ss: seq<Station>, f: Option<nat>)
    requires Remaining(x0, ss0, all, x, ss, [], f)
    ensures var o := Acts(ss0, f, all, x0.clock, |x0.scheduled|);
      !o.faulted && o.stations == ss && PerformAll(x0, o.commands) == x && x.user == x0.user
  {
    hide Views, AllFit;
    PerformAllKeeps(x0, Acts(ss0, f, all, x0.clock, |x0.scheduled|).commands);
  }

  lemma NodeFaults<E>(x0: Machine<E, Token>, st0: Station, all: seq<Act>,
                      x: Machine<E, Token>, st: Station, acts: seq<Act>)
    requires Remaining(x0, [st0], all, x, [st], acts, Some(0)) && acts != [] && Faults([st], Some(0), acts[0])
    ensures var o := Acts([st0], Some(0), all, x0.clock, |x0.scheduled|);
      o.faulted && PerformAll(x0, o.commands) == Perform(x, Deschedule(st.next)) && x.user == x0.user
  {
    PerformOne(x, Deschedule(st.next));
    PerformAllKeeps(x0, Acts([st0], Some(0), all, x0.clock, |x0.scheduled|).commands);
    hide AllFit, Own, PerformAll;
  }

  lemma FaultsHere<E>(x0: Machine<E, Token>, ss0: seq<Station>, all: seq<Act>,
                      x: Machine<E, Token>, st: Station, acts: seq<Act>, midway: bool)
    requires Remaining(x0, ss0, all, x, [st], acts, Forwarder(midway)) && acts != [] && st.node.Sharing?
    ensures Faults([st], Forwarder(midway), acts[0]) <==> midway && acts[0].Entering? && acts[0].node == 0
    ensures st.node.ps.now == x.clock && !x.failed
  {
    if midway { FaultsWhen([st], 0, acts[0], x.clock); }
    hide Sound, RunNode, Possible, Acts, PerformAll;
    assert if midway then FitsMidway([st][0], x.clock) else Fits([st][0], x.clock);
  }

  lemma InParts<E>(sim: Sim<E, Token>, node: ProcessorSharingNode, st: Station, midway: bool)
    requires Together(sim, node, st, midway)
    ensures sim.Valid() && st.node.Sharing? && st.next == node.nextEndServiceEvent
    ensures node.queue !in sim.diary.Repr
  {
  }

  /** The node deschedules the event being invoked. */
  method FaultInPlace<E>(sim: Sim<E, Token>, node: ProcessorSharingNode, ghost st: Station)
    requires Together(sim, node, st, true) && st.node.ps.now == sim.clock && !sim.failed
    modifies sim, sim.diary.Repr, node, node.resources, node.resources.resourceCount
    ensures sim.Valid() && fresh(sim.diary.Repr - old(sim.diary.Repr)) && node.queue.Repr == old(node.queue.Repr)
    ensures sim.Snapshot() == Perform(old(sim.Snapshot()), Deschedule(st.next))
  {
    hide Ready, PS.Invoke, Entries, PerformAll, Perform;
    PerformOne(sim.Snapshot(), Deschedule(st.next));
    var cs := node.EnterWhileForwarding(sim.clock);
    sim.PerformCommands(cs);
  }

  /** All that an event sets off, until the node gets back a customer that it is just forwarding. */
  method DoActs<E>(sim: Sim<E, Token>, node: ProcessorSharingNode, acts: seq<Act>, ghost st: Station, midway: bool)
    returns (ghost st': Station, faulted: bool)
    requires Together(sim, node, st, midway)
    requires Views(sim.Snapshot(), [st], Forwarder(midway)) && AllFit([st], sim.clock, Forwarder(midway))
    modifies sim, sim.diary.Repr, node, node.queue.Repr, node.resources, node.resources.resourceCount
    ensures sim.Valid() && fresh(sim.diary.Repr - old(sim.diary.Repr))
    ensures fresh(node.queue.Repr - old(node.queue.Repr)) && sim.user == old(sim.user)
    ensures var o := Acts([st], Forwarder(midway), acts, old(sim.clock), old(|sim.scheduled|));
      && faulted == o.faulted && sim.Snapshot() == PerformAll(old(sim.Snapshot()), o.commands)
      && (!faulted ==> Together(sim, node, st', midway) && o.stations == [st'])
  {
    hide Together, Views, AllFit, Acts, ActOn, PerformAll, Faults;
    ghost var x0 := sim.Snapshot();
    st' := st;
    assert acts[0..] == acts;
    assert Remaining(x0, [st], acts, x0, [st], acts, Forwarder(midway));
    hide Remaining;
    for i := 0 to |acts|
      invariant Together(sim, node, st', midway)
      invariant fresh(sim.diary.Repr - old(sim.diary.Repr)) && fresh(node.queue.Repr - old(node.queue.Repr))
      invariant Remaining(x0, [st], acts, sim.Snapshot(), [st'], acts[i..], Forwarder(midway))
    {
      assert acts[i..][0] == acts[i] && acts[i..][1..] == acts[i + 1..];
      InParts(sim, node, st', midway);
      FaultsHere(x0, [st], acts, sim.Snapshot(), st', acts[i..], midway);
      if midway && acts[i].Entering? && acts[i].node == 0 {
        NodeFaults(x0, st, acts, sim.Snapshot(), st', acts[i..]);
        FaultInPlace(sim, node, st');
        faulted := true;
        return;
      }
      OneDone(x0, [st], acts, sim.Snapshot(), [st'], acts[i..], Forwarder(midway));
      st' := ActInPlace(sim, node, acts[i], st', midway);
    }
    assert acts[|acts|..] == [];
    InParts(sim, node, st', midway);
    AllDone(x0, [st], acts, sim.Snapshot(), [st'], Forwarder(midway));
    faulted := false;
  }

  // ---- one turn of the clock loop ----

  /** Routing, sources and the end of the simulation: functions that see nothing of the node but the number of
      the customer that departs, if one does. */
  function Unseeing<E>(react: (E, Event<Token>, Option<nat>) -> Reaction<E>, stop: (E, real) -> bool): World<E> {
    World((env: E, ns: seq<Node>, e: Event<Token>) => react(env, e, Leaver(ns, e)),
          (env: E, _: seq<Node>, t: real) => stop(env, t))
  }

  function Leaver(ns: seq<Node>, e: Event<Token>): Option<nat> {
    if IsOwn(e, 0) && ns != [] && ns[0].Sharing? && ns[0].ps.queue != [] then Some(ns[0].ps.queue[0].id) else None
  }

  function WithUser<S, T>(m: Machine<S, Token>, u: T): Machine<T, Token> {
    Machine(u, m.clock, m.diary, m.failed, m.scheduled, m.executed, m.cancelled, m.dropped)
  }

  /** Commands do not look at the user's state. */
  lemma {:induction false} PerformAllMirrored<S, T>(m: Machine<S, Token>, u: T, cs: seq<Command<Token>>)
    ensures PerformAll(WithUser(m, u), cs) == WithUser(PerformAll(m, cs), u)
    decreases |cs|
  {
    if cs != [] && !m.failed {
      assert Perform(WithUser(m, u), cs[0]) == WithUser(Perform(m, cs[0]), u);
      hide Perform;
      PerformAllMirrored(Perform(m, cs[0]), u, cs[1..]);
    }
  }

  method NextInPlace<E>(sim: Sim<E, Token>, node: ProcessorSharingNode, ghost st: Station) returns (e: Event<Token>)
    requires Together(sim, node, st, false) && sim.diary.contents != []
    modifies sim, sim.diary.Repr
    ensures Together(sim, node, st, false) && sim.diary.Repr == old(sim.diary.Repr)
    ensures node.queue.Repr == old(node.queue.Repr)
    ensures e == old(sim.diary.contents)[0]
    ensures sim.Snapshot() == old(sim.Snapshot()).(diary := old(sim.diary.contents)[1..], clock := e.time)
  {
    hide Stands;
    e := sim.NextEvent();
  }

  method Begin<E>(sim: Sim<E, Token>, node: ProcessorSharingNode, e: Event<Token>, env: E, ghost st: Station,
                  ghost midway: bool)
    requires Together(sim, node, st, midway)
    modifies sim
    ensures Together(sim, node, st, midway) && node.queue.Repr == old(node.queue.Repr)
    ensures sim.diary.Repr == old(sim.diary.Repr)
    ensures sim.Snapshot() == old(sim.Snapshot()).(user := env, executed := old(sim.executed) + [e])
  {
    hide Stands;
    sim.user := env;
    sim.executed := sim.executed + [e];
  }

  method Drop<E>(sim: Sim<E, Token>, node: ProcessorSharingNode, e: Event<Token>, ghost st: Station)
    requires Together(sim, node, st, false)
    modifies sim
    ensures Together(sim, node, st, false)
    ensures sim.Snapshot() == old(sim.Snapshot()).(dropped := old(sim.dropped) + [e])
  {
    hide Stands;
    sim.dropped := sim.dropped + [e];
  }

  lemma TogetherPasses<E>(sim: Sim<E, Token>, node: ProcessorSharingNode, st: Station, t: real)
    requires Together(sim, node, st, false) && Possible(st.node, QN.Passes(t))
    ensures Together(sim, node, Passing(st, t), false)
  {
    hide Stands, Apart;
    TimePasses(node, st.node.ps, t);
  }

  /** What follows after the acts when the node is not handed its own customer back. */
  lemma Finishing<E>(m: Machine<E, Token>, p: Station, acts: seq<Act>, st: Station)
    requires Views(m, [p], Some(0)) && AllFit([p], m.clock, Some(0)) && p.node.Sharing?
    requires var o := Acts([p], Some(0), acts, m.clock, |m.scheduled|); !o.faulted && o.stations == [st]
    ensures var o := Acts([p], Some(0), acts, m.clock, |m.scheduled|);
      && PerformAll(m, o.commands).clock == m.clock
      && |PerformAll(m, o.commands).scheduled| == |m.scheduled| + Creates(o.commands)
    ensures st.node.Sharing? ==>
      Possible(st.node, QN.Finishes([])) && st.node.ps.now == m.clock && st.node.ps.queue != []
  {
    hide Views, PerformAll, Creates, Acts;
    ActsFit([p], Some(0), acts, m.clock, |m.scheduled|);
    ActsPerform(m, [p], Some(0), acts);
    assert FitsMidway([st][0], m.clock);
  }

  /** The first in line has departed and is forwarded, which sets off `acts`; then the node goes on, unless it
      has got that customer back. */
  method ServeInPlace<E>(sim: Sim<E, Token>, node: ProcessorSharingNode, acts: seq<Act>, ghost p: Station)
    returns (ghost st: Station, faulted: bool)
    requires Together(sim, node, p, true) && p.node.ps.now == sim.clock && p.node.ps.queue != []
    requires Views(sim.Snapshot(), [p], Some(0)) && AllFit([p], sim.clock, Some(0))
    modifies sim, sim.diary.Repr, node, node.queue.Repr, node.resources, node.resources.resourceCount
    ensures sim.Valid() && fresh(sim.diary.Repr - old(sim.diary.Repr))
    ensures fresh(node.queue.Repr - old(node.queue.Repr)) && sim.user == old(sim.user)
    ensures var o := Acts([p], Some(0), acts, old(sim.clock), old(|sim.scheduled|));
      && faulted == o.faulted
      && (faulted ==> sim.Snapshot() == PerformAll(old(sim.Snapshot()), o.commands))
      && (!faulted ==>
            && Together(sim, node, st, false)
            && !o.stations[0].node.Pooling? && Possible(o.stations[0].node, QN.Finishes([]))
            && var (st', cs) := Finish(0, o.stations[0], Entrants(acts, 0), old(|sim.scheduled|) + Creates(o.commands));
               st == st' && sim.Snapshot() == PerformAll(old(sim.Snapshot()), o.commands + cs))
  {
    hide Together, Views, AllFit, Acts, PerformAll, Possible, Creates, Finish;
    ghost var x0 := sim.Snapshot();
    InParts(sim, node, p, true);
    st, faulted := DoActs(sim, node, acts, p, true);
    if !faulted {
      InParts(sim, node, st, true);
      Finishing(x0, p, acts, st);
      ghost var o := Acts([p], Some(0), acts, x0.clock, |x0.scheduled|);
      ghost var (st', cs) := Finish(0, st, Entrants(acts, 0), |sim.scheduled|);
      PerformConcatenate(x0, o.commands, cs);
      PerformAllKeeps(x0, o.commands + cs);
      ContinueTogether(sim, node, st, Entrants(acts, 0));
      st := st';
      InParts(sim, node, st, false);
    }
  }

  method DepartTogether<E>(sim: Sim<E, Token>, node: ProcessorSharingNode, ghost p: Station) returns (departed: nat)
    requires Together(sim, node, p, false) && p.node.ps.now == sim.clock && p.node.ps.queue != []
    modifies node, node.queue.Repr
    ensures Together(sim, node, p, true) && node.queue.Repr == old(node.queue.Repr)
    ensures departed == p.node.ps.queue[0].id
    ensures sim.Snapshot() == old(sim.Snapshot()) && sim.diary.Repr == old(sim.diary.Repr)
  {
    hide Stands, Apart;
    departed := DepartApart(sim, node, p.node.ps);
  }

  method ContinueTogether<E>(sim: Sim<E, Token>, node: ProcessorSharingNode, ghost st: Station,
                             ghost back: seq<QN.Visit>)
    requires Together(sim, node, st, true) && st.node.ps.now == sim.clock && st.node.ps.queue != []
    requires Possible(st.node, QN.Finishes([]))
    modifies sim, sim.diary.Repr, node, node.resources, node.resources.resourceCount
    ensures fresh(sim.diary.Repr - old(sim.diary.Repr)) && node.queue.Repr == old(node.queue.Repr)
    ensures var (st', cs) := Finish(0, st, back, old(|sim.scheduled|));
      Together(sim, node, st', false) && sim.Snapshot() == PerformAll(old(sim.Snapshot()), cs)
  {
    hide Stands, Apart, PerformAll, PS.Invoke, Restart, Awaited;
    ContinueInPlace(sim, node, st.node.ps);
  }

  /** The simulation in the model: the node in place, seen as the only station. */
  ghost function Whole<E>(sim: Sim<E, Token>, st: Station): Machine<System<E>, Token>
    reads sim, sim.diary
  {
    WithUser(sim.Snapshot(), System([st], sim.user, false))
  }

  function PoppedOf<E>(m: Machine<E, Token>): Machine<E, Token>
    requires m.diary != []
  {
    m.(diary := m.diary[1..], clock := m.diary[0].time)
  }

  function BegunOf<E>(m: Machine<E, Token>, env: E): Machine<E, Token>
    requires m.diary != []
  {
    PoppedOf(m).(user := env, executed := m.executed + [m.diary[0]])
  }

  /** What the coming of the next event means for the one station. */
  lemma EventComesToOne<E>(m: Machine<E, Token>, st: Station, env: E)
    requires Consistent(WithUser(m, System([st], m.user, false))) && m.diary != [] && st.node.Sharing?
    ensures var e, f := m.diary[0], Forwarder(IsOwn(m.diary[0], 0));
      && Possible(st.node, QN.Passes(e.time)) && AllPassing([st], e.time) == [Passing(st, e.time)]
      && Owner(e, 1) == f && m.clock <= e.time
      && var p := Passing(st, e.time);
         && p.node.Sharing? && p.node.ps.now == e.time
         && (f.Some? ==> Due(p.node).Some? && p.node.ps.queue != [] && Leaving(p) == p)
         && Views(BegunOf(m, env), [p], f) && AllFit([p], e.time, f)
  {
    hide Own, Upcoming, Holds, Sound, RunNode, PS.Refines;
    var u := System([st], env, false);
    EventComes(WithUser(m, System([st], m.user, false)), u);
    var e := m.diary[0];
    assert Possible([st][0].node, QN.Passes(e.time));
    var p := Passing(st, e.time);
    assert AllPassing([st], e.time) == [p];
    assert Invoked([st], e) == [p];
    assert AllFit([p], e.time, None);
    assert Fits([p][0], e.time);
    SharingBusy(p, e.time);
  }

  lemma SharingBusy(p: Station, now: real)
    requires Fits(p, now) && p.node.Sharing?
    ensures Due(p.node).Some? ==> p.node.ps.queue != []
  {
    SharingDue(p.node.ps);
  }

  /** The model's turn, by what the event sets off. */
  lemma TurnDispatches<E>(w: World<E>, m: Machine<E, Token>, st: Station, u: System<E>, cs: seq<Command<Token>>)
    requires m.diary != [] && !w.stop(m.user, Nodes([st]), m.diary[0].time)
    requires Dispatch(w, System([st], m.user, false), m.diary[0], |m.scheduled|) == (u, cs)
    ensures Turn(Loop(w), WithUser(m, System([st], m.user, false))) == WithUser(PerformAll(BegunOf(m, u.env), cs), u)
  {
    hide Dispatch, PerformAll;
    PerformAllMirrored(BegunOf(m, u.env), u, cs);
  }

  lemma DispatchToOne<E>(w: World<E>, st: Station, env: E, e: Event<Token>, created: nat)
    requires Possible(st.node, QN.Passes(e.time)) && AllPassing([st], e.time) == [Passing(st, e.time)]
    requires Owner(e, 1) == Forwarder(IsOwn(e, 0))
    requires IsOwn(e, 0) ==> Due(Passing(st, e.time).node).Some? && Leaving(Passing(st, e.time)) == Passing(st, e.time)
    ensures var u, re := System([st], env, false), w.react(env, Nodes([st]), e);
      var o := Acts([Passing(st, e.time)], Forwarder(IsOwn(e, 0)), re.acts, e.time, created);
      Dispatch(w, u, e, created)
      == if IsOwn(e, 0) then Networks.Complete(0, u, re.env, o, Entrants(re.acts, 0), created)
         else (System(o.stations, re.env, false), o.commands)
  {
    hide Acts, Possible, Passing, Owner, Due, Leaving, Networks.Complete, IsOwn;
    assert [Passing(st, e.time)][0 := Passing(st, e.time)] == [Passing(st, e.time)];
  }

  lemma CompletesOne<E>(u: System<E>, env: E, o: Outcome, back: seq<QN.Visit>, created: nat)
    requires |o.stations| == 1 && !u.fedBack
    ensures o.faulted ==>
      Networks.Complete(0, u, env, o, back, created) == (u.(env := env, fedBack := true), o.commands)
    ensures !o.faulted && !o.stations[0].node.Pooling? && Possible(o.stations[0].node, QN.Finishes([])) ==>
      var (st, cs) := Finish(0, o.stations[0], back, created + Creates(o.commands));
      Networks.Complete(0, u, env, o, back, created) == (System([st], env, false), o.commands + cs)
  {
    hide Possible, Finish, Creates;
    if !o.faulted && !o.stations[0].node.Pooling? && Possible(o.stations[0].node, QN.Finishes([])) {
      var (st, cs) := Finish(0, o.stations[0], back, created + Creates(o.commands));
      assert o.stations[0 := st] == [st];
    }
  }

  /** The model's turn when the event belongs to the rest of the world, and when it is the node's. */
  lemma TurnElsewhere<E>(w: World<E>, m: Machine<E, Token>, st: Station)
    requires Consistent(WithUser(m, System([st], m.user, false))) && m.diary != [] && st.node.Sharing?
    requires !w.stop(m.user, Nodes([st]), m.diary[0].time) && !IsOwn(m.diary[0], 0)
    ensures Possible(st.node, QN.Passes(m.diary[0].time))
    ensures var re := w.react(m.user, Nodes([st]), m.diary[0]);
      var o := Acts([Passing(st, m.diary[0].time)], None, re.acts, m.diary[0].time, |m.scheduled|);
      Turn(Loop(w), WithUser(m, System([st], m.user, false)))
      == WithUser(PerformAll(BegunOf(m, re.env), o.commands), System(o.stations, re.env, false))
  {
    hide Consistent, Acts, PerformAll, Possible, Passing, Turn, Dispatch, Owner, Views, AllFit;
    var e, re := m.diary[0], w.react(m.user, Nodes([st]), m.diary[0]);
    EventComesToOne(m, st, re.env);
    DispatchToOne(w, st, m.user, e, |m.scheduled|);
    var o := Acts([Passing(st, e.time)], None, re.acts, e.time, |m.scheduled|);
    TurnDispatches(w, m, st, System(o.stations, re.env, false), o.commands);
  }

  lemma TurnOwn<E>(w: World<E>, m: Machine<E, Token>, st: Station)
    requires Consistent(WithUser(m, System([st], m.user, false))) && m.diary != [] && st.node.Sharing?
    requires !w.stop(m.user, Nodes([st]), m.diary[0].time) && IsOwn(m.diary[0], 0)
    ensures Possible(st.node, QN.Passes(m.diary[0].time))
    ensures var re := w.react(m.user, Nodes([st]), m.diary[0]);
      var o := Acts([Passing(st, m.diary[0].time)], Some(0), re.acts, m.diary[0].time, |m.scheduled|);
      var t := Turn(Loop(w), WithUser(m, System([st], m.user, false)));
      && (o.faulted ==>
            t == WithUser(PerformAll(BegunOf(m, re.env), o.commands), System([st], re.env, true)))
      && (!o.faulted && !o.stations[0].node.Pooling? && Possible(o.stations[0].node, QN.Finishes([])) ==>
            var (st', cs) := Finish(0, o.stations[0], Entrants(re.acts, 0), |m.scheduled| + Creates(o.commands));
            t == WithUser(PerformAll(BegunOf(m, re.env), o.commands + cs), System([st'], re.env, false)))
  {
    hide Consistent, Acts, PerformAll, Possible, Passing, Turn, Dispatch, Owner, Views, AllFit, Finish, Creates;
    hide Networks.Complete;
    var e, re := m.diary[0], w.react(m.user, Nodes([st]), m.diary[0]);
    EventComesToOne(m, st, re.env);
    DispatchToOne(w, st, m.user, e, |m.scheduled|);
    var o := Acts([Passing(st, e.time)], Some(0), re.acts, e.time, |m.scheduled|);
    CompletesOne(System([st], m.user, false), re.env, o, Entrants(re.acts, 0), |m.scheduled|);
    var (u, cs) := Dispatch(w, System([st], m.user, false), e, |m.scheduled|);
    TurnDispatches(w, m, st, u, cs);
  }

  lemma TurnStops<E>(w: World<E>, m: Machine<E, Token>, st: Station)
    requires m.diary != [] && w.stop(m.user, Nodes([st]), m.diary[0].time)
    ensures Turn(Loop(w), WithUser(m, System([st], m.user, false)))
         == WithUser(PoppedOf(m).(dropped := m.dropped + [m.diary[0]]), System([st], m.user, false))
  {
  }

  /** The node's own event: its first customer departs, the world says where it goes, and the node goes on.
      `m` is the state before the event was taken out of the diary. */
  method InvokeOwn<E>(sim: Sim<E, Token>, node: ProcessorSharingNode, e: Event<Token>,
                      react: (E, Event<Token>, Option<nat>) -> Reaction<E>, ghost stop: (E, real) -> bool,
                      ghost m: Machine<E, Token>, ghost st: Station)
    returns (ghost u: System<E>)
    requires Together(sim, node, st, false) && m.diary != [] && e == m.diary[0] && IsOwn(e, 0)
    requires Consistent(WithUser(m, System([st], m.user, false))) && sim.Snapshot() == PoppedOf(m)
    requires !stop(m.user, e.time)
    modifies sim, sim.diary.Repr, node, node.queue.Repr, node.resources, node.resources.resourceCount
    ensures sim.Valid() && fresh(sim.diary.Repr - old(sim.diary.Repr))
    ensures fresh(node.queue.Repr - old(node.queue.Repr)) && u.env == sim.user
    ensures WithUser(sim.Snapshot(), u)
         == Turn(Loop(Unseeing(react, stop)), WithUser(m, System([st], m.user, false)))
    ensures !u.fedBack ==> |u.stations| == 1 && Together(sim, node, u.stations[0], false)
  {
    hide Together, Consistent, Acts, PerformAll, Possible, Creates, Finish, Views, AllFit, Passing, Turn, IsOwn;
    InParts(sim, node, st, false);
    EventComesToOne(m, st, m.user);
    TogetherPasses(sim, node, st, e.time);
    SameLine(st, e.time);
    ghost var p := Passing(st, e.time);
    var departed := DepartTogether(sim, node, p);
    Seen(react, stop, m.user, st, e);
    var re := react(sim.user, e, Some(departed));
    Begin(sim, node, e, re.env, p, true);
    EventComesToOne(m, st, re.env);
    TurnOwn(Unseeing(react, stop), m, st);
    ghost var st', faulted := ServeInPlace(sim, node, re.acts, p);
    u := if faulted then System([st], re.env, true) else System([st'], re.env, false);
  }

  lemma Seen<E>(react: (E, Event<Token>, Option<nat>) -> Reaction<E>, stop: (E, real) -> bool,
                env: E, st: Station, e: Event<Token>)
    requires st.node.Sharing?
    ensures Unseeing(react, stop).react(env, Nodes([st]), e)
         == react(env, e, if IsOwn(e, 0) && st.node.ps.queue != [] then Some(st.node.ps.queue[0].id) else None)
  {
    var ns := Nodes([st]);
    assert ns == [st.node];
    assert ns[0] == st.node;
    assert Unseeing(react, stop).react(env, ns, e) == react(env, e, Leaver(ns, e));
  }

  lemma SameLine(st: Station, t: real)
    requires Possible(st.node, QN.Passes(t)) && st.node.Sharing?
    ensures Passing(st, t).node.Sharing? && Passing(st, t).node.ps.queue == st.node.ps.queue
  {
  }

  method InvokeElsewhere<E>(sim: Sim<E, Token>, node: ProcessorSharingNode, e: Event<Token>,
                            react: (E, Event<Token>, Option<nat>) -> Reaction<E>, ghost stop: (E, real) -> bool,
                            ghost m: Machine<E, Token>, ghost st: Station)
    returns (ghost u: System<E>)
    requires Together(sim, node, st, false) && m.diary != [] && e == m.diary[0] && !IsOwn(e, 0)
    requires Consistent(WithUser(m, System([st], m.user, false))) && sim.Snapshot() == PoppedOf(m)
    requires !stop(m.user, e.time)
    modifies sim, sim.diary.Repr, node, node.queue.Repr, node.resources, node.resources.resourceCount
    ensures sim.Valid() && fresh(sim.diary.Repr - old(sim.diary.Repr))
    ensures fresh(node.queue.Repr - old(node.queue.Repr)) && u.env == sim.user
    ensures WithUser(sim.Snapshot(), u)
         == Turn(Loop(Unseeing(react, stop)), WithUser(m, System([st], m.user, false)))
    ensures !u.fedBack ==> |u.stations| == 1 && Together(sim, node, u.stations[0], false)
  {
    hide Together, Consistent, Acts, PerformAll, Possible, Views, AllFit, Passing, Turn, IsOwn;
    InParts(sim, node, st, false);
    Seen(react, stop, m.user, st, e);
    var re := react(sim.user, e, None);
    EventComesToOne(m, st, re.env);
    TogetherPasses(sim, node, st, e.time);
    ghost var p := Passing(st, e.time);
    Begin(sim, node, e, re.env, p, false);
    TurnElsewhere(Unseeing(react, stop), m, st);
    ghost var st', _ := DoActs(sim, node, re.acts, p, false);
    NeverForwarding([p], re.acts, e.time, |m.scheduled|);
    u := System([st'], re.env, false);
  }

  /** One turn of the loop in place is one turn of the model's. `u` is the user's state there. */
  method TakeTurn<E>(sim: Sim<E, Token>, node: ProcessorSharingNode,
                     react: (E, Event<Token>, Option<nat>) -> Reaction<E>, stop: (E, real) -> bool, ghost st: Station)
    returns (ghost u: System<E>)
    requires Together(sim, node, st, false) && sim.diary.contents != [] && Consistent(Whole(sim, st))
    modifies sim, sim.diary.Repr, node, node.queue.Repr, node.resources, node.resources.resourceCount
    ensures sim.Valid() && fresh(sim.diary.Repr - old(sim.diary.Repr))
    ensures fresh(node.queue.Repr - old(node.queue.Repr))
    ensures WithUser(sim.Snapshot(), u) == Turn(Loop(Unseeing(react, stop)), old(Whole(sim, st)))
    ensures u.env == sim.user
    ensures !u.fedBack ==> |u.stations| == 1 && Together(sim, node, u.stations[0], false)
  {
    hide Together, Consistent, Acts, PerformAll, Possible, Creates, Finish, Views, AllFit, Passing, Turn;
    hide Owner, IsOwn;
    ghost var m, w := sim.Snapshot(), Unseeing(react, stop);
    InParts(sim, node, st, false);
    var e := NextInPlace(sim, node, st);
    InParts(sim, node, st, false);
    if stop(sim.user, e.time) {
      TurnStops(w, m, st);
      Drop(sim, node, e, st);
      InParts(sim, node, st, false);
      u := System([st], sim.user, false);
      return;
    }
    if IsOwn(e, 0) {
      u := InvokeOwn(sim, node, e, react, stop, m, st);
    } else {
      u := InvokeElsewhere(sim, node, e, react, stop, m, st);
    }
  }

  /** The loop in place and the model's have come equally far: the model's user state is `u`. */
  ghost predicate Running<E>(sim: Sim<E, Token>, node: ProcessorSharingNode, w: World<E>, starts: seq<Station>,
                             u: System<E>)
    reads sim, sim.diary, sim.diary.Repr, node, node.resources, node.resources.resourceCount
    reads node.queue, node.queue.Repr, node.queue.q, node.queue.q.contents
    reads node.queue.measures, node.queue.measures.popMeasure, node.queue.measures.queueingTime
  {
    && sim.Valid() && u.env == sim.user && Inv(w, starts, WithUser(sim.Snapshot(), u))
    && (!u.fedBack ==> |u.stations| == 1 && Together(sim, node, u.stations[0], false))
  }

  method GoOn<E>(sim: Sim<E, Token>, node: ProcessorSharingNode,
                 react: (E, Event<Token>, Option<nat>) -> Reaction<E>, stop: (E, real) -> bool,
                 ghost starts: seq<Station>, ghost u: System<E>)
    returns (ghost u': System<E>)
    requires Running(sim, node, Unseeing(react, stop), starts, u)
    requires sim.diary.contents != [] && !sim.failed && !stop(sim.user, sim.clock)
    modifies sim, sim.diary.Repr, node, node.queue.Repr, node.resources, node.resources.resourceCount
    ensures fresh(sim.diary.Repr - old(sim.diary.Repr)) && fresh(node.queue.Repr - old(node.queue.Repr))
    ensures Running(sim, node, Unseeing(react, stop), starts, u')
    ensures !Halted(Loop(Unseeing(react, stop)), old(WithUser(sim.Snapshot(), u)))
    ensures WithUser(sim.Snapshot(), u') == Turn(Loop(Unseeing(react, stop)), old(WithUser(sim.Snapshot(), u)))
  {
    hide Together, Turn, Inv, Loop, Consistent, Halted;
    ghost var w := Unseeing(react, stop);
    StillConsistent(w, starts, WithUser(sim.Snapshot(), u));
    TurnKeeps(w, starts, WithUser(sim.Snapshot(), u));
    assert u.stations == [u.stations[0]];
    assert Whole(sim, u.stations[0]) == WithUser(sim.Snapshot(), u);
    u' := TakeTurn(sim, node, react, stop, u.stations[0]);
  }

  /** The first `turns` turns of the loop in place are those of the model, and unless the simulation fails the
      node in place is the model's node. */
  method Go<E>(sim: Sim<E, Token>, node: ProcessorSharingNode,
               react: (E, Event<Token>, Option<nat>) -> Reaction<E>, stop: (E, real) -> bool, turns: nat,
               ghost st: Station)
    returns (ghost u: System<E>)
    requires Together(sim, node, st, false) && Starting(Whole(sim, st))
    modifies sim, sim.diary.Repr, node, node.queue.Repr, node.resources, node.resources.resourceCount
    ensures sim.Valid() && u.env == sim.user
    ensures WithUser(sim.Snapshot(), u) == Simulation.Run(Loop(Unseeing(react, stop)), old(Whole(sim, st)), turns)
    ensures !sim.failed ==> |u.stations| == 1 && Together(sim, node, u.stations[0], false)
  {
    hide Running, Together, Starting, Turn, Inv, Loop, Simulation.Run, Halted;
    ghost var w, m0 := Unseeing(react, stop), Whole(sim, st);
    StartingInv(w, m0);
    u := System([st], sim.user, false);
    BeginsRunning(sim, node, w, m0.user.stations, st);
    var n := turns;
    assert Simulation.Run(Loop(w), WithUser(sim.Snapshot(), u), n) == Simulation.Run(Loop(w), m0, turns);
    RunningParts(sim, node, w, m0.user.stations, u);
    while n > 0 && !sim.diary.IsEmpty() && !sim.failed && !stop(sim.user, sim.clock)
      invariant fresh(sim.diary.Repr - old(sim.diary.Repr)) && fresh(node.queue.Repr - old(node.queue.Repr))
      invariant Running(sim, node, w, m0.user.stations, u) && sim.Valid()
      invariant Simulation.Run(Loop(w), WithUser(sim.Snapshot(), u), n) == Simulation.Run(Loop(w), m0, turns)
    {
      OneTurnRun(w, WithUser(sim.Snapshot(), u), n);
      u := GoOn(sim, node, react, stop, m0.user.stations, u);
      RunningParts(sim, node, w, m0.user.stations, u);
      n := n - 1;
    }
    RunningParts(sim, node, w, m0.user.stations, u);
    NoTurnRun(w, WithUser(sim.Snapshot(), u), n);
  }

  /** An empty node, and the first event of the rest of the world. */
  function FirstAt<E>(env: E, capacity: nat, first: Duration): Machine<System<E>, Token> {
    var e := Event(0, first, Elsewhere(0));
    var n := Sharing(PS.Initial(capacity));
    Machine(System([Station(n, n, Event(0, 0.0, Elsewhere(0)), [])], env, false), 0.0, [e], false, [e], [], [], [])
  }

  lemma FirstStarts<E>(env: E, capacity: nat, first: Duration)
    ensures Starting(FirstAt(env, capacity, first))
  {
    OwnOne(FirstAt(env, capacity, first).diary[0], 0);
  }

  /** A whole simulation from nothing: both objects are made, the first event is scheduled, and the loop runs. */
  method Simulate<E>(env: E, capacity: nat, first: Duration,
                     react: (E, Event<Token>, Option<nat>) -> Reaction<E>, stop: (E, real) -> bool, turns: nat)
    returns (sim: Sim<E, Token>, node: ProcessorSharingNode, ghost u: System<E>)
    ensures sim.Valid() && u.env == sim.user
    ensures WithUser(sim.Snapshot(), u)
         == Simulation.Run(Loop(Unseeing(react, stop)), FirstAt(env, capacity, first), turns)
    ensures !sim.failed ==> |u.stations| == 1 && Together(sim, node, u.stations[0], false)
  {
    hide Starting, Loop, Simulation.Run, DiaryInsert;
    sim, node := Prepared(env, capacity, first);
    FirstStarts(env, capacity, first);
    u := Go(sim, node, react, stop, turns, FirstAt(env, capacity, first).user.stations[0]);
  }

  method Prepared<E>(env: E, capacity: nat, first: Duration) returns (sim: Sim<E, Token>, node: ProcessorSharingNode)
    ensures fresh(sim) && fresh(sim.diary.Repr) && fresh(node) && fresh(node.queue.Repr)
    ensures fresh(node.resources) && fresh(node.resources.resourceCount)
    ensures Together(sim, node, FirstAt(env, capacity, first).user.stations[0], false)
    ensures Whole(sim, FirstAt(env, capacity, first).user.stations[0]) == FirstAt(env, capacity, first)
  {
    hide Ready, Entries;
    sim := new Sim(env);
    node := new ProcessorSharingNode(0, capacity);
    ReadyParts(node.queue, node.resources, 0.0);
    ghost var e: Event<Token> := Event(0, first, Elsewhere(0));
    assert DiaryInsert([], e) == [e];
    var _ := sim.Schedule(first, Elsewhere(0));
  }

  lemma BeginsRunning<E>(sim: Sim<E, Token>, node: ProcessorSharingNode, w: World<E>, starts: seq<Station>, st: Station)
    requires Together(sim, node, st, false) && Inv(w, starts, Whole(sim, st))
    ensures Running(sim, node, w, starts, System([st], sim.user, false))
  {
    hide Stands, Apart, Inv;
  }

  lemma RunningParts<E>(sim: Sim<E, Token>, node: ProcessorSharingNode, w: World<E>, starts: seq<Station>, u: System<E>)
    requires Running(sim, node, w, starts, u)
    ensures sim.Valid() && u.env == sim.user && (sim.failed <==> u.fedBack)
    ensures !sim.failed ==> |u.stations| == 1 && Together(sim, node, u.stations[0], false)
  {
    hide Together;
  }

  lemma OneTurnRun<E>(w: World<E>, m: Machine<System<E>, Token>, n: nat)
    requires n > 0
    ensures !Halted(Loop(w), m) ==>
      Simulation.Run(Loop(w), m, n) == Simulation.Run(Loop(w), Turn(Loop(w), m), n - 1)
  {
    hide Turn, Loop;
  }

  lemma NoTurnRun<E>(w: World<E>, m: Machine<System<E>, Token>, n: nat)
    requires n == 0 || m.diary == [] || m.failed || w.stop(m.user.env, Nodes(m.user.stations), m.clock)
    ensures Simulation.Run(Loop(w), m, n) == m
  {
    hide Turn;
  }

  lemma StillConsistent<E>(w: World<E>, starts: seq<Station>, m: Machine<System<E>, Token>)
    requires Inv(w, starts, m) && !m.failed && !w.stop(m.user.env, Nodes(m.user.stations), m.clock)
    ensures Consistent(m) && !m.user.fedBack
    ensures m.diary != [] ==> !Halted(Loop(w), m)
  {
    hide Views, AllFit;
  }
}
