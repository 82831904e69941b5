/** Any number of service nodes of the three kinds, any rest of the world, one event diary and one clock
    loop. Every node owns its part of the diary. An event may bring any customers into any nodes, in any
    order, before the node it belongs to has finished with it. */
module Networks {
  import opened PointerList
  import opened Workload
  import opened Simulation
  import opened NodeDiary
  import opened ServiceNodes
  import QN = Queueing
  import PR = PreemptiveResume

  /** A node, the event a single-server node waits for, and what has happened to the node since `start`. */
  datatype Station = Station(start: Node, node: Node, next: Event<Token>, steps: seq<QN.NodeStep>)

  /** What an event sets off: a customer enters a node, or something elsewhere schedules an event of its
      own. Only the nodes themselves deschedule. */
  datatype Act = Entering(node: nat, visit: Demanding) | Scheduling(delay: Duration, tag: nat)

  datatype Reaction<E> = Reaction(env: E, acts: seq<Act>)

  /** Routing, sources, sampled demands and the end of the simulation: any functions of what there is. */
  datatype World<!E> = World(
    react: (E, seq<Node>, Event<Token>) -> Reaction<E>,
    stop: (E, seq<Node>, real) -> bool)

  /** `fedBack` is set when a single-server node gets a customer back that it is just forwarding. */
  datatype System<E> = System(stations: seq<Station>, env: E, fedBack: bool)

  function Nodes(ss: seq<Station>): (ns: seq<Node>)
    ensures |ns| == |ss|
  {
    seq(|ss|, i requires 0 <= i < |ss| => ss[i].node)
  }

  // ---- one customer enters one node ----

  function EnterStation(id: nat, st: Station, v: Demanding, created: nat): (Station, seq<Command<Token>>) {
    var t := Do(st.node, QN.Enters(v));
    match st.node
    case Pooling(q) =>
      (st.(node := t, steps := st.steps + [QN.Enters(v)]), PoolEnterCommands(id, q, v))
    case _ =>
      (Station(st.start, t, if Admits(st.node) then Awaited(id, t, st.next, created) else st.next,
               st.steps + [QN.Enters(v)]),
       AcceptCommands(id, st.node, t, st.next))
  }

  /** It enters the node that is forwarding a customer. The steps of a pool get it when it has finished. */
  function ReenterStation(id: nat, st: Station, v: Demanding): (Station, seq<Command<Token>>) {
    match st.node
    case Pooling(q) => (st.(node := Pooling(QN.Enter(q, v))), PoolEnterCommands(id, q, v))
    case _ => (st, [])
  }

  // ---- all that an event sets off ----

  function ActOn(ss: seq<Station>, forwarding: Option<nat>, act: Act, now: real, created: nat)
    : (r: (seq<Station>, seq<Command<Token>>))
    ensures |r.0| == |ss|
  {
    match act
    case Scheduling(delay, tag) => (ss, [Schedule(now + delay, Elsewhere(tag))])
    case Entering(id, v) =>
      if id >= |ss| then (ss, [])
      else
        var (st, cs) := if forwarding == Some(id) then ReenterStation(id, ss[id], v)
                        else EnterStation(id, ss[id], v, created);
        (ss[id := st], cs)
  }

  /** The server of the forwarding node is still taken, so a customer that is admitted makes it deschedule
      the event that is being invoked. */
  predicate Faults(ss: seq<Station>, forwarding: Option<nat>, act: Act) {
    && act.Entering? && act.node < |ss| && forwarding == Some(act.node)
    && var n := ss[act.node].node;
       !n.Pooling? && Due(n).Some? && Admits(Midway(n))
  }

  function Creates(cs: seq<Command<Token>>): nat {
    if cs == [] then 0 else (if cs[0].Schedule? then 1 else 0) + Creates(cs[1..])
  }

  datatype Outcome = Outcome(stations: seq<Station>, commands: seq<Command<Token>>, faulted: bool)

  function Acts(ss: seq<Station>, forwarding: Option<nat>, acts: seq<Act>, now: real, created: nat): (o: Outcome)
    ensures |o.stations| == |ss|
    decreases |acts|
  {
    if acts == [] then Outcome(ss, [], false)
    else if Faults(ss, forwarding, acts[0]) then Outcome(ss, [Deschedule(ss[acts[0].node].next)], true)
    else
      var (ss', cs) := ActOn(ss, forwarding, acts[0], now, created);
      var rest := Acts(ss', forwarding, acts[1..], now, created + Creates(cs));
      Outcome(rest.stations, cs + rest.commands, rest.faulted)
  }

  /** Those who enter the given node. */
  function Entrants(acts: seq<Act>, id: nat): (vs: seq<QN.Visit>)
    ensures forall i :: 0 <= i < |vs| ==> vs[i].demand >= 0.0
  {
    if acts == [] then [] else Entrant(acts[0], id) + Entrants(acts[1..], id)
  }

  function Entrant(act: Act, id: nat): (vs: seq<QN.Visit>)
    ensures forall i :: 0 <= i < |vs| ==> vs[i].demand >= 0.0
  {
    if act.Entering? && act.node == id then [act.visit] else []
  }

  // ---- one event ----

  predicate CanPass(ss: seq<Station>, now: real) {
    forall i :: 0 <= i < |ss| ==> Possible(ss[i].node, QN.Passes(now))
  }

  function Passing(st: Station, now: real): Station
    requires Possible(st.node, QN.Passes(now))
  {
    st.(node := Do(st.node, QN.Passes(now)), steps := st.steps + [QN.Passes(now)])
  }

  function AllPassing(ss: seq<Station>, now: real): (r: seq<Station>)
    requires CanPass(ss, now)
    ensures |r| == |ss| && forall i :: 0 <= i < |ss| ==> r[i] == Passing(ss[i], now)
  {
    seq(|ss|, i requires 0 <= i < |ss| => Passing(ss[i], now))
  }

  /** The node whose end-of-service event this is. */
  function Owner(e: Event<Token>, count: nat): (id: Option<nat>)
    ensures id.Some? ==> id.value < count && IsOwn(e, id.value)
    ensures forall j :: 0 <= j < count && id != Some(j) ==> !IsOwn(e, j)
  {
    if !e.payload.Elsewhere? && e.payload.node < count then Some(e.payload.node) else None
  }

  /** The customer leaves a pool before it is forwarded; a single-server node is not touched by what happens
      meanwhile. */
  function Leaving(st: Station): Station
    requires Due(st.node).Some?
  {
    if st.node.Pooling? then st.(node := Pooling(QN.Forwarding(st.node.qn))) else st
  }

  /** After the customer has been forwarded the server is released or goes to the next. */
  function Finish(id: nat, st: Station, back: seq<QN.Visit>, created: nat): (Station, seq<Command<Token>>)
    requires st.node.Pooling? || Possible(st.node, QN.Finishes([]))
  {
    var steps := st.steps + [QN.Finishes(back)];
    match st.node
    case Pooling(q) =>
      (st.(node := Pooling(QN.ReleaseResource(q)), steps := steps), PoolReleaseCommands(id, q))
    case _ =>
      var t := Do(st.node, QN.Finishes([]));
      (Station(st.start, t, Awaited(id, t, st.next, created), steps), Restart(id, t))
  }

  /** The rest of a node's own event, after all that it sets off has happened. */
  function Complete<E>(id: nat, u: System<E>, env: E, o: Outcome, back: seq<QN.Visit>, created: nat)
    : (System<E>, seq<Command<Token>>)
    requires id < |o.stations|
  {
    if o.faulted then (u.(env := env, fedBack := true), o.commands)
    else if !o.stations[id].node.Pooling? && !Possible(o.stations[id].node, QN.Finishes([])) then (u, [])
    else
      var (st, cs) := Finish(id, o.stations[id], back, created + Creates(o.commands));
      (System(o.stations[id := st], env, u.fedBack), o.commands + cs)
  }

  function Dispatch<E>(w: World<E>, u: System<E>, e: Event<Token>, created: nat): (System<E>, seq<Command<Token>>) {
    if !CanPass(u.stations, e.time) then (u, [])
    else
      var re := w.react(u.env, Nodes(u.stations), e);
      var ss := AllPassing(u.stations, e.time);
      match Owner(e, |ss|)
      case None =>
        var o := Acts(ss, None, re.acts, e.time, created);
        (System(o.stations, re.env, u.fedBack), o.commands)
      case Some(id) =>
        if Due(ss[id].node).None? then (u, [])
        else
          var o := Acts(ss[id := Leaving(ss[id])], Some(id), re.acts, e.time, created);
          Complete(id, u, re.env, o, Entrants(re.acts, id), created)
  }

  function Loop<E>(w: World<E>): Program<System<E>, Token> {
    Program((u: System<E>, e: Event<Token>, n: nat) => Dispatch(w, u, e, n),
            (u: System<E>, now: real) => w.stop(u.env, Nodes(u.stations), now))
  }

  // ---- nodes and diary ----

  function EndingOf(e: Event<Token>): QN.Ending {
    QN.Ending(if e.payload.EndService? then e.payload.customer else 0, e.time)
  }

  function Endings(own: Diary): (p: seq<QN.Ending>)
    ensures |p| == |own| && forall i :: 0 <= i < |own| ==> p[i] == EndingOf(own[i])
  {
    seq(|own|, i requires 0 <= i < |own| => EndingOf(own[i]))
  }

  /** A pool has the end-of-service events of the customers it serves; a single-server node has the one it
      waits for if it is busy, and none while it is forwarding a customer or idle. */
  ghost predicate Holds(id: nat, own: Diary, st: Station, midway: bool) {
    match st.node
    case Pooling(q) =>
      Endings(own) == q.pending && forall i :: 0 <= i < |own| ==> own[i].payload.EndService?
    case _ =>
      && own == (if midway || Due(st.node).None? then [] else [st.next])
      && (Due(st.node).Some? ==> st.next.time == Due(st.node).value && st.next.payload == EndOfService(id))
  }

  ghost predicate Views<S>(m: Machine<S, Token>, ss: seq<Station>, forwarding: Option<nat>) {
    && !m.failed && Upcoming(m.diary, m.clock)
    && forall id :: 0 <= id < |ss| ==> Holds(id, Own(m.diary, id), ss[id], forwarding == Some(id))
  }

  /** A node is sound, is at the present time, and has got where it is by a run of its own. */
  ghost predicate Fits(st: Station, now: real) {
    Sound(st.node) && Now(st.node) == now && RunNode(st.start, st.steps) == Some(st.node)
  }

  ghost predicate FitsMidway(st: Station, now: real) {
    match st.node
    case Pooling(q) => QN.Consistent(q, 1) && q.now == now
    case _ => Sound(st.node) && Now(st.node) == now && Possible(st.node, QN.Finishes([]))
  }

  ghost predicate AllFit(ss: seq<Station>, now: real, forwarding: Option<nat>) {
    forall id :: 0 <= id < |ss| ==> if forwarding == Some(id) then FitsMidway(ss[id], now) else Fits(ss[id], now)
  }

  // ---- what happens to the nodes ----

  lemma NoPastConcatenates(now: real, a: seq<Command<Token>>, b: seq<Command<Token>>)
    requires NoPast(now, a) && NoPast(now, b)
    ensures NoPast(now, a + b)
  {
  }

  lemma EnterFits(id: nat, st: Station, v: Demanding, created: nat, now: real)
    requires Fits(st, now)
    ensures Fits(EnterStation(id, st, v, created).0, now)
    ensures EnterStation(id, st, v, created).0.start == st.start
    ensures EnterStation(id, st, v, created).0.node == Do(st.node, QN.Enters(v))
    ensures NoPast(now, EnterStation(id, st, v, created).1)
  {
    EntryPossible(st.node, v);
    SoundDo(st.node, QN.Enters(v));
    SoundDue(Do(st.node, QN.Enters(v)));
    RunExtends(st.start, st.steps, QN.Enters(v));
    hide Sound, RunNode, Possible, Do, Due, Admits;
  }

  lemma ReenterFits(id: nat, st: Station, v: Demanding, now: real)
    requires FitsMidway(st, now)
    ensures FitsMidway(ReenterStation(id, st, v).0, now)
    ensures ReenterStation(id, st, v).0.start == st.start
    ensures NoPast(now, ReenterStation(id, st, v).1)
  {
    if st.node.Pooling? {
      QN.EnterKeeps(st.node.qn, v, 1);
      hide QN.Consistent, QN.Enter;
    }
  }

  lemma ActFits(ss: seq<Station>, forwarding: Option<nat>, act: Act, now: real, created: nat)
    requires AllFit(ss, now, forwarding) && !Faults(ss, forwarding, act)
    ensures var (ss', cs) := ActOn(ss, forwarding, act, now, created);
      AllFit(ss', now, forwarding) && NoPast(now, cs) && forall i :: 0 <= i < |ss| ==> ss'[i].start == ss[i].start
  {
    hide Fits, FitsMidway, EnterStation, ReenterStation, Faults;
    if act.Entering? && act.node < |ss| {
      if forwarding == Some(act.node) { ReenterFits(act.node, ss[act.node], act.visit, now); }
      else { EnterFits(act.node, ss[act.node], act.visit, created, now); }
    }
  }

  /** Whatever an event sets off, the nodes stay sound and nothing is scheduled into the past. */
  lemma {:induction false} ActsFit(ss: seq<Station>, forwarding: Option<nat>, acts: seq<Act>, now: real, created: nat)
    requires AllFit(ss, now, forwarding)
    ensures var o := Acts(ss, forwarding, acts, now, created);
      && AllFit(o.stations, now, forwarding) && NoPast(now, o.commands)
      && forall i :: 0 <= i < |ss| ==> o.stations[i].start == ss[i].start
    decreases |acts|
  {
    hide AllFit, Faults, ActOn;
    if acts != [] && !Faults(ss, forwarding, acts[0]) {
      ActFits(ss, forwarding, acts[0], now, created);
      var (ss', cs) := ActOn(ss, forwarding, acts[0], now, created);
      ActsFit(ss', forwarding, acts[1..], now, created + Creates(cs));
      NoPastConcatenates(now, cs, Acts(ss', forwarding, acts[1..], now, created + Creates(cs)).commands);
    }
  }

  lemma FaultsWhen(ss: seq<Station>, id: nat, act: Act, now: real)
    requires id < |ss| && AllFit(ss, now, Some(id))
    ensures Faults(ss, Some(id), act) <==> !ss[id].node.Pooling? && Entrant(act, id) != []
  {
    hide Sound, Possible;
    if !ss[id].node.Pooling? {
      SoundDue(ss[id].node);
      RoomToComeBack(ss[id].node);
    }
    hide Admits, Midway, Due;
  }

  /** The forwarding node after those have come straight back who did. */
  function Rejoined(st: Station, vs: seq<QN.Visit>): Station {
    if st.node.Pooling? then st.(node := Pooling(QN.EnterAll(st.node.qn, vs))) else st
  }

  lemma RejoinedInTurn(st: Station, act: Act, id: nat, vs: seq<QN.Visit>)
    ensures Rejoined(Rejoined(st, Entrant(act, id)), vs) == Rejoined(st, Entrant(act, id) + vs)
  {
    if st.node.Pooling? && Entrant(act, id) != [] {
      assert ([act.visit] + vs)[1..] == vs;
      assert [act.visit][1..] == [];
      assert QN.EnterAll(st.node.qn, [act.visit]) == QN.EnterAll(QN.Enter(st.node.qn, act.visit), []);
    } else {
      assert [] + vs == vs;
    }
  }

  lemma ActAtForwarding(ss: seq<Station>, id: nat, act: Act, now: real, created: nat)
    requires id < |ss| && !Faults(ss, Some(id), act) && (ss[id].node.Pooling? || Entrant(act, id) == [])
    ensures ActOn(ss, Some(id), act, now, created).0[id] == Rejoined(ss[id], Entrant(act, id))
  {
    if Entrant(act, id) != [] {
      assert [act.visit][1..] == [];
      assert QN.EnterAll(ss[id].node.qn, [act.visit]) == QN.EnterAll(QN.Enter(ss[id].node.qn, act.visit), []);
    }
    hide EnterStation, Faults, QN.Enter;
  }

  /** The forwarding node: a pool takes in whoever comes straight back, a single-server node faults exactly
      if someone does. */
  lemma {:induction false} ActsAtForwarding(ss: seq<Station>, id: nat, acts: seq<Act>, now: real, created: nat)
    requires id < |ss| && AllFit(ss, now, Some(id))
    ensures var o, vs := Acts(ss, Some(id), acts, now, created), Entrants(acts, id);
      && (o.faulted <==> !ss[id].node.Pooling? && vs != [])
      && (!o.faulted ==> o.stations[id] == Rejoined(ss[id], vs))
    decreases |acts|
  {
    hide Faults, AllFit, ActOn, Entrant, Creates, QN.EnterAll;
    if acts == [] {
      RejoinedByNone(ss[id]);
    } else {
      FaultsWhen(ss, id, acts[0], now);
      if !Faults(ss, Some(id), acts[0]) {
        ActFits(ss, Some(id), acts[0], now, created);
        var (ss', cs) := ActOn(ss, Some(id), acts[0], now, created);
        ActAtForwarding(ss, id, acts[0], now, created);
        ActsAtForwarding(ss', id, acts[1..], now, created + Creates(cs));
        RejoinedInTurn(ss[id], acts[0], id, Entrants(acts[1..], id));
      }
    }
  }

  lemma RejoinedByNone(st: Station)
    ensures Rejoined(st, []) == st
  {
  }

  // ---- what happens to the diary ----

  /** One node changes and so does its part of the diary; it may be the one that was forwarding. */
  ghost predicate OnlyAt<S>(m: Machine<S, Token>, y: Machine<S, Token>, id: nat) {
    && y.failed == m.failed && Upcoming(y.diary, y.clock) && SameOtherwise(m, y)
    && forall j :: j != id ==> Own(y.diary, j) == Own(m.diary, j)
  }

  predicate StillForwarding(before: Option<nat>, after: Option<nat>, id: nat) {
    after == before || (before == Some(id) && after == None)
  }

  lemma ViewsUpdated<S>(m: Machine<S, Token>, y: Machine<S, Token>, ss: seq<Station>,
                        before: Option<nat>, after: Option<nat>, id: nat, st: Station)
    requires Views(m, ss, before) && id < |ss| && OnlyAt(m, y, id) && StillForwarding(before, after, id)
    requires Holds(id, Own(y.diary, id), st, after == Some(id))
    ensures Views(y, ss[id := st], after)
  {
    hide Holds, Own, Upcoming;
  }

  lemma PendedBetween(p: seq<QN.Ending>, e: QN.Ending, k: nat)
    requires k <= |p| && (forall i :: 0 <= i < k ==> p[i].time <= e.time) && (k < |p| ==> e.time < p[k].time)
    ensures QN.Pended(p, e) == p[..k] + [e] + p[k..]
  {
    PointOfInsertion((x: QN.Ending, y: QN.Ending) => QN.NoLater(x, y), p, e, k);
  }

  lemma EndingsInserted(own: Diary, k: nat, e: Event<Token>)
    requires k <= |own|
    ensures Endings(own[..k] + [e] + own[k..]) == Endings(own)[..k] + [EndingOf(e)] + Endings(own)[k..]
  {
  }

  /** A pool's end-of-service event takes its place among those of the pool. */
  lemma ServicePends<S>(m: Machine<S, Token>, id: nat, pending: seq<QN.Ending>, time: real, job: nat)
    requires Upcoming(m.diary, m.clock) && m.clock <= time
    requires var own := Own(m.diary, id);
      Endings(own) == pending && forall i :: 0 <= i < |own| ==> own[i].payload.EndService?
    ensures var y := Perform(m, Schedule(time, EndService(id, job)));
      && OnlyAt(m, y, id) && |y.scheduled| == |m.scheduled| + 1
      && Endings(Own(y.diary, id)) == QN.Pended(pending, QN.Ending(job, time))
      && forall i :: 0 <= i < |Own(y.diary, id)| ==> Own(y.diary, id)[i].payload.EndService?
  {
    hide Own, DiaryInsert, Upcoming, QN.Pended;
    var e := Event(|m.scheduled|, time, EndService(id, job));
    ScheduleEffect(m, time, e.payload);
    var k := OwnInsert(m.diary, e, id, m.clock);
    EndingsInserted(Own(m.diary, id), k, e);
    PendedBetween(pending, QN.Ending(job, time), k);
  }

  lemma PoolServes<S>(m: Machine<S, Token>, ss: seq<Station>, before: Option<nat>, after: Option<nat>,
                      id: nat, st: Station, time: real, job: nat)
    requires Views(m, ss, before) && id < |ss| && StillForwarding(before, after, id) && m.clock <= time
    requires ss[id].node.Pooling? && st.node.Pooling?
    requires st.node.qn.pending == QN.Pended(ss[id].node.qn.pending, QN.Ending(job, time))
    ensures var y := PerformAll(m, [Schedule(time, EndService(id, job))]);
      Views(y, ss[id := st], after) && SameOtherwise(m, y) && |y.scheduled| == |m.scheduled| + 1
  {
    hide Own, Upcoming, QN.Pended, Perform;
    assert Holds(id, Own(m.diary, id), ss[id], before == Some(id));
    PerformOne(m, Schedule(time, EndService(id, job)));
    ServicePends(m, id, ss[id].node.qn.pending, time, job);
    ViewsUpdated(m, Perform(m, Schedule(time, EndService(id, job))), ss, before, after, id, st);
  }

  lemma PoolStays<S>(m: Machine<S, Token>, ss: seq<Station>, before: Option<nat>, after: Option<nat>,
                     id: nat, st: Station)
    requires Views(m, ss, before) && id < |ss| && StillForwarding(before, after, id)
    requires ss[id].node.Pooling? && st.node.Pooling? && st.node.qn.pending == ss[id].node.qn.pending
    ensures Views(m, ss[id := st], after)
  {
    hide Own, Upcoming;
    assert Holds(id, Own(m.diary, id), ss[id], before == Some(id));
    ViewsUpdated(m, m, ss, before, after, id, st);
  }

  lemma CreatesOne(c: Command<Token>)
    ensures Creates([c]) == if c.Schedule? then 1 else 0
  {
    assert [c][1..] == [];
  }

  /** What a node hands to the diary has been done, and the views are those of the changed stations. */
  ghost predicate Done<S>(m: Machine<S, Token>, cs: seq<Command<Token>>, ss: seq<Station>, forwarding: Option<nat>) {
    var y := PerformAll(m, cs);
    Views(y, ss, forwarding) && SameOtherwise(m, y) && |y.scheduled| == |m.scheduled| + Creates(cs)
  }

  lemma PoolEnters<S>(m: Machine<S, Token>, ss: seq<Station>, forwarding: Option<nat>, id: nat, st: Station,
                      v: Demanding)
    requires Views(m, ss, forwarding) && id < |ss| && ss[id].node.Pooling? && ss[id].node.qn.now == m.clock
    requires st.node == Pooling(QN.Enter(ss[id].node.qn, v))
    ensures Done(m, PoolEnterCommands(id, ss[id].node.qn, v), ss[id := st], forwarding)
  {
    hide Views, QN.Enter, QN.Pended, Creates, PerformAll;
    var q := ss[id].node.qn;
    PoolEnterPending(q, v);
    if q.free > 0 {
      CreatesOne(ServiceCommand(id, q, q.arrivals, v.demand));
      PoolServes(m, ss, forwarding, forwarding, id, st, q.now + v.demand, q.arrivals);
    } else {
      PoolStays(m, ss, forwarding, forwarding, id, st);
      NothingDone(m, ss[id := st], forwarding);
    }
  }

  lemma PoolEnterPending(q: QN.Node, v: QN.Visit)
    ensures QN.Enter(q, v).pending
         == if q.free > 0 then QN.Pended(q.pending, QN.Ending(q.arrivals, q.now + v.demand)) else q.pending
  {
  }

  lemma PoolReleases<S>(m: Machine<S, Token>, ss: seq<Station>, id: nat, st: Station)
    requires Views(m, ss, Some(id)) && id < |ss| && ss[id].node.Pooling? && ss[id].node.qn.now == m.clock
    requires QN.Demands(ss[id].node.qn.queue) && st.node == Pooling(QN.ReleaseResource(ss[id].node.qn))
    ensures Done(m, PoolReleaseCommands(id, ss[id].node.qn), ss[id := st], None)
  {
    hide Views, QN.Pended, Creates, PerformAll;
    var q := ss[id].node.qn;
    if q.queue != [] {
      CreatesOne(ServiceCommand(id, q, q.queue[0].id, q.queue[0].demand));
      PoolServes(m, ss, Some(id), None, id, st, q.now + q.queue[0].demand, q.queue[0].id);
    } else {
      PoolStays(m, ss, Some(id), None, id, st);
      NothingDone(m, ss[id := st], None);
    }
  }

  /** A single-server node with nothing in the diary schedules the end of service it now waits for. */
  lemma SingleRestarts<S>(m: Machine<S, Token>, ss: seq<Station>, before: Option<nat>, after: Option<nat>,
                          id: nat, st: Station, next: Event<Token>)
    requires Views(m, ss, before) && id < |ss| && StillForwarding(before, after, id) && after != Some(id)
    requires Own(m.diary, id) == [] && !st.node.Pooling?
    requires Due(st.node).Some? ==> m.clock <= Due(st.node).value
    requires st.next == Awaited(id, st.node, next, |m.scheduled|)
    ensures Done(m, Restart(id, st.node), ss[id := st], after)
  {
    hide Upcoming, Own, Perform;
    if Due(st.node).Some? {
      var c := Schedule(Due(st.node).value, EndOfService(id));
      CreatesOne(c);
      PerformOne(m, c);
      FirstScheduled(m, Due(st.node).value, id);
      ViewsUpdated(m, Perform(m, c), ss, before, after, id, st);
    } else {
      ViewsUpdated(m, m, ss, before, after, id, st);
    }
  }

  lemma FirstScheduled<S>(m: Machine<S, Token>, time: real, id: nat)
    requires Upcoming(m.diary, m.clock) && m.clock <= time && Own(m.diary, id) == []
    ensures var y := Perform(m, Schedule(time, EndOfService(id)));
      && OnlyAt(m, y, id) && |y.scheduled| == |m.scheduled| + 1
      && Own(y.diary, id) == [Event(|m.scheduled|, time, EndOfService(id))]
  {
    hide Own, DiaryInsert, Upcoming;
    ScheduleEffect(m, time, EndOfService(id));
    FirstInsert(m.diary, Event(|m.scheduled|, time, EndOfService(id)), id);
  }

  /** accept at a single-server node. The event it deschedules is in the diary. */
  lemma SingleEnters<S>(m: Machine<S, Token>, ss: seq<Station>, forwarding: Option<nat>, id: nat, st: Station)
    requires Views(m, ss, forwarding) && id < |ss| && forwarding != Some(id)
    requires !ss[id].node.Pooling? && !st.node.Pooling?
    requires if Admits(ss[id].node) then Due(st.node).Some? && m.clock <= Due(st.node).value
             else Due(st.node) == Due(ss[id].node)
    requires st.next == if Admits(ss[id].node) then Awaited(id, st.node, ss[id].next, |m.scheduled|) else ss[id].next
    ensures Done(m, AcceptCommands(id, ss[id].node, st.node, ss[id].next), ss[id := st], forwarding)
  {
    hide Upcoming, Own, Perform, Admits;
    assert Holds(id, Own(m.diary, id), ss[id], false);
    var next := ss[id].next;
    if !Admits(ss[id].node) {
      ViewsUpdated(m, m, ss, forwarding, forwarding, id, st);
    } else if Due(ss[id].node).None? {
      assert [] + Restart(id, st.node) == Restart(id, st.node);
      SingleRestarts(m, ss, forwarding, forwarding, id, st, next);
    } else {
      SingleReplaces(m, ss, forwarding, id, st);
    }
  }

  lemma SingleReplaces<S>(m: Machine<S, Token>, ss: seq<Station>, forwarding: Option<nat>, id: nat, st: Station)
    requires Views(m, ss, forwarding) && id < |ss| && forwarding != Some(id)
    requires !ss[id].node.Pooling? && !st.node.Pooling? && Due(ss[id].node).Some?
    requires Due(st.node).Some? && m.clock <= Due(st.node).value
    requires st.next == Awaited(id, st.node, ss[id].next, |m.scheduled|)
    ensures Done(m, [Deschedule(ss[id].next)] + Restart(id, st.node), ss[id := st], forwarding)
  {
    hide Upcoming, Own, Perform;
    assert Holds(id, Own(m.diary, id), ss[id], false);
    var next := ss[id].next;
    var idle := ss[id].(node := Resuming(PR.Initial()));
    PerformOne(m, Deschedule(next));
    DescheduleEffect(m, next, id);
    var x := Perform(m, Deschedule(next));
    ViewsUpdated(m, x, ss, forwarding, forwarding, id, idle);
    SingleRestarts(x, ss[id := idle], forwarding, forwarding, id, st, next);
    assert ss[id := idle][id := st] == ss[id := st];
    PerformConcatenate(m, [Deschedule(next)], Restart(id, st.node));
    CreatesAfter(Deschedule(next), Restart(id, st.node));
  }

  lemma CreatesAfter(c: Command<Token>, cs: seq<Command<Token>>)
    ensures Creates([c] + cs) == (if c.Schedule? then 1 else 0) + Creates(cs)
  {
    assert ([c] + cs)[1..] == cs;
  }

  lemma {:induction false} CreatesConcatenate(a: seq<Command<Token>>, b: seq<Command<Token>>)
    ensures Creates(a + b) == Creates(a) + Creates(b)
  {
    if a == [] {
      assert a + b == b;
    } else {
      assert (a + b)[1..] == a[1..] + b;
      CreatesConcatenate(a[1..], b);
    }
  }

  lemma DoneInTurn<S>(m: Machine<S, Token>, a: seq<Command<Token>>, ss: seq<Station>, f: Option<nat>,
                      b: seq<Command<Token>>, ss': seq<Station>, f': Option<nat>)
    requires Done(m, a, ss, f) && Done(PerformAll(m, a), b, ss', f')
    ensures Done(m, a + b, ss', f')
  {
    hide Views, PerformAll, Creates;
    PerformConcatenate(m, a, b);
    CreatesConcatenate(a, b);
  }

  lemma NothingDone<S>(m: Machine<S, Token>, ss: seq<Station>, f: Option<nat>)
    requires Views(m, ss, f)
    ensures Done(m, [], ss, f)
  {
  }

  lemma ElsewhereScheduled<S>(m: Machine<S, Token>, ss: seq<Station>, f: Option<nat>, time: real, tag: nat)
    requires Views(m, ss, f) && m.clock <= time
    ensures Done(m, [Schedule(time, Elsewhere(tag))], ss, f)
  {
    hide Holds, Own, Upcoming, Perform;
    var c := Schedule(time, Elsewhere(tag));
    PerformOne(m, c);
    CreatesOne(c);
    ScheduleEffect(m, time, Elsewhere(tag));
  }

  lemma EnterPerforms<S>(m: Machine<S, Token>, ss: seq<Station>, f: Option<nat>, id: nat, v: Demanding)
    requires Views(m, ss, f) && id < |ss| && f != Some(id) && Fits(ss[id], m.clock)
    ensures var (st, cs) := EnterStation(id, ss[id], v, |m.scheduled|); Done(m, cs, ss[id := st], f)
  {
    var st := EnterStation(id, ss[id], v, |m.scheduled|).0;
    EnterFits(id, ss[id], v, |m.scheduled|, m.clock);
    SoundDue(st.node);
    if ss[id].node.Pooling? {
      hide Views, Sound, RunNode;
      PoolEnters(m, ss, f, id, st, v);
    } else {
      ArrivalDue(ss[id].node, v);
      hide Views, Sound, RunNode, Admits, Do, Due;
      SingleEnters(m, ss, f, id, st);
    }
  }

  lemma ReenterPerforms<S>(m: Machine<S, Token>, ss: seq<Station>, id: nat, v: Demanding)
    requires Views(m, ss, Some(id)) && id < |ss| && FitsMidway(ss[id], m.clock)
    ensures var (st, cs) := ReenterStation(id, ss[id], v); Done(m, cs, ss[id := st], Some(id))
  {
    hide Views;
    if ss[id].node.Pooling? {
      PoolEnters(m, ss, Some(id), id, ReenterStation(id, ss[id], v).0, v);
    } else {
      assert ss[id := ss[id]] == ss;
      NothingDone(m, ss, Some(id));
    }
  }

  lemma ActPerforms<S>(m: Machine<S, Token>, ss: seq<Station>, f: Option<nat>, act: Act)
    requires Views(m, ss, f) && AllFit(ss, m.clock, f)
    ensures var (ss', cs) := ActOn(ss, f, act, m.clock, |m.scheduled|); Done(m, cs, ss', f)
  {
    hide Views, Done, Fits, FitsMidway, EnterStation, ReenterStation;
    match act
    case Scheduling(delay, tag) =>
      ElsewhereScheduled(m, ss, f, m.clock + delay, tag);
    case Entering(id, v) =>
      if id >= |ss| { NothingDone(m, ss, f); }
      else if f == Some(id) { ReenterPerforms(m, ss, id, v); }
      else { EnterPerforms(m, ss, f, id, v); }
  }

  lemma FaultPerforms<S>(m: Machine<S, Token>, ss: seq<Station>, f: Option<nat>, act: Act)
    requires Views(m, ss, f) && Faults(ss, f, act)
    ensures var y := PerformAll(m, [Deschedule(ss[act.node].next)]); y.failed && SameOtherwise(m, y)
  {
    hide Own, Upcoming, Admits, Midway;
    assert Holds(act.node, Own(m.diary, act.node), ss[act.node], true);
    PerformOne(m, Deschedule(ss[act.node].next));
    DescheduleTaken(m, ss[act.node].next, act.node);
  }

  /** The diary keeps up with the outcome, or the simulation has failed. */
  ghost predicate Performed<S>(m: Machine<S, Token>, o: Outcome, f: Option<nat>) {
    if o.faulted then PerformAll(m, o.commands).failed && SameOtherwise(m, PerformAll(m, o.commands))
    else Done(m, o.commands, o.stations, f)
  }

  lemma ActsThen<S>(m: Machine<S, Token>, cs: seq<Command<Token>>, ss: seq<Station>, f: Option<nat>, o: Outcome)
    requires Done(m, cs, ss, f) && Performed(PerformAll(m, cs), o, f)
    ensures Performed(m, Outcome(o.stations, cs + o.commands, o.faulted), f)
  {
    hide Views, Creates, PerformAll;
    PerformConcatenate(m, cs, o.commands);
    if !o.faulted { DoneInTurn(m, cs, ss, f, o.commands, o.stations, f); }
  }

  lemma FirstActPerforms<S>(m: Machine<S, Token>, ss: seq<Station>, f: Option<nat>, act: Act)
    requires Views(m, ss, f) && AllFit(ss, m.clock, f) && !Faults(ss, f, act)
    ensures var (ss', cs) := ActOn(ss, f, act, m.clock, |m.scheduled|);
      var y := PerformAll(m, cs);
      && Done(m, cs, ss', f) && Views(y, ss', f) && AllFit(ss', y.clock, f)
      && y.clock == m.clock && |y.scheduled| == |m.scheduled| + Creates(cs)
  {
    hide Views, AllFit, Faults, ActOn, Creates, PerformAll;
    ActPerforms(m, ss, f, act);
    ActFits(ss, f, act, m.clock, |m.scheduled|);
  }

  /** The diary keeps up with everything an event sets off, unless a single-server node has to deschedule
      the event being invoked; then the simulation fails. */
  lemma {:induction false} ActsPerform<S>(m: Machine<S, Token>, ss: seq<Station>, f: Option<nat>, acts: seq<Act>)
    requires Views(m, ss, f) && AllFit(ss, m.clock, f)
    ensures Performed(m, Acts(ss, f, acts, m.clock, |m.scheduled|), f)
    decreases |acts|
  {
    hide Views, AllFit, Faults, ActOn, Creates, PerformAll, Done;
    if acts == [] {
      NothingDone(m, ss, f);
    } else if Faults(ss, f, acts[0]) {
      FaultPerforms(m, ss, f, acts[0]);
    } else {
      FirstActPerforms(m, ss, f, acts[0]);
      var (ss', cs) := ActOn(ss, f, acts[0], m.clock, |m.scheduled|);
      var y := PerformAll(m, cs);
      ActsPerform(y, ss', f, acts[1..]);
      hide Performed;
      ActsThen(m, cs, ss', f, Acts(ss', f, acts[1..], y.clock, |y.scheduled|));
    }
  }

  // ---- one turn of the clock loop ----

  lemma PassingFits(st: Station, now: real, later: real)
    requires Fits(st, now) && now <= later && (Due(st.node).Some? ==> later <= Due(st.node).value)
    ensures Possible(st.node, QN.Passes(later))
    ensures Fits(Passing(st, later), later) && Due(Passing(st, later).node) == Due(st.node)
    ensures Passing(st, later).start == st.start && Passing(st, later).next == st.next
    ensures Passing(st, later).node.Pooling? <==> st.node.Pooling?
    ensures st.node.Pooling? ==> Passing(st, later).node.qn == st.node.qn.(now := later)
  {
    SoundDue(st.node);
    SoundDo(st.node, QN.Passes(later));
    RunExtends(st.start, st.steps, QN.Passes(later));
    PassingKeepsDue(st.node, later);
    hide Sound, RunNode, Do, Due, Possible;
  }

  lemma PoolSound(n: Node)
    requires Sound(n) && n.Pooling?
    ensures QN.Consistent(n.qn, 0) && Now(n) == n.qn.now
    ensures Due(n).Some? ==> n.qn.pending != [] && QN.Consistent(QN.Forwarding(n.qn), 1)
  {
    if n.qn.pending != [] { QN.GoneKeeps(n.qn); }
    hide QN.Consistent;
  }

  lemma LeavingFits(st: Station, now: real)
    requires Fits(st, now) && Due(st.node) == Some(now)
    ensures FitsMidway(Leaving(st), now) && Leaving(st).start == st.start
  {
    SoundDue(st.node);
    if st.node.Pooling? { PoolSound(st.node); }
    hide Sound, QN.Consistent, RunNode, Possible, Due;
  }

  /** The first event in the diary comes no later than anything a node waits for; if it is the node's own,
      it is what the node waits for. */
  lemma StationNext(id: nat, diary: Diary, now: real, st: Station)
    requires diary != [] && Upcoming(diary, now) && Holds(id, Own(diary, id), st, false) && Fits(st, now)
    ensures var e := diary[0];
      && (Due(st.node).Some? ==> e.time <= Due(st.node).value)
      && (IsOwn(e, id) ==> Due(st.node) == Some(e.time))
  {
    OwnIsLater(diary, now, id);
    OwnTail(diary, id);
    hide Own, Upcoming, Fits;
  }

  /** What a node holds after the pop of an event that is not its own. */
  lemma HoldsForeign(id: nat, diary: Diary, st: Station, p: Station)
    requires diary != [] && Holds(id, Own(diary, id), st, false) && !IsOwn(diary[0], id)
    requires Due(p.node) == Due(st.node) && p.next == st.next && (p.node.Pooling? <==> st.node.Pooling?)
    requires st.node.Pooling? ==> p.node.qn.pending == st.node.qn.pending
    ensures Holds(id, Own(diary[1..], id), p, false)
  {
    OwnTail(diary, id);
    hide Own, Due;
  }

  /** What it holds after the pop of its own event. */
  lemma HoldsOwn(id: nat, diary: Diary, st: Station, p: Station)
    requires diary != [] && Holds(id, Own(diary, id), st, false) && IsOwn(diary[0], id) && Due(st.node).Some?
    requires Due(p.node) == Due(st.node) && p.next == st.next && (p.node.Pooling? <==> st.node.Pooling?)
    requires st.node.Pooling? ==> p.node.qn.pending == st.node.qn.pending
    ensures Holds(id, Own(diary[1..], id), Leaving(p), true)
  {
    OwnTail(diary, id);
    if st.node.Pooling? {
      PoolHoldsOwn(Own(diary, id), Own(diary[1..], id), st.node.qn.pending);
    }
    hide Own, Endings;
  }

  lemma PoolHoldsOwn(own: Diary, rest: Diary, pending: seq<QN.Ending>)
    requires own != [] && own[1..] == rest && Endings(own) == pending
    ensures Endings(rest) == pending[1..] && forall i :: 0 <= i < |rest| ==> rest[i] == own[i + 1]
  {
  }

  lemma HoldsPassing(id: nat, diary: Diary, now: real, st: Station)
    requires diary != [] && Upcoming(diary, now) && Holds(id, Own(diary, id), st, false) && Fits(st, now)
    ensures Possible(st.node, QN.Passes(diary[0].time)) && Fits(Passing(st, diary[0].time), diary[0].time)
    ensures Passing(st, diary[0].time).start == st.start
    ensures !IsOwn(diary[0], id) ==> Holds(id, Own(diary[1..], id), Passing(st, diary[0].time), false)
    ensures IsOwn(diary[0], id) ==>
      var p := Passing(st, diary[0].time);
      Due(p.node) == Some(diary[0].time) && Holds(id, Own(diary[1..], id), Leaving(p), true)
  {
    hide Own, Upcoming, Fits, Passing, Holds, Possible, Due;
    StationNext(id, diary, now, st);
    UpcomingNext(diary, now);
    PassingFits(st, now, diary[0].time);
    if IsOwn(diary[0], id) {
      HoldsOwn(id, diary, st, Passing(st, diary[0].time));
    } else {
      HoldsForeign(id, diary, st, Passing(st, diary[0].time));
    }
  }

  /** The machine after the pop, before the commands. */
  function Popped<E>(m: Machine<System<E>, Token>, u: System<E>): Machine<System<E>, Token>
    requires m.diary != []
  {
    m.(diary := m.diary[1..], clock := m.diary[0].time, user := u, executed := m.executed + [m.diary[0]])
  }

  ghost predicate Consistent<E>(m: Machine<System<E>, Token>) {
    Views(m, m.user.stations, None) && AllFit(m.user.stations, m.clock, None) && !m.user.fedBack
  }

  /** The stations when the event is invoked: time has passed, and the customer of a pool has left it. */
  function Invoked(ss: seq<Station>, e: Event<Token>): (r: seq<Station>)
    requires CanPass(ss, e.time)
    ensures |r| == |ss|
  {
    var p := AllPassing(ss, e.time);
    match Owner(e, |ss|)
    case None => p
    case Some(id) => if Due(p[id].node).Some? then p[id := Leaving(p[id])] else p
  }

  /** What the coming of event `e` means for one station, when `rest` is left in the diary. */
  ghost predicate Comes(id: nat, st: Station, e: Event<Token>, rest: Diary) {
    Possible(st.node, QN.Passes(e.time)) && ComesTo(id, Passing(st, e.time), st.start, e, rest)
  }

  ghost predicate ComesTo(id: nat, p: Station, start: Node, e: Event<Token>, rest: Diary) {
    && Fits(p, e.time) && p.start == start
    && if IsOwn(e, id)
       then Due(p.node) == Some(e.time) && Holds(id, Own(rest, id), Leaving(p), true)
            && FitsMidway(Leaving(p), e.time) && Leaving(p).start == start
       else Holds(id, Own(rest, id), p, false)
  }

  lemma StationComes(id: nat, diary: Diary, now: real, st: Station)
    requires diary != [] && Upcoming(diary, now) && Holds(id, Own(diary, id), st, false) && Fits(st, now)
    ensures Comes(id, st, diary[0], diary[1..])
  {
    hide Own, Upcoming, Fits, FitsMidway, Passing, Holds, Possible, Due, Leaving;
    HoldsPassing(id, diary, now, st);
    if IsOwn(diary[0], id) { LeavingFits(Passing(st, diary[0].time), diary[0].time); }
  }

  lemma AllCome(ss: seq<Station>, e: Event<Token>, rest: Diary)
    requires forall i :: 0 <= i < |ss| ==> Comes(i, ss[i], e, rest)
    ensures CanPass(ss, e.time) && AllFit(AllPassing(ss, e.time), e.time, None)
    ensures Owner(e, |ss|).Some? ==> Due(AllPassing(ss, e.time)[Owner(e, |ss|).value].node) == Some(e.time)
    ensures AllFit(Invoked(ss, e), e.time, Owner(e, |ss|))
    ensures forall i :: 0 <= i < |ss| ==> Invoked(ss, e)[i].start == ss[i].start
    ensures forall i :: 0 <= i < |ss| ==> Holds(i, Own(rest, i), Invoked(ss, e)[i], Owner(e, |ss|) == Some(i))
  {
    hide Own, Fits, FitsMidway, Passing, Holds, Possible, Due, Leaving;
  }

  lemma EventComes<E>(m: Machine<System<E>, Token>, u: System<E>)
    requires Consistent(m) && m.diary != []
    ensures var e, ss := m.diary[0], m.user.stations;
      && CanPass(ss, e.time) && m.clock <= e.time
      && (Owner(e, |ss|).Some? ==> Due(AllPassing(ss, e.time)[Owner(e, |ss|).value].node) == Some(e.time))
      && Views(Popped(m, u), Invoked(ss, e), Owner(e, |ss|))
      && AllFit(Invoked(ss, e), e.time, Owner(e, |ss|))
      && AllFit(AllPassing(ss, e.time), e.time, None)
      && forall i :: 0 <= i < |ss| ==> Invoked(ss, e)[i].start == ss[i].start
  {
    var e, ss := m.diary[0], m.user.stations;
    UpcomingNext(m.diary, m.clock);
    hide Own, Upcoming, Fits, FitsMidway, Holds, Comes, CanPass, Invoked, AllPassing, Owner, Due;
    forall i | 0 <= i < |ss| ensures Comes(i, ss[i], e, m.diary[1..]) {
      StationComes(i, m.diary, m.clock, ss[i]);
    }
    AllCome(ss, e, m.diary[1..]);
  }

  lemma FinishFits(id: nat, st: Station, vs: seq<QN.Visit>, created: nat, now: real)
    requires Fits(st, now) && Due(st.node) == Some(now) && (st.node.Pooling? || vs == [])
    requires forall i :: 0 <= i < |vs| ==> vs[i].demand >= 0.0
    ensures var t := Rejoined(Leaving(st), vs);
      && (t.node.Pooling? || Possible(t.node, QN.Finishes([])))
      && Fits(Finish(id, t, vs, created).0, now) && NoPast(now, Finish(id, t, vs, created).1)
      && Finish(id, t, vs, created).0.start == st.start
  {
    hide Sound, RunNode, Due, Now;
    FinishPossible(st.node, vs);
    SoundDo(st.node, QN.Finishes(vs));
    SoundDue(Do(st.node, QN.Finishes(vs)));
    RunExtends(st.start, st.steps, QN.Finishes(vs));
    if st.node.Pooling? { FinishedPool(id, st, vs, created, now); } else { FinishedSingle(id, st, created, now); }
  }

  lemma FinishedPool(id: nat, st: Station, vs: seq<QN.Visit>, created: nat, now: real)
    requires st.node.Pooling? && Sound(st.node) && Now(st.node) == now
    requires Due(st.node).Some? && Possible(st.node, QN.Finishes(vs))
    ensures var (u, cs) := Finish(id, Rejoined(Leaving(st), vs), vs, created);
      && u == st.(node := Do(st.node, QN.Finishes(vs)), steps := st.steps + [QN.Finishes(vs)])
      && NoPast(now, cs)
  {
    FinishNoPast(st.node, vs);
    hide Sound, QN.EnterAll, QN.ReleaseResource;
  }

  lemma FinishedSingle(id: nat, st: Station, created: nat, now: real)
    requires !st.node.Pooling? && Due(st.node).Some? && Possible(st.node, QN.Finishes([]))
    requires var t := Do(st.node, QN.Finishes([])); Due(t).Some? ==> now <= Due(t).value
    ensures var (u, cs) := Finish(id, Rejoined(Leaving(st), []), [], created);
      && u.node == Do(st.node, QN.Finishes([])) && u.start == st.start
      && u.steps == st.steps + [QN.Finishes([])] && NoPast(now, cs)
  {
    hide Do, Due, Possible;
  }

  lemma FinishPossible(n: Node, vs: seq<QN.Visit>)
    requires Sound(n) && Due(n) == Some(Now(n)) && (n.Pooling? || vs == [])
    requires forall i :: 0 <= i < |vs| ==> vs[i].demand >= 0.0
    ensures Possible(n, QN.Finishes(vs))
  {
    SoundDue(n);
  }

  lemma FinishNoPast(n: Node, vs: seq<QN.Visit>)
    requires Sound(n) && Possible(n, QN.Finishes(vs))
    ensures n.Pooling? ==> QN.Demands(QN.EnterAll(QN.Forwarding(n.qn), vs).queue)
    ensures n.Pooling? ==> QN.EnterAll(QN.Forwarding(n.qn), vs).now == n.qn.now
  {
    if n.Pooling? {
      QN.GoneKeeps(n.qn);
      QN.EnterAllKeeps(QN.Forwarding(n.qn), vs, 1);
      QN.EnterAllNow(QN.Forwarding(n.qn), vs);
    }
    hide QN.Accounted, QN.EnterAll;
  }

  lemma FinishPerforms<S>(m: Machine<S, Token>, ss: seq<Station>, id: nat, vs: seq<QN.Visit>)
    requires Views(m, ss, Some(id)) && id < |ss| && FitsMidway(ss[id], m.clock)
    ensures var (st, cs) := Finish(id, ss[id], vs, |m.scheduled|); Done(m, cs, ss[id := st], None)
  {
    var st := Finish(id, ss[id], vs, |m.scheduled|).0;
    if ss[id].node.Pooling? {
      hide Views, QN.ReleaseResource, QN.Accounted;
      PoolReleases(m, ss, id, st);
    } else {
      SoundDo(ss[id].node, QN.Finishes([]));
      SoundDue(st.node);
      assert Holds(id, Own(m.diary, id), ss[id], true);
      hide Views, Sound, Do, Due, Own, Possible;
      SingleRestarts(m, ss, Some(id), None, id, st, ss[id].next);
    }
  }

  lemma DispatchElsewhere<E>(w: World<E>, m: Machine<System<E>, Token>)
    requires Consistent(m) && m.diary != [] && Owner(m.diary[0], |m.user.stations|).None?
    ensures var (u, cs) := Dispatch(w, m.user, m.diary[0], |m.scheduled|);
      && Consistent(PerformAll(Popped(m, u), cs)) && SameOtherwise(Popped(m, u), PerformAll(Popped(m, u), cs))
      && NoPast(m.diary[0].time, cs) && SameStarts(m.user.stations, u.stations)
  {
    var e, ss := m.diary[0], m.user.stations;
    var (u, cs) := Dispatch(w, m.user, e, |m.scheduled|);
    EventComes(m, u);
    hide Views, AllFit, CanPass, AllPassing, Acts, Owner;
    var acts := w.react(m.user.env, Nodes(ss), e).acts;
    ActsFit(Invoked(ss, e), None, acts, e.time, |m.scheduled|);
    ActsPerform(Popped(m, u), Invoked(ss, e), None, acts);
    NeverForwarding(Invoked(ss, e), acts, e.time, |m.scheduled|);
  }

  ghost predicate SameStarts(ss: seq<Station>, ss': seq<Station>) {
    |ss'| == |ss| && forall i :: 0 <= i < |ss| ==> ss'[i].start == ss[i].start
  }

  lemma {:induction false} NeverForwarding(ss: seq<Station>, acts: seq<Act>, now: real, created: nat)
    ensures !Acts(ss, None, acts, now, created).faulted
    decreases |acts|
  {
    hide ActOn, Creates;
    if acts != [] {
      var (ss', cs) := ActOn(ss, None, acts[0], now, created);
      NeverForwarding(ss', acts[1..], now, created + Creates(cs));
    }
  }

  /** The event is one of a single-server node, and a customer enters that node before it is done. */
  predicate ComesBack<E>(w: World<E>, m: Machine<System<E>, Token>)
    requires m.diary != []
  {
    var e, ss := m.diary[0], m.user.stations;
    && Owner(e, |ss|).Some? && !ss[Owner(e, |ss|).value].node.Pooling?
    && Entrants(w.react(m.user.env, Nodes(ss), e).acts, Owner(e, |ss|).value) != []
  }

  lemma CompleteFits(id: nat, o: Outcome, p: Station, vs: seq<QN.Visit>, created: nat, now: real)
    requires id < |o.stations| && AllFit(o.stations, now, Some(id)) && NoPast(now, o.commands)
    requires Fits(p, now) && Due(p.node) == Some(now) && (p.node.Pooling? || vs == [])
    requires forall i :: 0 <= i < |vs| ==> vs[i].demand >= 0.0
    requires o.stations[id] == Rejoined(Leaving(p), vs)
    ensures o.stations[id].node.Pooling? || Possible(o.stations[id].node, QN.Finishes([]))
    ensures var (st, cs) := Finish(id, o.stations[id], vs, created);
      && AllFit(o.stations[id := st], now, None) && NoPast(now, o.commands + cs) && st.start == p.start
  {
    hide AllFit, Fits, Finish, Possible, Rejoined, Leaving, Due, NoPast;
    FinishFits(id, p, vs, created, now);
    var (st, cs) := Finish(id, o.stations[id], vs, created);
    AllFitUpdated(o.stations, now, id, st);
    NoPastConcatenates(now, o.commands, cs);
  }

  lemma AllFitUpdated(ss: seq<Station>, now: real, id: nat, st: Station)
    requires id < |ss| && AllFit(ss, now, Some(id)) && Fits(st, now)
    ensures AllFit(ss[id := st], now, None)
  {
    hide Fits, FitsMidway;
  }

  lemma CompleteDone<S>(x: Machine<S, Token>, id: nat, o: Outcome, vs: seq<QN.Visit>)
    requires id < |o.stations| && AllFit(o.stations, x.clock, Some(id)) && Done(x, o.commands, o.stations, Some(id))
    requires o.stations[id].node.Pooling? || Possible(o.stations[id].node, QN.Finishes([]))
    ensures var (st, cs) := Finish(id, o.stations[id], vs, |x.scheduled| + Creates(o.commands));
      Done(x, o.commands + cs, o.stations[id := st], None)
  {
    var y := PerformAll(x, o.commands);
    hide Views, PerformAll, Fits, FitsMidway, Finish, Possible, Creates;
    FinishPerforms(y, o.stations, id, vs);
    var (st, cs) := Finish(id, o.stations[id], vs, |y.scheduled|);
    DoneInTurn(x, o.commands, o.stations, Some(id), cs, o.stations[id := st], None);
  }

  lemma CompletePerforms<E>(x: Machine<System<E>, Token>, id: nat, u: System<E>, env: E, o: Outcome,
                            p: Station, vs: seq<QN.Visit>)
    requires id < |o.stations| && AllFit(o.stations, x.clock, Some(id)) && NoPast(x.clock, o.commands)
    requires Performed(x, o, Some(id)) && Fits(p, x.clock) && Due(p.node) == Some(x.clock)
    requires forall i :: 0 <= i < |vs| ==> vs[i].demand >= 0.0
    requires o.faulted <==> !p.node.Pooling? && vs != []
    requires !o.faulted ==> o.stations[id] == Rejoined(Leaving(p), vs)
    ensures var (u', cs) := Complete(id, u, env, o, vs, |x.scheduled|);
      var y := PerformAll(x, cs);
      && SameOtherwise(x, y) && NoPast(x.clock, cs)
      && if o.faulted then y.failed && u' == u.(env := env, fedBack := true)
         else Views(y, u'.stations, None) && AllFit(u'.stations, x.clock, None) && u'.fedBack == u.fedBack
              && Restarted(id, p, o.stations, u'.stations)
  {
    hide Views, AllFit, PerformAll, Fits, Finish, Possible, Creates, Rejoined, Leaving, Due, NoPast;
    if !o.faulted {
      var created := |x.scheduled| + Creates(o.commands);
      CompleteFits(id, o, p, vs, created, x.clock);
      CompleteDone(x, id, o, vs);
    }
  }

  ghost predicate Restarted(id: nat, p: Station, ss: seq<Station>, ss': seq<Station>) {
    |ss'| == |ss| && forall i :: 0 <= i < |ss| ==> ss'[i].start == if i == id then p.start else ss[i].start
  }

  /** The event is node `id`'s. */
  lemma DispatchOwn<E>(w: World<E>, m: Machine<System<E>, Token>, id: nat)
    requires Consistent(m) && m.diary != [] && Owner(m.diary[0], |m.user.stations|) == Some(id)
    ensures var (u, cs) := Dispatch(w, m.user, m.diary[0], |m.scheduled|);
      var y := PerformAll(Popped(m, u), cs);
      && (if ComesBack(w, m) then y.failed && u.fedBack else Consistent(y) && SameStarts(m.user.stations, u.stations))
      && SameOtherwise(Popped(m, u), y) && NoPast(m.diary[0].time, cs)
  {
    var e, ss := m.diary[0], m.user.stations;
    var (u, cs) := Dispatch(w, m.user, e, |m.scheduled|);
    var re := w.react(m.user.env, Nodes(ss), e);
    EventComes(m, u);
    var p, ss' := AllPassing(ss, e.time)[id], Invoked(ss, e);
    PassingPools(ss, e.time, id);
    hide Views, AllFit, CanPass, Acts, Owner, Complete, Leaving, Due, Passing, Performed;
    var o := Acts(ss', Some(id), re.acts, e.time, |m.scheduled|);
    ActsFit(ss', Some(id), re.acts, e.time, |m.scheduled|);
    ActsAtForwarding(ss', id, re.acts, e.time, |m.scheduled|);
    ActsPerform(Popped(m, u), ss', Some(id), re.acts);
    CompletePerforms(Popped(m, u), id, m.user, re.env, o, p, Entrants(re.acts, id));
  }

  lemma PassingPools(ss: seq<Station>, now: real, id: nat)
    requires CanPass(ss, now) && id < |ss| && Due(AllPassing(ss, now)[id].node).Some?
    ensures var p := AllPassing(ss, now)[id];
      && (p.node.Pooling? <==> ss[id].node.Pooling?) && (Leaving(p).node.Pooling? <==> ss[id].node.Pooling?)
  {
    hide Due;
  }
}
