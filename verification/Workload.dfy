/** What a single-server node is given, whatever its discipline: the passing of time, arrivals, and the
    end-of-service events the diary hands back. The unfinished work a log of arrivals leaves behind is
    defined here without any node. */
module Workload {

  datatype Option<+T> = None | Some(value: T)

  /** What happens at a node: time passes, a customer with a service demand arrives, or the pending
      end-of-service event is invoked. */
  datatype Step = Advance(to: real) | Arrive(demand: real) | Complete

  datatype Departure = Departure(id: nat, time: real)

  datatype Arrival = Arrival(time: real, demand: real)

  /** The arrivals in a run that starts at `now`. */
  function Arrivals(now: real, steps: seq<Step>): seq<Arrival>
    decreases |steps|
  {
    if steps == [] then []
    else
      match steps[0]
      case Advance(t) => Arrivals(t, steps[1..])
      case Arrive(d) => [Arrival(now, d)] + Arrivals(now, steps[1..])
      case Complete => Arrivals(now, steps[1..])
  }

  /** A server that is never idle while there is work does one unit of it in one unit of time. */
  function Drain(work: real, dt: real): real {
    if work > dt then work - dt else 0.0
  }

  /** The recursion U := max(0, U - dt) + demand over the log, brought forward to time `t`. */
  function Unfinished(log: seq<Arrival>, t: real): real {
    if log == [] then 0.0
    else
      var last := log[|log| - 1];
      Drain(Unfinished(log[..|log| - 1], last.time) + last.demand, t - last.time)
  }

  function LastArrival(log: seq<Arrival>): real {
    if log == [] then 0.0 else log[|log| - 1].time
  }

  /** Looking again later only drains what was seen before. */
  lemma UnfinishedDrains(log: seq<Arrival>, t: real, t': real)
    requires LastArrival(log) <= t <= t'
    ensures Unfinished(log, t') == Drain(Unfinished(log, t), t' - t)
  {
  }

  lemma UnfinishedArrival(log: seq<Arrival>, a: Arrival)
    requires a.demand >= 0.0
    ensures Unfinished(log + [a], a.time) == Unfinished(log, a.time) + a.demand
  {
    assert (log + [a])[..|log|] == log;
  }

  /** The state of the unfinished work while a node is driven by a step. */
  function Logged(log: seq<Arrival>, now: real, step: Step): seq<Arrival> {
    if step.Arrive? then log + [Arrival(now, step.demand)] else log
  }

  function TimeAfter(now: real, step: Step): real {
    if step.Advance? then step.to else now
  }

  lemma LoggedArrivals(log: seq<Arrival>, now: real, steps: seq<Step>)
    requires steps != []
    ensures Logged(log, now, steps[0]) + Arrivals(TimeAfter(now, steps[0]), steps[1..]) == log + Arrivals(now, steps)
  {
  }

  /** How the reference moves in one step: a node whose work moves the same way agrees with it. */
  ghost predicate WorkMoves(work: real, now: real, step: Step, work': real) {
    match step
    case Advance(t) => work' == Drain(work, t - now)
    case Arrive(d) => work' == work + d
    case Complete => work' == work
  }

  ghost predicate WorkAgrees(work: real, log: seq<Arrival>, now: real) {
    LastArrival(log) <= now && work == Unfinished(log, now)
  }

  lemma WorkStillAgrees(work: real, log: seq<Arrival>, now: real, step: Step, work': real)
    requires WorkAgrees(work, log, now) && WorkMoves(work, now, step, work')
    requires step.Advance? ==> now <= step.to
    requires step.Arrive? ==> step.demand >= 0.0
    ensures WorkAgrees(work', Logged(log, now, step), TimeAfter(now, step))
  {
    match step
    case Advance(t) => UnfinishedDrains(log, now, t);
    case Arrive(d) => UnfinishedArrival(log, Arrival(now, d));
    case Complete =>
  }
}
