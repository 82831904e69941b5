/** The queue and the resource a service node is made of. */
module NodeParts {
  import opened Resources
  import opened Queues

  ghost predicate ServerReady(resources: Resource, now: real)
    reads resources, resources.resourceCount
  {
    resources.Valid() && resources.Clock() <= now
  }

  /** A queue and a resource that share no state, neither of them measured beyond the present. */
  ghost predicate Ready(queue: Queue, resources: Resource, now: real)
    reads queue, queue.Repr, queue.q, queue.q.contents
    reads queue.measures, queue.measures.popMeasure, queue.measures.queueingTime
    reads resources, resources.resourceCount
  {
    && QueueReady(queue, now) && ServerReady(resources, now)
    && resources !in queue.Repr && resources.resourceCount !in queue.Repr
  }

  /** A server is claimed. */
  method ClaimServer(queue: Queue, resources: Resource, now: real)
    requires Ready(queue, resources, now) && resources.ResourceIsAvailable()
    modifies resources, resources.resourceCount
    ensures Ready(queue, resources, now) && resources.resources == old(resources.resources) - 1
    ensures queue.q.contents == old(queue.q.contents) && queue.Repr == old(queue.Repr) && queue.pop == old(queue.pop)
  {
    OwnsItsParts(queue, now);
    hide QueueReady;
    resources.Claim(now);
  }

  /** A server is released. */
  method ReleaseServer(queue: Queue, resources: Resource, now: real)
    requires Ready(queue, resources, now) && resources.resources < resources.nresources
    modifies resources, resources.resourceCount
    ensures Ready(queue, resources, now) && resources.resources == old(resources.resources) + 1
    ensures queue.q.contents == old(queue.q.contents) && queue.Repr == old(queue.Repr) && queue.pop == old(queue.pop)
  {
    OwnsItsParts(queue, now);
    hide QueueReady;
    resources.Release(now);
  }
}
