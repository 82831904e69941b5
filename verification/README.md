# Verification of the simulator, the predictors and the thread queue

This project models three parts of the repository and proves what they are for.

**The discrete-event queueing simulator (src/cinqs).** The pointer list under every queue and under the
event diary; the diary and the clock loop; queues with on-line measures; and three service nodes that share
arrivals and clock but work very differently: the queueing node (a pool of servers with one pending event
each), the preemptive-resume node (which deschedules and re-queues what is left) and the processor-sharing
node (which replaces serving everybody by a virtual clock).

**Autoregression and regression numerics (src/vex/debugging, src/cinqs/tools).** Gaussian elimination in
place, Burg's lattice recursion, least-squares lines, variances and time-weighted moments.

**The runnable-thread queue (src/vex/ds).** A binary heap over threads with mutable time stamps and the
recursive pass that invalidates expired I/O predictions.

`double` is `real` throughout; demands and delays are not negative.

## How the model is organised

| file | content |
|---|---|
| Reals.dfy | real arithmetic shared by the rest |
| PointerList.dfy | nodes, list, iterator, ordered insertion |
| Simulation.dfy | events, diary, clock loop: as a function on values and as a class |
| Measures.dfy | step functions and their integrals, sample moments, three variances |
| Resource.dfy | servers and utilisation |
| Queues.dfy, PriorityQueues.dfy | queues with measures; the array of FIFO queues |
| Workload.dfy | what a single-server node is given, and the unfinished work of an arrival log |
| ProcessorSharing.dfy | virtual-time node, naive sharing, refinement |
| PreemptiveResume.dfy | preempt and resume, service received, nesting of sojourns |
| Queueing.dfy, ServiceOrder.dfy | the pool: conservation, no idling, losses; who is served before whom |
| WorkConservation.dfy, FirstInFirstOut.dfy | the same unfinished work in all three nodes; Lindley's recursion |
| ServiceNodes.dfy, NodeDiary.dfy | the three nodes as one type and what they tell the diary; a node's part of the diary |
| Network.dfy, NetworkRuns.dfy, NetworkHistories.dfy | any number of nodes of the three kinds and any rest of the world under one clock loop; what its events send to the nodes |
| NodeParts.dfy, ProcessorSharingNode.dfy, PreemptiveResumeNode.dfy, QueueingNode.dfy | the nodes as classes that update their fields |
| SharingInPlace.dfy | the processor-sharing class and the clock loop's class together, whole runs in place |
| LinearSystems.dfy, AutoRegression.dfy, YuleWalker.dfy, Burg.dfy | the two autoregressive predictors |
| LinearRegression.dfy | the fitted line |
| ThreadQueue.dfy | the heap and the expired-prediction pass |

A node is described twice. A datatype and functions say what each operation does to its state; the theorems
about all runs are about these. A class with the source's fields does the same in place; its methods take the
state the object stands for as a ghost argument and promise that afterwards the object stands for what the
function gives. What a class schedules and deschedules it returns as commands, in order, to the clock loop,
which performs them (`Simulation.Sim.PerformCommands`); the contracts state these commands with the functions of
`ServiceNodes` that the network model uses too. In `Networks` any number of nodes share one diary. An event may
bring any customers into any nodes, while the node it belongs to is still forwarding one, and schedule anything
elsewhere; every node schedules and deschedules its own events. `SharingInPlace` makes a processor-sharing object
and a `Sim` object, runs them together and proves that their run is the network model's. The loop stops by throwing
the next event away, so the results about networks are about that state too.

## What the proofs show about the code

- `List::remove` of an object that is not in the list reads through a null pointer before it can print its
  error message (src/cinqs/tools/List.cpp:68-92). A simulation runs into this exactly when a customer comes
  straight back to a processor-sharing or preemptive-resume node while that node is forwarding it: the node
  then deschedules the event that the loop has just taken out (`FailsExactlyIfSomeoneComesBack`).
  `StraightBackFails` is a simulation that does: one arrival, and whoever is served goes back to the same node.
- A customer that comes straight back to a queueing node is harmless, but it finds its own server still
  taken: it is lost exactly if every server is taken and the queue is full, although its server is released at
  once.
  `LostBeforeItsServerIsReleased` is a run in which that happens and the node is idle afterwards.
- `SystemMeasure::mean` integrates up to the last change and divides by the time up to now. It is the true
  time average exactly when nothing has elapsed since the last change or the current value is zero. With one
  customer that comes at time 0 and stays, the mean at time 2 is 0 and the time average 1 (`MeanOfOneWhoStays`).
- The Yule-Walker predictor has degree length - 2 but forms its normal equations from two residuals. From five
  samples on the matrix is singular whatever the data; from six on `SolveLE` returns false and the
  prediction is zero. With exact arithmetic it can only work for three or four samples.
- `SolveLE` does not test its last pivot. It returns false exactly when the columns before the last are linearly
  dependent; on every other singular system it divides by zero and returns true. For a centred series x this
  means: three samples are solved exactly if x[0] or x[1] is not zero, and otherwise give 0/0, as three equal
  samples do (`ThreeEqualSamples`); four are solved exactly if x[1]^2 and x[0] x[2] differ, and otherwise
  rejected if x[1] = x[2] = 0 and not a number if not; five are rejected exactly if x[2]^2 = x[1] x[3], and
  otherwise not a number (`OutcomeIs`).
- Burg's recursion divides by the summed error energy. The coefficients are not numbers exactly when some
  earlier filter leaves no error in either direction; at the first stage that is the zero series, so every
  constant input fails (`FailsWhenPerfect`, `FirstStageFails`, `ConstantSeriesFails`).
- A fitted line needs two points; with fewer the denominator is zero.

## Model

| member | source | states |
|---|---|---|
| PointerList.InsertedIsStable | src/cinqs/tools/OrderedList.cpp:4-11 | insertion into a sorted sequence keeps it sorted, behind ties, others in place |
| PointerList.InsertedKeepsElements | src/cinqs/tools/OrderedList.cpp:14-21 | nothing but the new object is added |
| PointerList.FirstOccurrence | src/cinqs/tools/List.cpp:70-72 | the position found is the first one holding the object, or the end |
| PointerList.List.InsertAtFront | src/cinqs/tools/List.cpp:45-50 | the list stands for the object followed by the old sequence; acyclic, last pointer right |
| PointerList.List.InsertAtBack | src/cinqs/tools/List.cpp:61-66 | the same at the back |
| PointerList.List.RemoveFromFront | src/cinqs/tools/List.cpp:94-112 | returns the first object and leaves the rest |
| PointerList.List.RemoveFromBack | src/cinqs/tools/List.cpp:114-143 | returns the last object and leaves the rest, last pointer moved |
| PointerList.List.Remove | src/cinqs/tools/List.cpp:68-79 | unlinks exactly the first occurrence; null dereference exactly when the object is absent |
| PointerList.List.InsertInOrder | src/cinqs/tools/OrderedList.cpp:4-11 | the pointer operation is the stable ordered insertion on sequences |
| PointerList.ListIterator.Add | src/cinqs/tools/List.h:119-133 | insertion at the iterator in all cases of the two trailing pointers |
| PointerList.ListIterator.Remove | src/cinqs/tools/List.h:135-151 | removal at the iterator, first and last pointers kept right |
| Simulation.EachEventHasOneFate | src/cinqs/tools/Sim.cpp:42-52 | over every run of every program each scheduled event is executed, descheduled, dropped or pending, once |
| Simulation.RunInOrder | src/cinqs/tools/Sim.cpp:42-52 | events run in time order with ties in scheduling order and the clock never goes back, as long as no event that runs schedules into the past |
| Simulation.DroppedOnlyAtStop | src/cinqs/tools/Sim.cpp:47-50 | at most one event is dropped, as the last act, when stop holds at its time |
| Simulation.OneTurnMore | src/cinqs/tools/Sim.cpp:42-52 | after any run: the loop ends when the diary is empty or stop holds; otherwise the next event is taken out at its time, thrown away if stop holds then, else invoked |
| Simulation.Sim.Schedule | src/cinqs/tools/Sim.cpp:25-27 | the event enters the diary behind everything due no later |
| Simulation.Sim.Deschedule | src/cinqs/tools/Sim.cpp:29-31 | removes that event, or fails if it is absent |
| Simulation.Sim.NextEvent | src/cinqs/tools/Sim.cpp:44-45 | takes the first event out and moves the clock to it |
| Simulation.Sim.TakeTurn | src/cinqs/tools/Sim.cpp:43-51 | one turn of the loop in place is one turn of the specification |
| Simulation.Sim.Go | src/cinqs/tools/Sim.cpp:42-52 | the turns of the loop in place, any number of them, are the run of the specification |
| Measures.AreaIsIntegral | src/cinqs/tools/SystemMeasure.cpp:12-19 | the recorded moments equal every Riemann sum over a partition that no change cuts |
| Measures.CauchySchwarz | src/cinqs/tools/SystemMeasure.cpp:29-32 | squared first moment is at most elapsed time times second moment |
| Measures.SystemMeasure.Add | src/cinqs/tools/SystemMeasure.cpp:12-19 | the moments stay the exact integrals of the step function |
| Measures.SystemMeasure.Variance | src/cinqs/tools/SystemMeasure.cpp:29-32 | the stated combination of moments, never negative, at any later time |
| Measures.MeanIsTimeAverageIff | src/cinqs/tools/SystemMeasure.cpp:25-27 | when, and only when, mean is the time average |
| Measures.MeanOfOneWhoStays | src/cinqs/tools/SystemMeasure.cpp:25-27 | a path on which mean is not the time average |
| Measures.AreaBounded | src/cinqs/tools/Resource.cpp:20-30 | a step function within bounds has an integral within bounds |
| Measures.CustomerMeasure.Variance | src/cinqs/tools/CustomerMeasure.cpp:15-18 | the moment formula is the two-pass sample variance |
| Measures.DeviationUpdate | src/vex/debugging/QStats.h:28-35 | one update of varianceTerm is the exact change of the sum of squared deviations |
| Measures.QStats.AddSample | src/vex/debugging/QStats.h:28-35 | sum and varianceTerm stay those of the samples seen |
| Measures.LoggerSampleVariance | src/cinqs/tools/Logger.cpp:53-60 | the two-pass loop computes the sample variance |
| Measures.ThreeVariances | src/vex/debugging/QStats.h:45-51 | one-pass, moment and two-pass variances are equal and not negative |
| Measures.VarianceByPairs | src/cinqs/tools/CustomerMeasure.cpp:15-18 | n (n - 1) times the variance is half the sum of squared differences over all pairs of samples |
| Resources.Resource.Claim | src/cinqs/tools/Resource.cpp:20-24 | one server fewer is free and the change is recorded |
| Resources.Resource.Utilisation | src/cinqs/tools/Resource.cpp:40-42 | utilisation lies between 0 and 1 after any claims and releases |
| Queues.LittlesLaw | src/cinqs/network/Queue.cpp:50-84 | area under the population curve = recorded queueing times + time waited so far, at any time |
| Queues.LittlesLawOfRuns | src/cinqs/network/Queue.cpp:50-84 | the same after any run of enqueue, enqueueAtHead and dequeue, inserting anywhere |
| Queues.BalancedAfterArrival | src/cinqs/network/Queue.cpp:50-69 | the identity survives an insertion anywhere in the queue |
| Queues.BalancedAfterDeparture | src/cinqs/network/Queue.cpp:77-84 | the identity survives a departure |
| Queues.QueueMeasures.LittlesLawHolds | src/cinqs/network/Queue.cpp:50-84 | Little's law on the path actually recorded |
| Queues.Queue.Enqueue | src/cinqs/network/Queue.cpp:50-56 | FIFO at the back, LIFO in front, ordered behind equal ranks and before the first greater one; measures, insertion time |
| Queues.Queue.EnqueueAtHead | src/cinqs/network/Queue.cpp:63-69 | ahead of everyone whatever the discipline |
| Queues.Queue.Dequeue | src/cinqs/network/Queue.cpp:77-84 | takes the head and records its waiting time |
| PriorityQueues.EnqueueIsStableInsertion | src/cinqs/network/PriorityQueue.cpp:46-49 | appending to one of the queues is stable insertion by priority into the concatenated line |
| PriorityQueues.EnqueueAtHeadIsInsertion | src/cinqs/network/PriorityQueue.cpp:51-54 | likewise at the head of its priority |
| PriorityQueues.FirstLineIsHead | src/cinqs/network/PriorityQueue.cpp:56-74 | the first non-empty queue holds the head of the line |
| PriorityQueues.FlattenSorted | src/cinqs/network/PriorityQueue.cpp:46-54 | the line is sorted by priority |
| PriorityQueues.PriorityQueue.Enqueue | src/cinqs/network/PriorityQueue.cpp:46-49 | the customer joins the queue of its priority, with that queue's own population and measures; the single line gains it by stable insertion |
| PriorityQueues.PriorityQueue.EnqueueAtHead | src/cinqs/network/PriorityQueue.cpp:51-54 | likewise ahead of its priority |
| PriorityQueues.PriorityQueue.Head | src/cinqs/network/PriorityQueue.cpp:56-64 | the first queue with a population has the head of the line, and nobody in it has a higher priority; the failing check is unreachable |
| PriorityQueues.PriorityQueue.Dequeue | src/cinqs/network/PriorityQueue.cpp:66-74 | removes the head of the line, who has the highest priority in it, from its queue; inner and outer populations and measures in step |
| PriorityQueues.PriorityQueue.PopulationIsSum | src/cinqs/network/PriorityQueue.cpp:46-74 | the population is the sum of the inner populations, so a queue that is not empty has an inner one that is not |
| PriorityQueues.PriorityQueue.AcceptsUntilFull | src/cinqs/network/PriorityQueue.cpp:39-41 | the base class has room exactly while fewer than INT_MAX wait in all; then the queue of the customer's priority has room too, but not conversely |
| ProcessorSharing.TimeToCompletion | src/cinqs/network/ProcessorSharingNode.cpp:28-34 | at any time the pending event is the demand left of the head, times the population, away |
| ProcessorSharing.StepsMatch | src/cinqs/network/ProcessorSharingNode.cpp:17-66 | virtual-time node and naive sharing allow the same steps |
| ProcessorSharing.DoRefines | src/cinqs/network/ProcessorSharingNode.cpp:17-66 | each step keeps finish time - virtual clock = demand left, and the same customer departs |
| ProcessorSharing.RunRefines | src/cinqs/network/ProcessorSharingNode.cpp:17-73 | over every run the same steps are possible, the same customers depart in the same order at the same times |
| ProcessorSharing.EveryArrivalIsCounted | src/cinqs/network/ProcessorSharingNode.cpp:55-73 | over every run: arrivals = inside + departed + lost, and the next is lost exactly when as many are inside as the queue holds |
| PreemptiveResume.ServedExactly | src/cinqs/network/PreemptiveResumeNode.cpp:11-33 | whoever has left had exactly its sampled demand over all its service intervals |
| PreemptiveResume.OwedExactly | src/cinqs/network/PreemptiveResumeNode.cpp:11-33 | whoever is inside is owed exactly the rest; only one customer is in service |
| PreemptiveResume.NestedOrDisjoint | src/cinqs/network/LIFOQueue.cpp:10-24 | a record that reads as a stack has nested or disjoint sojourns |
| PreemptiveResume.SojournsNestedOrDisjoint | src/cinqs/network/PreemptiveResumeNode.cpp:18-33 | over every run the later of two customers comes after the other left or leaves before it |
| PreemptiveResume.RunInTime | src/cinqs/network/PreemptiveResumeNode.cpp:18-33 | the record of a run is in the order of time |
| Queueing.EveryVisitIsCounted | src/cinqs/network/ResourcePool.cpp:33-62 | arrivals = losses + queued + in service + departed as visits, claimed = in service, nobody waits at a free server |
| Queueing.RunKeeps | src/cinqs/network/QueueingNode.cpp:7-10 | every run keeps this, immediate feedback included |
| Queueing.EnterKeeps | src/cinqs/network/ResourcePool.cpp:33-48 | also while a server is held by a customer being forwarded |
| Queueing.LossOnlyAtFullCapacity | src/cinqs/network/ResourcePool.cpp:42-46 | lost exactly when all servers are taken and the queue is full |
| Queueing.ReturningCustomerLost | src/cinqs/network/QueueingNode.cpp:7-10 | when a customer that comes straight back is lost |
| Queueing.LostBeforeItsServerIsReleased | src/cinqs/network/QueueingNode.cpp:7-10 | a run in which it is lost and its server then released to nobody |
| ServiceOrder.DisciplineKept | src/cinqs/network/ResourcePool.cpp:54-62 | over every run, with any number of servers: nobody who waits starts service before somebody ahead, that is who came earlier (FIFO), later (LIFO), or with smaller rank and earlier among equals (ordered) |
| ServiceOrder.JoinsInOrder | src/cinqs/network/LIFOQueue.cpp:10-12 | whoever joins takes the place in the queue that this order gives it |
| WorkConservation.SharingConservesWork | src/cinqs/network/ProcessorSharingNode.cpp:17-66 | total demand left = recursion max(0, U - dt) + demand over the arrivals, for every run without losses |
| WorkConservation.ResumeConservesWork | src/cinqs/network/PreemptiveResumeNode.cpp:11-33 | the same for preemptive resume |
| WorkConservation.QueueingConservesWork | src/cinqs/network/ResourcePool.cpp:33-62 | the same for one server with FIFO, LIFO or ordered queue, for every run without losses; customers that come straight back count as arrivals |
| WorkConservation.SameWork | src/cinqs/network/PreemptiveResumeNode.cpp:18-33 | given the same arrivals, and nobody lost, the three nodes hold the same unfinished work, with immediate feedback at the queueing node or without |
| WorkConservation.BusyTogether | src/cinqs/network/ProcessorSharingNode.cpp:17-26 | their busy periods coincide |
| FirstInFirstOut.Lindley | src/cinqs/network/ResourcePool.cpp:54-62 | Lindley's recursion for the promised departure times |
| FirstInFirstOut.LeavesAfterUnfinishedWork | src/cinqs/network/ResourcePool.cpp:33-62 | FIFO without losses: departures in order of arrival, the k-th at its arrival time plus the work just after it, those who come straight back included |
| NodeDiary.OwnInsert | src/cinqs/tools/Diary.cpp:3-10 | a node's event enters the node's part of the diary in time order behind ties |
| NodeDiary.ScheduleEffect | src/cinqs/tools/Sim.cpp:25-27 | what is scheduled leaves everyone else's part of the diary as it is, and nothing in the past |
| NodeDiary.DescheduleEffect | src/cinqs/network/ProcessorSharingNode.cpp:62-62 | descheduling a node's one pending event succeeds and touches nobody else's |
| NodeDiary.DescheduleTaken | src/cinqs/tools/List.cpp:81-92 | descheduling an event already taken out fails |
| ServiceNodes.SoundDue | src/cinqs/network/ProcessorSharingNode.cpp:28-34 | a sound node's next event is never in the past, and it completes exactly when that is due |
| ServiceNodes.RoomToComeBack | src/cinqs/network/ProcessorSharingNode.cpp:19-20 | a customer that comes straight back is always admitted |
| Networks.ServicePends | src/cinqs/network/InfiniteServerNode.cpp:23-31 | an end-of-service event takes its place among the pool's pending events |
| Networks.ActsAtForwarding | src/cinqs/network/ProcessorSharingNode.cpp:17-21 | whatever an event sets off, the forwarding node is left with exactly those who come straight back, and a single-server node fails exactly if there are any |
| Networks.ActsPerform | src/cinqs/tools/Sim.cpp:25-31 | the diary keeps up with every node after any entries and schedules in any order, unless a node deschedules the event being invoked |
| Networks.DispatchElsewhere | src/cinqs/tools/Sim.cpp:43-51 | an event of the rest of the world keeps every node and its part of the diary consistent |
| Networks.DispatchOwn | src/cinqs/network/PreemptiveResumeNode.cpp:18-33 | so does a node's own event, or it fails: exactly when it brings a customer back to the single-server node it belongs to |
| NetworkRuns.TurnKeeps | src/cinqs/tools/Sim.cpp:43-51 | one turn keeps all nodes consistent, schedules nothing into the past, and fails exactly then |
| NetworkRuns.ConsistentThroughout | src/cinqs/network/ProcessorSharingNode.cpp:28-66 | in every state of every simulation that has not failed, with any number of nodes of the three kinds: each node has run as its own model; its events are those it waits for, apart from the one the loop drops when it stops; none is in the past |
| NetworkRuns.RunsInOrder | src/cinqs/tools/Sim.cpp:42-52 | every such simulation executes its events in order |
| NetworkRuns.FailsExactlyIfSomeoneComesBack | src/cinqs/network/PreemptiveResumeNode.cpp:23-23 | a run fails exactly if in one of its turns a customer comes straight back to a single-server node |
| NetworkRuns.StraightBackFails | src/cinqs/network/ProcessorSharingNode.cpp:62-62 | a simulation that fails in its second turn, for either kind of single-server node |
| NetworkRuns.SimulatedSharing | src/cinqs/network/ProcessorSharingNode.cpp:17-66 | anywhere in a network, running or stopped, the node equals naive sharing of what it was given, and holds the reference work if it lost nobody |
| NetworkRuns.SimulatedResuming | src/cinqs/network/PreemptiveResumeNode.cpp:11-33 | anywhere in a network, running or stopped, the node has run as its model does and holds the reference work |
| NetworkRuns.SimulatedPool | src/cinqs/network/ResourcePool.cpp:33-62 | anywhere in a network, running or stopped, immediate feedback included: one event per taken server, with its customer, but for the dropped one; no idling, every visit accounted for; with one server and no losses, the reference work |
| NetworkHistories.ActsSteps | src/cinqs/network/Network.cpp:65-67 | whatever an event sets off, every node but the forwarding one takes exactly the customers sent to it, in order |
| NetworkHistories.TurnGives | src/cinqs/network/QueueingNode.cpp:7-10 | one turn lets time pass at every node, then gives it the customers sent to it; the event's own node completes, and those sent to it come straight back; elsewhere exactly what the event asks for is scheduled, at its delay from now |
| NetworkHistories.NodesGetWhatTheyAreSent | src/cinqs/network/Network.cpp:65-67 | over every run that has not failed: each node has run through exactly what the events sent it, so no customer is lost between nodes |
| NetworkHistories.EntrantsInPlace | src/cinqs/network/Network.cpp:65-67 | each entry that an event sets off goes to its node and to no other, in its turn |
| NetworkHistories.CallsInPlace | src/cinqs/tools/Sim.cpp:25-27 | each schedule that an event sets off is due after its delay, in its turn |
| ProcessorSharingNodes.ProcessorSharingNode.Enter | src/cinqs/network/ProcessorSharingNode.cpp:55-73 | the object stands for the model's node after accept; its commands and its next event are those of the network model |
| ProcessorSharingNodes.ProcessorSharingNode.EnterWhileForwarding | src/cinqs/network/ProcessorSharingNode.cpp:55-72 | while a customer is being forwarded: without room the entrant is lost, with room accept deschedules the event being invoked |
| ProcessorSharingNodes.ProcessorSharingNode.Invoke | src/cinqs/network/ProcessorSharingNode.cpp:17-26 | the head departs, the virtual clock is brought forward, the next completion scheduled or the server released; commands and next event are those of the network model |
| ProcessorSharingNodes.ProcessorSharingNode.ServiceNextCustomer | src/cinqs/network/ProcessorSharingNode.cpp:28-34 | the next event is due when the first in line has finished at the present rate |
| ProcessorSharingNodes.EntriesArranged | src/cinqs/network/OrderedQueueEntry.cpp:19-21 | the ordered queue's pointer insertion is the model's insertion by finish time |
| SharingInPlace.DoActs | src/cinqs/network/ProcessorSharingNode.cpp:17-73 | what an event sets off, done step by step to the node object and the diary object, is what the network model collects; the failing deschedule comes from the node object |
| SharingInPlace.TakeTurn | src/cinqs/tools/Sim.cpp:43-51 | one turn with both objects in place is one turn of the network model, failures included; the rest of the world is told which customer departs |
| SharingInPlace.Go | src/cinqs/tools/Sim.cpp:42-52 | so is every run, and unless it fails the node object then stands for the model's node |
| SharingInPlace.Simulate | src/cinqs/tools/Sim.cpp:42-52 | both objects made from nothing, a first event scheduled and the loop run: the network model's run from its start |
| PreemptiveResumeNodes.PreemptiveResumeNode.Enter | src/cinqs/network/InfiniteServerNode.cpp:56-59 | demand, arrival count and accept: the object stands for the model's node afterwards; commands and next event are those of the network model |
| PreemptiveResumeNodes.PreemptiveResumeNode.EnterWhileForwarding | src/cinqs/network/PreemptiveResumeNode.cpp:18-23 | the customer being forwarded enters again: accept deschedules the event being invoked |
| PreemptiveResumeNodes.PreemptiveResumeNode.ClaimOrPreempt | src/cinqs/network/PreemptiveResumeNode.cpp:19-31 | claims, or puts the customer in service with its remaining time at the head of the queue |
| PreemptiveResumeNodes.PreemptiveResumeNode.Forward | src/cinqs/network/QueueingNode.cpp:7-10 | the customer leaves and the server is released or resumes the head; commands and next event are those of the network model |
| QueueingNodes.QueueingNode.Accept | src/cinqs/network/ResourcePool.cpp:33-48 | claim, queue or lose as the model does |
| QueueingNodes.QueueingNode.Enter | src/cinqs/network/InfiniteServerNode.cpp:56-59 | demand, arrival count and accept; the commands are those of the model |
| QueueingNodes.QueueingNode.ReleaseResource | src/cinqs/network/ResourcePool.cpp:54-62 | the server goes to the head of the queue or becomes free |
| QueueingNodes.JobsArranged | src/cinqs/network/OrderedQueue.cpp:33-36 | each discipline on customers is the model's on jobs |
| LinearSystems.EliminationEquivalent | src/vex/debugging/AutoRegression.cpp:167-174 | an elimination step keeps the solution set |
| LinearSystems.SwapEquivalent | src/vex/debugging/AutoRegression.cpp:153-160 | so does a row exchange |
| LinearSystems.TriangularKernel | src/vex/debugging/AutoRegression.cpp:176-183 | a triangular matrix with non-zero pivots has only the zero kernel vector |
| LinearSystems.ZeroColumnIsSingular | src/vex/debugging/AutoRegression.cpp:164-166 | a zero pivot after pivoting means the matrix is singular, and its columns before the last dependent unless it is the last pivot |
| LinearSystems.PivotsBeforeLast | src/vex/debugging/AutoRegression.cpp:162-166 | if no pivot before the last vanishes, the columns before the last are independent |
| YuleWalker.YuleWalkerAutoRegression.Triangularize | src/vex/debugging/AutoRegression.cpp:144-175 | equivalent triangular system, or a zero pivot before the last |
| YuleWalker.YuleWalkerAutoRegression.BackSubstitute | src/vex/debugging/AutoRegression.cpp:176-183 | in place, the right-hand side becomes the solution |
| YuleWalker.YuleWalkerAutoRegression.SolveLE | src/vex/debugging/AutoRegression.cpp:140-186 | a solution exactly for non-singular matrices, and then the only one; false exactly if the columns before the last are dependent; true after 0 as a divisor on all other singular ones |
| YuleWalker.YuleWalkerAutoRegression.Autoregress | src/vex/debugging/AutoRegression.cpp:107-131 | a solution minimises the squared prediction error; which of the three outcomes a series has, decided by at most three of its values |
| YuleWalker.YuleWalkerAutoRegression.GetNextPrediction | src/vex/debugging/AutoRegression.cpp:38-103 | when solved, the positive part of mean plus weighted series, with coefficients no others of which have a smaller squared error; zero when rejected; the outcome from the centred series |
| AutoRegression.Predict | src/vex/debugging/AutoRegression.cpp:79-102 | mean plus weighted series if that is positive, zero if it is not |
| AutoRegression.CentredSumsToZero | src/vex/debugging/AutoRegression.cpp:44-57 | the centred series sums to zero and keeps all differences |
| YuleWalker.NormalEquationsMinimise | src/vex/debugging/AutoRegression.cpp:110-126 | solutions of the normal equations are least-squares predictors |
| YuleWalker.ErrorsOfPredictions | src/vex/debugging/AutoRegression.cpp:79-85 | what is minimised are the errors of the predictions these coefficients make of the last two values |
| YuleWalker.NormalMatrixSingular | src/vex/debugging/AutoRegression.cpp:110-126 | from five samples on the matrix is singular whatever the series |
| YuleWalker.RankAtMostTwo | src/vex/debugging/AutoRegression.cpp:162-166 | from six samples on the columns before the last are dependent, so a pivot before the last vanishes |
| YuleWalker.KernelOfNormalMatrix | src/vex/debugging/AutoRegression.cpp:110-126 | the kernel of the normal matrix is what both residuals' regressors annihilate |
| YuleWalker.OutcomeIs | src/vex/debugging/AutoRegression.cpp:162-176 | solved, rejected or not a number: the exact condition on the samples for every length |
| YuleWalker.ThreeEqualSamples | src/vex/debugging/AutoRegression.cpp:176-176 | three equal samples divide by zero and still return true |
| Burg.LatticeStep | src/vex/debugging/AutoRegression.cpp:226-229 | the two in-place updates are the order update of the convolved errors |
| Burg.EnergyOfExtension | src/vex/debugging/AutoRegression.cpp:211-216 | the error energy after a stage as a quadratic in the reflection coefficient |
| Burg.ReflectionIsOptimal | src/vex/debugging/AutoRegression.cpp:208-217 | g is in [-1, 1], minimises the energy over all reflection coefficients and leaves sd (1 - g^2) |
| Burg.StageIsBest | src/vex/debugging/AutoRegression.cpp:206-223 | each filter is the one before, extended by a coefficient in [-1, 1], and no other extension leaves less error energy |
| Burg.BestIsUnique | src/vex/debugging/AutoRegression.cpp:215-217 | it is the only extension with as little |
| Burg.BackwardIsForwardReversed | src/vex/debugging/AutoRegression.cpp:212-213 | the backward errors are the forward errors of the series read backwards |
| Burg.EnergyZeroIff | src/vex/debugging/AutoRegression.cpp:215-217 | the division is by zero exactly when all errors vanish |
| Burg.FailsWhenPerfect | src/vex/debugging/AutoRegression.cpp:206-217 | over a whole run: no number exactly when some earlier filter predicts perfectly in both directions |
| Burg.FirstStageFails | src/vex/debugging/AutoRegression.cpp:206-217 | at the first stage: exactly the zero series |
| Burg.ConstantSeriesFails | src/vex/debugging/AutoRegression.cpp:206-217 | every constant input fails at every stage |
| Burg.BurgAutoRegression.TakeStage | src/vex/debugging/AutoRegression.cpp:206-230 | after every stage both arrays hold the errors of the current coefficients, indices in bounds, and the new filter is the extension of the old one with the least error energy |
| Burg.BurgAutoRegression.Autoregress | src/vex/debugging/AutoRegression.cpp:195-241 | every stage is recorded and is the best extension of the one before; the coefficients are the last filter's, negated |
| Burg.BurgAutoRegression.GetNextPrediction | src/vex/debugging/AutoRegression.cpp:38-103 | the positive part of mean plus weighted series, with the coefficients of the centred series' best filters; no number exactly when a stage fails |
| Burg.PredictionHasNoError | src/vex/debugging/AutoRegression.cpp:79-85 | the predicted value is the one the error filter maps to zero |
| LinearRegression.DenominatorPositive | src/vex/debugging/LinearRegression.cpp:34-34 | the denominator is n^2 (n^2 - 1) / 12, positive exactly from two points on |
| LinearRegression.LeastSquares | src/vex/debugging/LinearRegression.cpp:34-35 | the formulas give the only minimiser of the squared residuals over all lines |
| LinearRegression.AffineIsExact | src/vex/debugging/LinearRegression.cpp:37-38 | affine input is extrapolated exactly: with the prediction appended it is still affine |
| LinearRegression.TruncateIsTowardsZero | src/vex/debugging/LinearRegression.cpp:38-38 | the conversion gives the only integer within one of the value, towards zero |
| LinearRegression.Regression.Apply | src/vex/debugging/LinearRegression.cpp:24-39 | the loops and formulas yield the least-squares line's value at size + 1, taken towards zero |
| ThreadQueue.AdaptiblePQueue.Push | src/vex/ds/ThreadQueue.cpp:299-301 | adds one thread, heap kept |
| ThreadQueue.AdaptiblePQueue.Pop | src/vex/ds/ThreadQueue.cpp:296-296 | removes the root, heap kept |
| ThreadQueue.AdaptiblePQueue.Update | src/vex/ds/AdaptiblePQueue.h:28-30 | any contents become a heap with the same threads |
| ThreadQueue.AdaptiblePQueue.Erase | src/vex/ds/AdaptiblePQueue.h:72-82 | removes the first occurrence and restores the heap |
| ThreadQueue.LongerRun | src/vex/ds/ThreadQueue.cpp:291-305 | the run of expired heads grows by one recursion level |
| ThreadQueue.KeyAfterInvalidations | src/vex/threads/ThreadState.cpp:1008-1014 | k invalidations move the key by (2, 6, 14, ...) 2^(k+1) - 2 predictions |
| ThreadQueue.ExpiresWhenUsedUp | src/vex/threads/ThreadState.cpp:1031-1051 | however often invalidated, a prediction has expired exactly when more time has passed than was predicted at first and has been added to the key |
| ThreadQueue.InvalidationMovesExpiry | src/vex/threads/IoHandler.h:109-121 | what has expired stays expired; one invalidation moves the last moment of validity by the growth of the key |
| ThreadQueue.ThreadQueue.RecursivelyUpdatePendingIoRequests | src/vex/ds/ThreadQueue.cpp:291-305 | terminates, invalidates the given thread and exactly the maximal run of expired heads, once each |
| ThreadQueue.ThreadQueue.InvalidateExpiredIoPredictions | src/vex/ds/ThreadQueue.cpp:274-289 | same threads afterwards, heap for the new time stamps, old head and expired run invalidated |

## Left out

- Floating-point rounding and integer widths: `double` is `real`, `int`, `unsigned` and `long long` are unbounded, and the casts to `float` in the measures are exact.
- Network, Link, Source, Sink and branching: where customers come from and go to is an arbitrary reaction to events, a function of the nodes, the event and any state of its own. Infinite-server nodes are part of it: they only schedule.
- In-place access to the diary from inside a node: the node classes return their schedule and deschedule commands to the clock loop instead of calling Sim themselves; nothing in a node reads the diary in between.
- SharingInPlace.Go: one processor-sharing object with a rest of the world that sees who departs from it and nothing else; for the other two classes and for several objects under one loop there are their contracts and the network model.
- ProcessorSharingNodes.ProcessorSharingNode.Enter: requires that the node is not in the middle of forwarding a customer, because accept then deschedules an event that is gone: EnterWhileForwarding is that case (NetworkRuns.TurnKeeps says exactly when it happens, SharingInPlace.DoActs does it in place).
- PreemptiveResumeNodes.PreemptiveResumeNode.Enter: the customer that enters is neither in the queue nor in service here (EnterWhileForwarding is for the one being forwarded), and if somebody is in service there is room in the queue, which the source takes to be unbounded and checks when the node is made.
- QueueingNodes.QueueingNode.Enter: a customer carries the number of its visit, where the source's event points to the customer.
- QueueingNodes.QueueingNode.Forward: stated for nobody coming straight back; those who do are calls of Enter before ReleaseResource, and Queueing.Forward has them.
- Simulation.Sim.Go: the number of turns is bounded by a parameter, because a simulation need not end.
- WorkConservation.SharingConservesWork: for runs in which nobody is lost, since a lost customer brings no work.
- WorkConservation.QueueingConservesWork: likewise.
- FirstInFirstOut.LeavesAfterUnfinishedWork: likewise.
- PreemptiveRestartNode: its remainingServiceTime is never dispatched to, so every preemptive node resumes.
- RandomQueue and PriorityQueue behind a service node: the nodes are modelled with FIFO, LIFO and ordered queues.
- resetMeasures and the warm-up event: lastChange is not reset, so the integral identities do not carry over.
- The constructor Measure(int), which leaves the moments uninitialised, and the square root in getStdev.
- The overloads of List::remove and of OrderedList::insertInOrder for events differ only in the element type: one generic method each.
- eraseAll, find, print and setThreadToNextBiggestErt, and the locks around the thread queue's operations.
- make_heap, push_heap and pop_heap belong to the C++ standard library; the model uses the textbook sift operations.
- The states and predictors behind a thread's timing: a thread is its time stamp, its I/O phase and its prediction.
- Options, logging to files, visualisation, JNI and JVMTI agents, performance counters, samplers, histograms and freeing of memory.
