# HavoqGT in Dafny

HavoqGT is an asynchronous distributed graph engine: many ranks run visitors over a partitioned
graph, messages arrive in any order, high-degree vertices (delegates) are replicated on all ranks,
and the result must still be the one a simple sequential definition gives. This project models that
engine and proves it. `dafny verify dfyconfig.toml` checks everything.

Code that computes values is modelled by functions; code that changes state is modelled by methods
with loops, by classes whose fields the methods update (`VisitorQueue`, `Detector`, `RankMailbox`,
`Exchange`, `Partitioner`), or, where several ranks or threads interleave, by a state machine over
their steps. Wherever the original leaves an order open (which message arrives next, which rank
moves, which visitor is popped) the model leaves it open too, so the theorems hold for every order.

1. **Traversals** (`Graph`, `Traversal*`, `VisitorQueue`). The visitor queue with delegates, running
   breadth-first search, shortest paths or connected components as one label-correcting system. A
   message may arrive between any two edges of a visit, because sending may run an exchange. The
   invariant has three parts: labels are witnessed by walks (`TraversalInvariant`), a copy below its
   master means a message on its way to the master (`TraversalOrder`), and a label that is not yet
   spread is still pending somewhere (`TraversalProgress`). From it follow exactness, agreement of the
   copies and the parent tree (`TraversalExactness`), what shortest paths leave in the copies
   (`TraversalCopies`), and finiteness (`TraversalTermination`). `TraversalSchedule` puts every rank
   into its loops and the exchanges between them: a rank returns only when nothing is left anywhere,
   and `TraversalReturns` adds that every schedule ends, with exact labels unless a pop fails.
   `TraversalPops` says exactly when a pop succeeds, and `TraversalPopFails` exhibits one that does
   not. `StagedSchedule` and `StagedReturns` carry all this to exchanges made of the stages and the
   counts of the mailboxes. The class `VisitorQueue` is the in-place code of one rank, with arrivals in
   the middle of its loops; its history of events is proved to be a run of the system seen from that
   rank. `SequentialComponents` is the stack-based program the components are compared with, and
   `ComponentsAgree` the proof that both label every vertex alike.
2. **Mailboxes and quiescence** (`Network`, `Routing*`, `HopGroups`, `Exchange*`, `StageQueues`,
   `Mailbox`). The three routed mailboxes deliver exactly what direct delivery does, for every number of
   nodes and cores that the packed header has room for (24 and 6 bits), with every hop inside the group
   of its stage. No stage of theirs runs over all ranks, and yet no rank
   ends an exchange before all have entered it (`ExchangeStages`), and the count an exchange returns is
   zero on one rank iff no rank had sent anything (`ExchangeTotals`, `ExchangeCounts`). So all ranks
   leave a traversal together and leave nothing behind. `Termination*` is the older tree-based detector,
   safe (`TerminationSafety`) and live (`TerminationLiveness`); `Ring*` and `ShmExchange` are the
   lock-free ring in shared memory.
3. **Triangles and trusses** (`Triangle*`, `KTruss`, `TrussDecomposition`). Degree-ordered
   orientation, wedge checks with acknowledgements, and k-truss peeling with incremental counts.
4. **Pattern pruning** (`LocalConstraint*`, `TokenPassing*`). The supersteps of local constraint
   checking reach the greatest consistent relation and lose no match; token passing around a cycle
   with a memo of seen sources marks a source iff a matching cycle exists.
5. **Array and arithmetic cores** (`EdgePartitioner`, `PartitionPasses`, `AllToAll`,
   `ExchangeVectors`, `PointerJumping*`, `Words`, `HashSteps`, `Hash`, `GeneratedLabels`). The two passes
   of the stateful partitioner and the counting sort around it, distributed pointer jumping, the
   scrambling hash as a permutation with a written-out inverse, and what the generator feeds it.

`Arithmetic`, `Collections` and `Sums` hold facts shared by several modules. What a main method
computes is told at least once on the input alone, apart from the tests its handlers share.

Where the code does something a reader might not expect, the model follows the code:

- The ring refuses at its slack, not at its capacity. The slack carries 101 senders between their
  reading of the counters and their store. `RingSafety.RingExact` covers every run, of any number of
  senders, in which at most that many are there at a time; `RingSafety.FailsIffCrowded` says that some
  run lets a sender find its slot taken exactly when there are more than 101.
- `visitor_queue.hpp:131-136` tests both queues, drains the controllers and then pops a visitor
  without testing again. When the last local visit's send exchanges and what arrives is the
  announcement of a delegate without edges here, there is none: `TraversalPopFails.PopFails` is such a
  run, from the start of a traversal. `TraversalPops.PopAfterTest` and `TraversalPops.UndisturbedPop`
  say exactly when the pop succeeds, and with one rank or without delegates it always does
  (`TraversalPops.NeverFails`).
- Shortest-path visits never write labels, so a copy that is not the master may stay above its master
  for good; `TraversalCopies.StaleCopy` is such a run. `TraversalCopies.SsspCopyAgreesIff` says which
  copies agree with their masters. The distances at the masters do not depend on it.
- The generator reduces labels modulo the number of nodes before it scrambles them, so two labels may
  become one vertex; `Hash.ScrambledIsomorphicIff` says exactly when. Its own edges always have two such
  labels, for every number of edges per node: the sources of the last edges run past the number of nodes
  (`GeneratedLabels.CongruentPair`, `GeneratedLabels.NeverIsomorphic`).
- `mailbox_p2p_nrroute.hpp` compares per-node send counts with a fraction of the batch but never
  changes them: they stay at zero, which matters only when that fraction is zero.
- `ktruss_unroll.hpp:845-846` loops over the delegates without copying their directed edges, so the
  k-truss code leaves delegates out; triangle counting does not.

## Model

| member | source | states |
|---|---|---|
| Graphs.WalkEnds | include/havoqgt/visitor_queue.hpp:205-220 | walks follow edges wherever they are stored and stay inside the graph |
| Traversal.Accept | include/havoqgt/visitor_queue.hpp:281-323 | a received visitor only lowers labels, to at most its own |
| Traversal.QueueVisitor | include/havoqgt/visitor_queue.hpp:205-241 | queueing only lowers labels of the calling rank and never disturbs a visit in progress |
| Traversal.Broadcast | include/havoqgt/visitor_queue.hpp:141-149 | one copy of the visitor for every rank but the master, none for the master |
| TraversalInvariant.EmittedVisitor | include/havoqgt/breadth_first_search.hpp:107-124 | the visitor sent along an edge is witnessed by a walk; its 16-bit level never wraps |
| TraversalInvariant.StepSound | include/havoqgt/visitor_queue.hpp:141-323 | every event keeps all labels, visitors and messages witnessed by walks from an origin |
| TraversalOrder.StepOrdered | include/havoqgt/visitor_queue.hpp:205-323 | every event keeps: a copy below its master has a message in flight that will lower the master; labels of masters only fall |
| TraversalOrder.FilterCovers | include/havoqgt/connected_components.hpp:59-67 | a neighbour skipped by the components filter is already labelled as low |
| TraversalProgress.StepInvariant | include/havoqgt/visitor_queue.hpp:127-323 | the whole invariant, including that every label of a master has been relaxed along all edges or is still queued, in progress or in flight, survives every event |
| TraversalExactness.InitialInvariant | include/havoqgt/visitor_queue.hpp:127-184 | it holds when the source has been queued, and when components start with every vertex its own label |
| TraversalExactness.RunInvariant | include/havoqgt/visitor_queue.hpp:127-203 | and so in every state of every run |
| TraversalExactness.QuiescentSettled | include/havoqgt/visitor_queue.hpp:127-139 | with nothing queued or in flight, labels of masters are relaxed along every edge |
| TraversalExactness.BfsLevels | include/havoqgt/breadth_first_search.hpp:98-124 | for every graph, rank count, delegate set and order of events: at quiescence each master's level is the distance capped at 65535 |
| TraversalExactness.BfsParents | include/havoqgt/breadth_first_search.hpp:107-124 | recorded parents of reached vertices retrace a shortest walk from the source |
| TraversalExactness.CopiesAgree | include/havoqgt/breadth_first_search.hpp:98-124 | every delegate copy equals its master at quiescence, with a parent that fits |
| TraversalExactness.SsspDistances | include/havoqgt/single_source_shortest_path.hpp:72-99 | each master ends with the least walk length, although copies are never refreshed |
| TraversalExactness.ComponentLabels | include/havoqgt/connected_components.hpp:24-72 | each master ends with the smallest vertex that reaches it |
| TraversalTermination.StepDecreases | include/havoqgt/visitor_queue.hpp:127-323 | an explicit measure over labels, queues, visits, messages and broadcasts falls with every event |
| TraversalTermination.RunsEnd | include/havoqgt/visitor_queue.hpp:127-203 | no run is longer than the measure of its first state |
| TraversalTermination.StuckIsQuiescent | include/havoqgt/visitor_queue.hpp:138-138 | a state without enabled event is a quiescent one, and conversely |
| TraversalCopies.SsspCopies | include/havoqgt/single_source_shortest_path.hpp:72-99 | at quiescence a copy away from its master is the least of the starting value, zero for the source on rank 0, and the distances along the arcs stored on its own rank |
| TraversalCopies.SsspCopyAgreesIff | include/havoqgt/single_source_shortest_path.hpp:72-99 | it equals its master iff the vertex is not reached below the starting value, or is the source on rank 0, or a shortest walk enters it by a local arc |
| TraversalCopies.StaleCopy | include/havoqgt/single_source_shortest_path.hpp:72-99 | a run from the start that comes to rest with a copy above its master |
| TraversalSchedule.MoveKept | include/havoqgt/visitor_queue.hpp:127-184 | every event in its place in the loops, every step through the loops and every end of an exchange keeps: an exchange not at the last test carries something, and once a rank has returned nothing is left |
| TraversalSchedule.ScheduledRuns | include/havoqgt/visitor_queue.hpp:127-184 | what happens in a schedule is a run of the system |
| TraversalSchedule.SweepTurn | include/havoqgt/visitor_queue.hpp:161-184 | in a turn of the sweep a rank starts a delegate, then a vertex, and only then drains |
| TraversalSchedule.ReturnedAtRest | include/havoqgt/visitor_queue.hpp:131-138 | when one rank has returned, nothing is queued, in progress or in flight anywhere and every other rank has returned or is about to |
| TraversalSchedule.ReturnedLevels | include/havoqgt/visitor_queue.hpp:127-203 | and then every master's label is the exact level, distance or component label |
| TraversalPops.DrainLeavesVisitor | include/havoqgt/visitor_queue.hpp:134-135 | after an undisturbed drain there is a visitor to pop iff there was one before or a controller that is not undercut has an edge that lowers a label of this rank, told from labels and edges before the drain |
| TraversalPops.PopAfterTest | include/havoqgt/visitor_queue.hpp:133-135 | from the inner test to the pop, whatever arrives: the pop succeeds iff a visitor was queued at the test or a label of this rank has fallen since; otherwise it fails |
| TraversalPops.UndisturbedPop | include/havoqgt/visitor_queue.hpp:133-135 | the same in closed form in every schedule in which no message reaches the rank in between |
| TraversalPops.NeverFails | include/havoqgt/visitor_queue.hpp:133-135 | with one rank, or without delegates, no schedule reaches a failing pop |
| TraversalPopFails.PopFails | include/havoqgt/visitor_queue.hpp:133-135 | a schedule from the start of a traversal that ends with a rank popping an empty queue |
| TraversalReturns.StuckIsReturned | include/havoqgt/visitor_queue.hpp:127-184 | while no pop has failed, some rank can move iff not all have returned |
| TraversalReturns.ScheduleEnds | include/havoqgt/visitor_queue.hpp:127-184 | no schedule is longer than an explicit measure of its first state |
| TraversalReturns.TraversalReturns | include/havoqgt/visitor_queue.hpp:127-203 | so a traversal in which no pop fails ends with every rank returned and every label exact |
| VisitorQueues.SystemIsLocal | include/havoqgt/visitor_queue.hpp:141-323 | an event of the system is, on the rank that acts, the same event seen locally |
| VisitorQueues.LocalIsSystem | include/havoqgt/visitor_queue.hpp:141-323 | a local event whose message is in flight is an event of the system, with the same messages |
| VisitorQueues.VisitorQueue.PreVisit | include/havoqgt/breadth_first_search.hpp:98-105 | compares and lowers in place |
| VisitorQueues.VisitorQueue.QueueVisitor | include/havoqgt/visitor_queue.hpp:205-241 | owner, master, copy and remote case change queues, messages and labels as the specification says, and a message is posted exactly in the cases that send |
| VisitorQueues.VisitorQueue.HandleMailboxReceive | include/havoqgt/visitor_queue.hpp:281-323 | broadcasts join the controller queue, everything else is pre-visited |
| VisitorQueues.VisitorQueue.ReceiveNext | include/havoqgt/visitor_queue.hpp:281-323 | the next message of an exchange is handled and joins the history, whatever visit it interrupts |
| VisitorQueues.VisitorQueue.RelaxOne | include/havoqgt/breadth_first_search.hpp:113-121 | one edge is relaxed, and if that sends and the send exchanges, what the exchange hands out is handled |
| VisitorQueues.VisitorQueue.RelaxEdges | include/havoqgt/breadth_first_search.hpp:113-121 | the loop relaxes every edge of the visited vertex once, in order, with arrivals anywhere in between |
| VisitorQueues.VisitorQueue.DoVisit | include/havoqgt/visitor_queue.hpp:141-149 | the event that takes the visitor up, its edges if its label holds, its end and, at a master, its broadcast, with arrivals at every send |
| VisitorQueues.VisitorQueue.ProcessPendingControllers | include/havoqgt/visitor_queue.hpp:273-279 | controllers are visited until none is left, those announced meanwhile included, and that is finite |
| VisitorQueues.VisitorQueue.DoInitVisit | include/havoqgt/visitor_queue.hpp:151-159 | a vertex of the initial sweep is visited with its own label |
| VisitorQueues.VisitorQueue.Sweep | include/havoqgt/visitor_queue.hpp:165-174 | one turn starts one delegate and one vertex of this rank, while there are any |
| VisitorQueues.VisitorQueue.VisitQueued | include/havoqgt/visitor_queue.hpp:132-137 | the inner loop ends with both queues empty; if it ends in a pop of nothing, the test before saw something and only controllers' visits and arrivals followed |
| VisitorQueues.VisitorQueue.InitVisitorTraversal | include/havoqgt/visitor_queue.hpp:161-184 | the whole loop ends, whatever arrives; its history is a run of this rank's events from its part of the initial state, with every message that was handed out |
| SequentialComponents.IngestEdges | src/run_shm_cc.cpp:15-31 | the lists hold exactly the given edges, at both ends |
| SequentialComponents.Search | src/run_shm_cc.cpp:53-65 | the stack loop ends and labels a whole component, touching no other |
| SequentialComponents.Label | src/run_shm_cc.cpp:49-66 | every vertex gets the smallest vertex connected to it |
| SequentialComponents.Components | src/run_shm_cc.cpp:33-77 | every written line is right, also for vertices no edge mentions |
| SequentialComponents.LabelsExact | src/run_shm_cc.cpp:49-66 | a complete labelling whose labels reach and do not exceed what they label is exact |
| ComponentsAgree.AgreesWithSearch | src/run_shm_cc.cpp:49-66 | after any run of the distributed algorithm each label is the one the sequential search writes |
| Network.MembersAre | include/ygm/impl/mpi.ipp:176-196 | a group consists of the ranks of one colour, ordered by world rank |
| Network.GroupMember | include/ygm/impl/mpi.ipp:184-196 | the closed-form index of a partner is its index in the group of the unordered pair |
| RoutingExactness.RoutedExactly | include/ygm/mailbox_p2p_nlnr.hpp:161-272 | for every route: a message arrives once, at its destination, and a broadcast once at every other rank |
| RoutingExactness.NlnrSendExact | include/ygm/mailbox_p2p_nlnr.hpp:161-200 | the local, remote, local path ends at the destination and nowhere else |
| RoutingExactness.NlnrBcast | include/ygm/mailbox_p2p_nlnr.hpp:202-222 | the broadcast reaches every other rank exactly once |
| RoutingExactness.NlrouteSendExact | include/ygm/mailbox_p2p_nlroute.hpp:130-144 | the message is queued for its destination when that has the same core, else for the other core of this node, and ends at the destination |
| RoutingExactness.NlrouteBcast | include/ygm/mailbox_p2p_nlroute.hpp:146-186 | and its broadcast reaches every other rank exactly once |
| RoutingExactness.NrrouteSendExact | include/ygm/mailbox_p2p_nrroute.hpp:118-135 | the message is queued for its destination when that is on the same node, else for this core of the other node, and ends at the destination |
| RoutingExactness.NrrouteBcast | include/ygm/mailbox_p2p_nrroute.hpp:137-183 | and its broadcast reaches every other rank exactly once |
| Exchange.RunStage | include/ygm/mailbox_p2p_nlnr.hpp:228-262 | one stage delivers or forwards every queued packet, in any order |
| Exchange.DoExchange | include/ygm/mailbox_p2p_nlnr.hpp:224-272 | the stages of one exchange deliver all that was queued |
| Exchange.DeliverAll | include/ygm/mailbox_p2p_noroute.hpp:115-139 | any mixture of messages and broadcasts is delivered as direct delivery would |
| Mailbox.HeaderRoundTrip | include/ygm/mailbox_p2p_nlnr.hpp:44-54 | the packed 32-bit header has its four fields at their bits and gives them back |
| Mailbox.InjectQueues | include/ygm/mailbox_p2p_nlnr.hpp:161-222 | whatever is sent leaves something queued, so counts cannot miss it |
| Mailbox.RankMailbox.DoSendLayered | include/ygm/mailbox_p2p_nlnr.hpp:161-200 | within the node, to the partner, or to the core of this node that speaks to the other: the packet joins the queue of its first hop and is counted |
| Mailbox.RankMailbox.DoSend | include/ygm/mailbox_p2p_nlroute.hpp:130-144 | the same for every route, and the queues stay within the groups of their stages |
| Mailbox.RankMailbox.DoSendBcast | include/ygm/mailbox_p2p_nlnr.hpp:202-222 | all first hops of a broadcast are queued and counted |
| Mailbox.RankMailbox.Send | include/ygm/mailbox_p2p_nlnr.hpp:82-124 | own messages are handled at once; during an exchange sends are set aside; a full batch, and otherwise nothing but the per-node fraction, forces an exchange |
| Mailbox.RankMailbox.SendBcast | include/ygm/mailbox_p2p_nlnr.hpp:127-134 | the same for broadcasts |
| Mailbox.RankMailbox.EndExchange | include/ygm/mailbox_p2p_nlnr.hpp:272-296 | what was set aside during an exchange is queued afterwards, in order, and nothing else |
| ExchangeTotals.ZeroMeansEmpty | include/ygm/comm_exchanger.hpp:50-147 | a zero count on any rank means no rank had queued anything |
| ExchangeTotals.EmptyMeansZero | include/ygm/comm_exchanger.hpp:50-147 | nothing queued anywhere gives zero on every rank |
| ExchangeCounts.ZeroIffNothingSent | include/ygm/mailbox_p2p_nlnr.hpp:224-295 | from what the ranks sent and what the stages forward: the count of an exchange is zero on a rank iff no rank had sent anything |
| HopGroups.HopsInGroup | include/ygm/mailbox_p2p_nlroute.hpp:130-189 | every packet of every message and broadcast, at its source and wherever it is passed on, goes to another member of the group of the stage it is queued for |
| StageQueues.QueuesLocal | include/ygm/mailbox_p2p_nlnr.hpp:224-295 | so do all packets in the queues of all ranks when each stage starts |
| StageQueues.StagesDeliver | include/ygm/mailbox_p2p_nlnr.hpp:224-295 | and what arrives from these queues in the three stages is exactly what was sent, each message once and each broadcast once everywhere else |
| ExchangeSums.NlrouteCount | include/ygm/mailbox_p2p_nlroute.hpp:162-189 | the count in full: what all ranks had queued and sent in the first stage, once, then what the rank's own node had, and the forwarded messages of its core on all nodes |
| ExchangeSums.NrrouteCount | include/ygm/mailbox_p2p_nrroute.hpp:158-185 | the same with core and node exchanged |
| ExchangeSums.NlnrCount | include/ygm/mailbox_p2p_nlnr.hpp:224-295 | the same through partners: each core of the node adds its node's sum and those of its partners' nodes |
| ExchangeSums.NorouteCount | include/ygm/mailbox_p2p_noroute.hpp:133-140 | directly, the messages of all ranks |
| ExchangeStages.MoveOrderly | include/ygm/comm_exchanger.hpp:50-147 | whatever stage a rank has finished, the members of its group have begun, through every step of every rank |
| ExchangeStages.AllHaveEntered | include/ygm/mailbox_p2p_nlnr.hpp:224-295 | once a rank has finished the last stage of an exchange, every rank has entered that exchange, although no stage runs over all |
| ExchangeStages.StagesGoOn | include/ygm/comm_exchanger.hpp:50-147 | ranks in the stages of an exchange never wait for each other in a circle |
| StagedSchedule.CountSays | include/havoqgt/visitor_queue.hpp:161-184 | the count in the last test is zero, on any one rank, iff no rank has sent anything since the exchange before |
| StagedSchedule.StepRefines | include/havoqgt/visitor_queue.hpp:131-184 | a step with stages and counts is a move of the schedule, whose conditions on leaving an exchange follow, or leaves the schedule where it is |
| StagedSchedule.StagedRunScheduled | include/havoqgt/visitor_queue.hpp:131-184 | so every run with stages and counts is a schedule |
| StagedSchedule.LeaveTogether | include/havoqgt/visitor_queue.hpp:161-184 | when one rank has returned on its count of zero, nothing is left anywhere and every other rank has returned or is in its last test |
| StagedReturns.StagedGoesOn | include/havoqgt/visitor_queue.hpp:131-184 | whenever the schedule can go on, so can a rank with stages: they add no deadlock |
| StagedReturns.StagedEnds | include/havoqgt/visitor_queue.hpp:131-184 | and no run with stages is longer than an explicit measure of its first state |
| StagedReturns.StagedTraversalReturns | include/havoqgt/visitor_queue.hpp:131-184 | so a traversal with staged exchanges in which no pop fails ends with every rank returned and every label exact |
| TerminationDetection.ParentChild | include/havoqgt/termination_detection.hpp:256-263 | parent and child arithmetic describe one tree |
| TerminationDetection.LeafHasNoChildren | include/havoqgt/termination_detection.hpp:256-263 | a rank is a leaf iff it has no children; children are later ranks |
| TerminationSafety.StepInvariant | include/havoqgt/termination_detection.hpp:102-211 | every step of every rank, and every change of a counter, keeps the invariant of the waves |
| TerminationSafety.SumsAreConserved | include/havoqgt/termination_detection.hpp:157-202 | partial sums at the ranks and in flight add up to the samples taken in the wave |
| TerminationSafety.ReportIsSafe | include/havoqgt/termination_detection.hpp:157-202 | termination is reported only when everything queued anywhere is completed, although ranks are sampled at different times |
| TerminationLiveness.WaveTotal | include/havoqgt/termination_detection.hpp:157-202 | a wave whose samples are still the counters adds up to the counters of all ranks |
| TerminationLiveness.PotentialStep | include/havoqgt/termination_detection.hpp:102-211 | once nothing is outstanding, every move of the detector lowers an explicit measure |
| TerminationLiveness.GoesOn | include/havoqgt/termination_detection.hpp:102-211 | until every rank has reported, some rank can move |
| TerminationLiveness.WorkCanFinish | include/havoqgt/termination_detection.hpp:94-95 | at any moment what is outstanding can be completed, and then nothing is |
| TerminationLiveness.ThreeWaves | include/havoqgt/termination_detection.hpp:157-202 | once nothing is outstanding, the wave under way and two more make the root report; two do if none is under way |
| TerminationLiveness.AllReport | include/havoqgt/termination_detection.hpp:102-211 | and after at most 4 (fanout + 8) ranks moves, in any order, every rank has reported |
| TerminationDetector.Detector.constructor | include/havoqgt/termination_detection.hpp:58-86 | a detector starts waiting, with zero counts |
| TerminationDetector.Detector.HandleWaitingInit | include/havoqgt/termination_detection.hpp:117-141 | the root starts a wave; others pass on a query or a stop |
| TerminationDetector.Detector.HandleWaitingIsendChildren | include/havoqgt/termination_detection.hpp:143-155 | finished sends are taken from the back; with none left the rank waits for its children |
| TerminationDetector.Detector.HandleWaitingRecvChildren | include/havoqgt/termination_detection.hpp:157-202 | a leaf answers, an inner rank sums up, the root compares two waves and decides |
| TerminationDetector.Detector.HandleWaitingIsendParent | include/havoqgt/termination_detection.hpp:204-211 | the rank waits again once its answer is sent |
| Ring.StepInvariant | include/havoqgt/new_mailbox.hpp:808-872 | every single read, claim, test, store and receive keeps tickets, slots and senders consistent |
| Ring.AtMostCapacity | include/havoqgt/new_mailbox.hpp:808-822 | never more tickets out than slots |
| Ring.ClaimedSlotEmpty | include/havoqgt/new_mailbox.hpp:808-822 | a claimed slot is empty when it is tested and when it is stored to |
| RingSafety.RingExact | include/havoqgt/new_mailbox.hpp:808-872 | for any number of senders, with at most 101 active at a time, no claim fails, and bundles are received in ticket order, none lost or duplicated |
| RingSafety.TakesStored | include/havoqgt/new_mailbox.hpp:859-872 | once the sender of the oldest ticket has stored, the receiver that looks takes its bundle |
| RingSafety.RingDrains | include/havoqgt/new_mailbox.hpp:824-872 | when sending stops, four steps a bundle bring the receiver to the end, with everything sent received |
| RingSafety.MoreFail | include/havoqgt/new_mailbox.hpp:808-822 | with any larger number of senders a run reaches the failure |
| RingSafety.FailsIffCrowded | include/havoqgt/new_mailbox.hpp:808-822 | some run fails iff there are more than 101 senders |
| ShmExchange.Exchange.TrySend | include/havoqgt/new_mailbox.hpp:808-822 | uninterrupted, a send appends to the queue or refuses at the slack |
| ShmExchange.Exchange.Probe | include/havoqgt/new_mailbox.hpp:825-828 | says whether the queue holds something |
| ShmExchange.Exchange.TryRecv | include/havoqgt/new_mailbox.hpp:857-872 | takes the first bundle of the queue, if any |
| Triangles.OrderIsStrictAndTotal | include/havoqgt/ktruss_unroll.hpp:79-100 | the (degree, locator) order is strict and total, with the larger degree and then the larger locator above, so every undirected edge has one direction |
| Triangles.ThreeSides | include/havoqgt/triangle_count_per_edge.hpp:220-281 | supports of all edges add up to three times the triangles |
| TriangleCount.SendDegrees | include/havoqgt/triangle_count_per_edge.hpp:149-165 | a rank greets exactly along the edges it stores of the vertex |
| TriangleCount.StartGreeting | include/havoqgt/triangle_count_per_edge.hpp:149-165 | starting a vertex greets along its own edges and, for a delegate, announces it to every other rank |
| TriangleCount.GreetAtCopy | include/havoqgt/triangle_count_per_edge.hpp:166-185 | a copy that is announced greets along its rank's share of the edges, once |
| TriangleCount.ConstructDirected | include/havoqgt/triangle_count_per_edge.hpp:115-185 | whatever the order of greetings, announcements and hops from copies to masters, each edge of the adjacency lists is stored once, at the end with fewer neighbours or, of two with as many, the smaller locator; nothing else is |
| TriangleCount.QueueWedges | include/havoqgt/triangle_count_per_edge.hpp:251-270 | every ordered pair of out-edges is queued once |
| TriangleCount.CheckTallied | include/havoqgt/triangle_count_per_edge.hpp:221-238 | a closing check keeps every count exact for the triangles found so far, and the sum of counts plus twice the pending acknowledgements at three times the triangles found |
| TriangleCount.AckTallied | include/havoqgt/triangle_count_per_edge.hpp:239-249 | and so does an acknowledgement |
| TriangleCount.ReceiveCheck | include/havoqgt/triangle_count_per_edge.hpp:221-238 | a check that closes counts the closing edge, remembers the apex and owes an acknowledgement |
| TriangleCount.ReceiveAck | include/havoqgt/triangle_count_per_edge.hpp:239-249 | an acknowledgement counts both spokes |
| TriangleCount.CountAllTriangles | include/havoqgt/ktruss_unroll.hpp:531-586 | in every order of messages: each edge ends with its exact support, each triangle is found once |
| TriangleExactness.FoundOnce | include/havoqgt/triangle_count_per_edge.hpp:220-281 | three mutually adjacent vertices are found exactly once, at the one below the other two in numbers of neighbours and then locators |
| TriangleExactness.SupportIsCommonNeighbours | include/havoqgt/triangle_count_per_edge.hpp:220-281 | the support of a directed edge is the number of common neighbours in the undirected graph |
| TriangleExactness.SupportWithin | include/havoqgt/triangle_count_per_edge.hpp:220-281 | inside any set of directed edges, the support of an edge is the number of vertices joined to both its ends in that set |
| TriangleExactness.TriangleCountPerEdge | include/havoqgt/triangle_count_per_edge.hpp:298-333 | the edges stored are those of the adjacency lists, delegates included, and each ends with the number of undirected triangles through it |
| TriangleExactness.QueuePairs | include/havoqgt/triangle_count_global.hpp:192-216 | the nested iterator loops of the count-only variant queue the same wedges |
| Trusses.TrussCohesive | include/havoqgt/ktruss_unroll.hpp:601-681 | in the truss every edge lies in enough of its triangles |
| Trusses.TrussLargest | include/havoqgt/ktruss_unroll.hpp:601-681 | it contains every such set |
| Trusses.TrussUnique | include/havoqgt/ktruss_unroll.hpp:601-681 | and is the only set with both properties |
| Trusses.TrussChain | include/havoqgt/ktruss_unroll.hpp:849-899 | peeling the k-truss gives the (k+1)-truss of the graph |
| KTruss.MarkWeak | include/havoqgt/ktruss_unroll.hpp:381-394 | a vertex marks exactly its edges with too few triangles |
| KTruss.NothingClamps | include/havoqgt/ktruss_unroll.hpp:32-41 | no counter is zero when it is decremented, so the clamp is never reached |
| KTruss.ReceiveDelete | include/havoqgt/ktruss_unroll.hpp:337-360 | a delete request takes a destroyed triangle off its closing edge and keeps the deduction exact |
| KTruss.ReceiveDeleted | include/havoqgt/ktruss_unroll.hpp:361-374 | its acknowledgement takes it off both spokes |
| KTruss.WedgePass | include/havoqgt/ktruss_unroll.hpp:313-446 | the wedge pass deducts every triangle with a marked spoke once and marks no edge worth keeping |
| KTruss.QueueNotes | include/havoqgt/ktruss_unroll.hpp:490-508 | every deleted edge of a vertex is announced to every remembered apex once |
| KTruss.ReceiveNote | include/havoqgt/ktruss_unroll.hpp:462-487 | a note about a deleted closing edge relieves exactly the triangles the wedge pass left |
| KTruss.UnrollPass | include/havoqgt/ktruss_unroll.hpp:448-529 | after both passes the counts of the edges that stay are exact among themselves |
| TrussDecomposition.CohesiveMeans | include/havoqgt/ktruss_unroll.hpp:601-681 | a cohesive set in undirected terms: every edge has enough vertices joined to both its ends within the set |
| TrussDecomposition.RemoveMarked | include/havoqgt/ktruss_unroll.hpp:629-672 | marked edges go, exhausted vertices are cleared, and the reported numbers are those of what stays |
| TrussDecomposition.Round | include/havoqgt/ktruss_unroll.hpp:608-673 | a round loses nothing cohesive, ends with exact counts, and stops only at a cohesive set |
| TrussDecomposition.DecomposeTruss | include/havoqgt/ktruss_unroll.hpp:601-681 | the surviving edges are exactly the k-truss, whatever the order of marks and decrements |
| TrussDecomposition.KTrussUnroll | include/havoqgt/ktruss_unroll.hpp:849-899 | each report counts the edges, lower ends and triangles of the k-truss of the undirected graph: the largest set of its edges in which the ends of each have k - 2 common neighbours; reports go up to the first empty one |
| TrussDecomposition.TrussOfGraph | include/havoqgt/ktruss_unroll.hpp:601-681 | that set exists, is unique, and is the truss the rounds compute |
| LocalConstraint.QueueAll | include/prunejuice/local_constraint_checking.hpp:480-649 | a vertex tells its bits to all active neighbours, or to all neighbours in the first superstep |
| LocalConstraintChecking.Receive | include/prunejuice/local_constraint_checking.hpp:154-470 | one message updates its vertex and keeps the record of what was heard |
| LocalConstraintChecking.Traverse | include/prunejuice/local_constraint_checking.hpp:154-649 | in every order of starts and messages all vertices hear the same |
| LocalConstraintChecking.Superstep | include/prunejuice/local_constraint_checking.hpp:844-1120 | the sweep drops exactly what was not confirmed, and every later superstep that changes something shrinks the state |
| LocalConstraintFixpoint.GreatestConsistent | include/prunejuice/local_constraint_checking.hpp:659-830 | the union of all consistent relations is consistent |
| LocalConstraintFixpoint.GreatestAbove | include/prunejuice/local_constraint_checking.hpp:659-830 | and above each of them |
| LocalConstraintFixpoint.CheckLocalConstraints | include/prunejuice/local_constraint_checking.hpp:1126-1287 | the supersteps end with vertices exactly those of the greatest relation, and an edge of the graph active iff an edge of the pattern joins something its ends hold |
| LocalConstraintFixpoint.MatchSurvives | include/prunejuice/local_constraint_checking.hpp:1179-1284 | every match keeps its vertices, bits and edges |
| TokenPassing.SendTokens | include/prunejuice/non_local_constraint_checking_unique.hpp:552-864 | a token goes to every active neighbour but those skipped |
| TokenPassing.PathReaches | include/prunejuice/non_local_constraint_checking_unique.hpp:140-307 | a path of fitting labels reaches its end |
| TokenPassing.ReachesPath | include/prunejuice/non_local_constraint_checking_unique.hpp:140-307 | whatever is reached is reached by such a path |
| TokenPassing.NeverBack | include/prunejuice/non_local_constraint_checking_unique.hpp:700-864 | with distinct labels the rule against going back to the parent excludes nothing |
| TokenPassingExactness.PassTokens | include/prunejuice/non_local_constraint_checking_unique.hpp:90-864 | in every order of starts, arrivals and visits token passing ends; a source is kept iff an active cycle of vertices with the right labels and template vertices leads through it, and an edge is flagged iff such a cycle comes back over it |
| TokenPassingExactness.MarkedIffCycle | include/prunejuice/non_local_constraint_checking_unique.hpp:140-307 | what the handlers reach step by step are exactly the matching cycles, told on labels, template vertices and active edges |
| EdgePartitioner.CountStream | include/havoqgt/impl/edge_partitioner.hpp:104-118 | counting hands out the ranks of a queue in order, then the rank itself |
| EdgePartitioner.SendStream | include/havoqgt/impl/edge_partitioner.hpp:119-139 | sending hands out the same ranks and undoes the counting |
| EdgePartitioner.Partitioner.Owner | include/havoqgt/impl/edge_partitioner.hpp:91-147 | one call in place: scan and count, or take from the front |
| PartitionPasses.CountCall | include/havoqgt/impl/edge_partitioner.hpp:91-118 | in the counting pass edge i is answered with a destination that depends on the batch alone |
| PartitionPasses.SendCall | include/havoqgt/impl/edge_partitioner.hpp:91-147 | the sending pass gives the same destination again |
| PartitionPasses.EndSending | include/havoqgt/impl/edge_partitioner.hpp:119-139 | after both passes all temporary counts are zero |
| AllToAll.SlotInBounds | include/havoqgt/mpi.hpp:296-309 | every place is in bounds |
| AllToAll.SlotOrder | include/havoqgt/mpi.hpp:296-309 | places are ordered by destination and then by the order of the input |
| AllToAll.SlotsArePermutation | include/havoqgt/mpi.hpp:296-309 | every index is the place of exactly one element |
| AllToAll.SegmentOf | include/havoqgt/mpi.hpp:290-309 | between two displacements lies exactly what goes to that rank |
| AllToAll.CountEdges | include/havoqgt/mpi.hpp:281-288 | the counting pass counts the destinations of the batch, in bytes |
| AllToAll.Displacements | include/havoqgt/mpi.hpp:290-294 | partial sums shifted to start at zero |
| AllToAll.Rearrange | include/havoqgt/mpi.hpp:296-309 | every element is written to its place |
| AllToAll.Group | include/havoqgt/mpi.hpp:267-309 | the whole send side groups the batch stably by destination and leaves the partitioner ready again |
| ExchangeVectors.ReceivedPart | include/havoqgt/mpi.hpp:162-197 | the part received from a rank is the segment it meant |
| ExchangeVectors.ThereAndBack | include/havoqgt/mpi.hpp:162-197 | sending back under the received counts restores every vector |
| ExchangeVectors.AnsweredInPlace | include/havoqgt/mpi.hpp:162-197 | answers sent back arrive at the positions of the questions |
| PointerJumping.NewPointsDown | include/havoqgt/detail/preferential_attachment.hpp:33-59 | a new edge takes the source of the drawn edge, or its target where that is known and a pointer to it where not; so it points at most to an earlier one |
| PointerJumping.JumpHalves | include/havoqgt/gen_preferential_attachment_edge_list.hpp:112-124 | a round keeps what every edge resolves to and halves its depth, rounding down |
| PointerJumping.RoundsNeeded | include/havoqgt/gen_preferential_attachment_edge_list.hpp:59-143 | nothing is left after r rounds iff r exceeds the binary logarithm of the longest chain |
| PointerJumping.MaxIsLongest | include/havoqgt/gen_preferential_attachment_edge_list.hpp:59-143 | no chain is longer than the longest, and one is as long |
| PointerJumping.AllResolvedIff | include/havoqgt/gen_preferential_attachment_edge_list.hpp:59-143 | told edge by edge: nothing is left after r rounds iff r exceeds the binary logarithm of every chain |
| PointerJumpingRounds.Collect | include/havoqgt/gen_preferential_attachment_edge_list.hpp:72-95 | every pointer is requested from its owner and marked |
| PointerJumpingRounds.LookUp | include/havoqgt/gen_preferential_attachment_edge_list.hpp:113-116 | each request is answered with the edge it names |
| PointerJumpingRounds.Store | include/havoqgt/gen_preferential_attachment_edge_list.hpp:122-124 | the answers replace the pointers, nothing else changes |
| PointerJumpingRounds.Round | include/havoqgt/gen_preferential_attachment_edge_list.hpp:59-132 | on all ranks together every edge jumps once, and the reduced count is that of the pointers left |
| PointerJumpingRounds.ResolveAll | include/havoqgt/gen_preferential_attachment_edge_list.hpp:56-143 | the loop ends after floor(log2 d) + 1 rounds with every edge holding what one-at-a-time following gives |
| HashSteps.NextGains | include/havoqgt/detail/hash.hpp:20-38 | undoing a step with a left shift fixes one more low bit in every iteration |
| HashSteps.StepPermutes | include/havoqgt/detail/hash.hpp:20-38 | every step of either hash has a two-sided inverse |
| HashSteps.RunPermutes | include/havoqgt/detail/hash.hpp:20-38 | and so has a whole hash |
| Hash.Hash32 | include/havoqgt/detail/hash.hpp:20-28 | the assignments are the six steps |
| Hash.Hash16 | include/havoqgt/detail/hash.hpp:30-38 | the same on promoted 16-bit words |
| Hash.TruncatedLate | include/havoqgt/detail/hash.hpp:30-38 | promotion is harmless: truncating late is truncating the operands |
| Hash.WindowLaws | include/havoqgt/detail/hash.hpp:40-66 | clearing and filling a window of bits reads back, and filling it again forgets what was there |
| Hash.ShiftedRewrites | include/havoqgt/detail/hash.hpp:40-66 | hashing a window puts the hash of its bits there and leaves every other bit |
| Words.XorBits | include/havoqgt/detail/hash.hpp:20-38 | an exclusive or has a one where exactly one operand has |
| Words.ShiftIsQuotient | include/havoqgt/detail/hash.hpp:40-66 | a right shift by k divides by two to the k |
| Hash.ShiftedPermutes | include/havoqgt/detail/hash.hpp:40-66 | the hash of a window is a permutation of the n-bit numbers |
| Hash.HashNBits | include/havoqgt/detail/hash.hpp:68-94 | every window is hashed in place once upwards and once downwards, bit by bit: there is such a chain of numbers from the input to the result |
| Hash.HashIsChain | include/havoqgt/detail/hash.hpp:68-94 | and every such chain ends with the same number |
| Hash.HashPermutes | include/havoqgt/detail/hash.hpp:68-94 | for every n from 17 to 64 a permutation of the n-bit numbers, with its inverse |
| Hash.ScrambleEdges | include/havoqgt/gen_preferential_attachment_edge_list.hpp:166-175 | the loop reduces and hashes both ends of every edge in place |
| Hash.SameLabelIff | include/havoqgt/gen_preferential_attachment_edge_list.hpp:166-175 | two labels become one vertex iff they are congruent modulo the number of nodes |
| Hash.ScrambledIsomorphicIff | include/havoqgt/gen_preferential_attachment_edge_list.hpp:166-175 | the scrambled graph is isomorphic iff no two labels in use are congruent |
| Hash.SmallLabelsIncongruent | include/havoqgt/gen_preferential_attachment_edge_list.hpp:166-175 | labels below the number of nodes never are |
| Hash.LabelsCollide | include/havoqgt/gen_preferential_attachment_edge_list.hpp:166-175 | a label and the label one number of nodes further become one vertex |
| GeneratedLabels.LastSource | include/havoqgt/detail/preferential_attachment.hpp:61-70 | the last edge's source is at least the number of nodes, for every number of edges per node |
| GeneratedLabels.SourceIs | include/havoqgt/detail/preferential_attachment.hpp:61-70 | edges come vertex by vertex, in blocks of the smaller of s and k for vertex s |
| GeneratedLabels.CongruentPair | include/havoqgt/detail/preferential_attachment.hpp:61-83 | among the generated labels there are two that differ by the number of nodes |
| GeneratedLabels.NeverIsomorphic | include/havoqgt/gen_preferential_attachment_edge_list.hpp:166-175 | so the generator's own edges are never scrambled into an isomorphic graph |

## Left out

- MPI calls, requests, tags, barriers and shared-memory allocation: reliable delivery and collective phases stand for them.
- Graph construction, locators and communicator splitting: a delegate's edges are split over the ranks, and a group is the set of ranks of one colour in world order.
- Vertex and edge predicates of connected components other than the default ones, which accept everything.
- Priority and stack order of the local visitor queue: any queued visitor may be popped, which covers both.
- Batching inside the exchangers: a send that exchanges appears as arrivals in the middle of a visit and as an exchange step between ranks.
- VisitorQueues.VisitorQueue.InitVisitorTraversal: what the mailbox hands out at each send and each last test is given as a finite list; that the lists of all ranks fit together is the schedule's part.
- StagedSchedule.StepRefines: that the stages hand every rank what was queued for it is Exchange.DoExchange; here a rank leaves an exchange once that has happened.
- TerminationLiveness.AllReport: that a rank which can move is given its turn, and that started sends complete, is the scheduler's and the network's part.
- TraversalSchedule.MoveKept: a send or broadcast exchanges only if it has queued a message, as it does with a batch size of at least one.
- TraversalExactness.SsspDistances: weights and lengths are naturals, with a starting value above which a distance is reported as that value.
- TraversalExactness.CopiesAgree: not for shortest paths, whose copies are not refreshed; TraversalCopies.SsspCopies says what they hold instead.
- Traversals other than these three, and the form of the traversal loop that starts from a list of local sources (visitor_queue.hpp:186-203).
- TerminationSafety.ReportIsSafe: two or more ranks, since a single root would also be a leaf; a detector that is not used again after it has reported; counters that do not wrap.
- RingSafety.RingExact: interleavings are sequentially consistent, and the 64-bit counters do not wrap.
- ExchangeTotals.ZeroMeansEmpty: totals are naturals, not 64-bit words.
- TrussDecomposition.KTrussUnroll: graphs without delegates, since the loop at ktruss_unroll.hpp:845-846 copies none of the delegates' directed edges.
- Parallel edges in triangle counting and k-truss decomposition.
- Mailbox.RankMailbox.Send: sends are counted in messages, as the plain exchanger counts them; one that serializes counts bytes.
- The 32-bit width of triangle counts and degrees.
- LocalConstraintFixpoint.CheckLocalConstraints: one fresh call without delegate copies and without a preceding token pass, after which cached and shared bits could differ.
- TokenPassingExactness.PassTokens: closed cycle constraints; open paths, joined paths and restriction to selected vertices are not modelled.
- AllToAll.Group: the receive side, which only calls MPI, and counts beyond 32 bits.
- PointerJumping.NewPointsDown: the random generator and the closed form of the source enter as parameters.
- GeneratedLabels.NeverIsomorphic: edges that are not rewired, on a number of ranks that divides theirs; the square roots of the closed forms are multiplied out, so their rounding in floating point is not modelled.
- Template-driven search, page rank, the other generators, file readers, stores, command lines and timing.
