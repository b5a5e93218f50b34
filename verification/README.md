# Verified model of VeriCCL's simulator, composer, control protocol and budgets

This project restates the parts of VeriCCL that are hardest to get right and proves what they are for:

* **The exact cost simulator** (`Graphs`, `Kahn`, `CostModel`, `Components`, `Rates`, `RateChoice`, `Replaying`,
  `Faithfulness`, `Determinism`, `Simulation`, `Predictor`, `Uniqueness`, `Bounds`). An acyclic executable is replayed
  event by event with exact rates. A successful run is shown to satisfy `Faithfulness.Faithful`, a description without any loop: every
  available operation starts exactly when its release time and its dependencies allow, pays one startup chosen for the
  mode it is launched into, drains its payload to the byte over rounds that leave no gap, and ends once. Any two
  faithful replays of an executable have the same times, and a prediction succeeds exactly when one exists. Bandwidth
  and critical-path bounds follow from the description alone. Running never stalls and always terminates.
* **List scheduling and retiming** (`ListScheduler`, `GreedySchedule`, `Timing`). Greedy schedules never overlap on
  a lane or slot, fail exactly on cyclic dependencies, and replaying one in its own order gives it back unchanged.
* **Reversing all-gather trees** (`DualTrees`, `TreeCheck`, `Reversal`, `Aggregates`, `ReduceSchedule`). The tree
  check accepts exactly the edge sets of trees; reversing accepted trees conserves the contributors at every step,
  consumes every aggregate state once, and is never stuck.
* **Splicing stage schedules along a plan** (`AtomPaths`, `PlanOrder`, `Composition`, `ComposeSafety`, `ComposeOrder`,
  `ComposeUnique`, `Compose`, `ComposeFinals`). A composition is defined without a processing order; a plan has at
  most one, and the composer returns it exactly when it exists. Its transfers wait for each other without a
  cycle and every path is a contiguous walk from the source of its slice.
* **The rank-agreement protocol and execution on top of it** (`ControlTransport`, `Gathering`, `LateFrames`, `Lifecycle`,
  `Execution`, `Success`). Over lost, repeated and reordered frames all ranks that return from a sequence return the same
  vector; a valid output on one rank implies completion, evidence and release on every rank, and groups of every size
  whose frames fit have runs that get there.
* **Budget leases** (`BudgetBooks`, `BudgetRestore`, `Budgeting`, `BudgetRuns`). Slots and deadlines nest in every
  state of every run, and over any mix of rounds and resumes consumption exceeds totals and per-round limits by at most
  the time by which a root lease was closed late.
* **Two compact algorithms**: the streaming redactor (`StreamRedaction`) and the phase-time sweep (`PhaseTiming`).

Each module is in the file of its name; `Basics` holds what several of them share.

Code that updates state in place is a class or a method with loops, proved against functions and predicates on
values; the theorems are lemmas about those.

Times, rates and byte counts use exact `real` arithmetic, which is what `predict(exact=True)` computes with.
Identifiers that the source keeps as strings (operations, transfers, resources, plan nodes) are numbers with the same
order. Lookups that may fail return `Option` or `Result`.

Four results about where the code and its expectations differ, each with its condition and a concrete case; the first
three conditions are exact, the last is a bound that is reached:

* `StreamRedaction.OnlineEqualsBatch`: redacting a stream equals redacting the whole text for every chunking if and
  only if no secret is a proper prefix of a secret listed before it (unless that one can never be selected). The
  redactor orders secrets longest first (`vericcl/execution/security.py:29-33`), so such pairs occur;
  `LongestFirstCanSplit` gives an input on which a stream differs from the batch.
* `Gathering.NoFault`: while ranks agree on phases and sizes, the coordinator has not failed the group if and only if
  every frame it read came from a rank and was read before its round was evicted. Eviction does not wait for frames
  still under way: `LateFrames.LateFrameFailsGroup` is a run of one honest rank in which a second reading of an answered
  frame, three rounds later, fails the group.
* `Aggregates.RoutingAggregates`: aggregate metadata is refused for a well-formed tree exactly when a rank of the tree
  has no data of its own or the contributors do not share one logical position. `Aggregates.RelayIsNotGrounded` is a
  valid tree with a relaying rank that is refused.
* `BudgetRuns.BudgetWithinLateness`: a stage's consumption stays within its limits up to the greatest lateness with which
  a root lease was closed or saved, so within the limits themselves if roots end on time. For any limits that leave a root
  lease time at all, `BudgetRuns.LatenessIsSpent` is a run that spends the tightest limit and the lateness on top; for
  the others `BudgetRuns.GrantNeedsTime` says that no root lease is ever granted.

## Model

| member | source | states |
|---|---|---|
| StreamRedaction.OnlineEqualsBatch | vericcl/execution/security.py:92-114 | for nonempty secrets, every chunking of every text emits the batch output if and only if no selectable secret has a proper prefix listed after it |
| StreamRedaction.StreamIsRedact | vericcl/execution/security.py:98-114 | feeding any chunks and then finalizing emits the leftmost replacement of held bytes, chunks and last chunk together |
| StreamRedaction.FeedThenMore | vericcl/execution/security.py:98-114 | output emitted by a non-final feed, followed by the batch output of the held bytes and any later text, is the batch output of everything |
| StreamRedaction.FinalFeedIsRedact | vericcl/execution/security.py:98-114 | a final feed emits the batch output and holds nothing back |
| StreamRedaction.HeldIsProperPrefix | vericcl/execution/security.py:98-114 | what a non-final feed holds back is empty or a proper prefix of a secret |
| StreamRedaction.UnsafePairSplits | vericcl/execution/security.py:98-114 | any pair that breaks the condition is split by cutting the longer secret where the shorter one ends |
| StreamRedaction.LongestFirstCanSplit | vericcl/execution/security.py:29-33 | longest-first order breaks the condition: a concrete pair and chunking whose output differs from the batch |
| StreamRedaction.StreamRedactor.Feed | vericcl/execution/security.py:98-114 | the run-copying loop emits and keeps exactly what the byte-wise definition says |
| PhaseTiming.SpanTakesOver | vericcl/experiments/overhead.py:28-71 | a further span takes over exactly the instants it covers and at which no earlier span is preferred; every other instant keeps its charge |
| PhaseTiming.PhaseTimer.BreakdownNs | vericcl/experiments/overhead.py:45-71 | every name is charged exactly the instants at which its span wins among the covering ones |
| PhaseTiming.ExclusiveTimesPartitionUnion | vericcl/experiments/overhead.py:45-71 | the exclusive times add up to the measure of the union of all spans |
| PhaseTiming.NothingOutsideExtent | vericcl/experiments/overhead.py:45-71 | no instant covered by a span is missing from that union |
| PhaseTiming.ActiveIsCovering | vericcl/experiments/overhead.py:58-70 | applying the changes of a stamp turns the spans covering the previous stamp into those covering this one |
| Graphs.StuckProvesCyclic | vericcl/performance/simulation.py:46-66 | a nonempty set in which everyone waits for a member proves a cycle |
| Graphs.SomeNodeReady | vericcl/performance/simulation.py:46-66 | in an acyclic relation some unfinished node waits for finished ones only |
| Kahn.CheckAcyclic | vericcl/performance/simulation.py:46-66 | degree counting reaches every node if and only if the dependencies are acyclic; the degrees and followers returned are those of the relation |
| CostModel.ServiceIsUnique | vericcl/performance/model.py:67-99 | size domains of a valid model are disjoint, so whichever cost covers a size is the one returned |
| CostModel.DomainsAscend | vericcl/performance/model.py:67-95 | every earlier size domain ends before every later one begins |
| CostModel.FirstCovering | vericcl/performance/model.py:97-98 | the cost found covers the size, and none is found only when none covers it |
| Components.GrownAndApartIsComponent | vericcl/performance/simulation.py:69-87 | a group grown by competition and apart from the rest is a connected component |
| Components.FindComponents | vericcl/performance/simulation.py:69-87 | the groups are exactly the connected components under shared resources, disjoint and complete |
| Rates.ProfileOf | vericcl/performance/simulation.py:90-94 | the single profile that applies to a group, none, or the ambiguity error |
| Rates.FairSharesFit | vericcl/performance/simulation.py:113-131 | fair rates through a resource add up to at most its capacity |
| Rates.GroupRates | vericcl/performance/simulation.py:97-131 | the rates of a group are its profile's or fair, within every capacity; refused exactly for the stated reasons |
| Rates.MergeCapacity | vericcl/performance/simulation.py:97-133 | rates of groups that share no resource stay within capacity when merged |
| Rates.ActiveRates | vericcl/performance/simulation.py:97-133 | every active operation gets the rate of its component or its own inverse cost, within capacity; an error means some component refuses |
| Rates.FairAcrossGroups | vericcl/performance/simulation.py:126-131 | a fair rate inside a component is the fair rate among all active users, since users of a resource share a component |
| Rates.RatesWithoutProfiles | vericcl/performance/simulation.py:126-131 | without profiles no rate exceeds its own inverse cost and communication rates are fair among all active communication |
| RateChoice.RatedUnique | vericcl/performance/simulation.py:97-133 | a mode has at most one assignment of rates |
| RateChoice.RefusedIsUnrated | vericcl/performance/simulation.py:97-133 | a mode with a refused component has none |
| RateChoice.AmbiguousIsUndecided | vericcl/performance/simulation.py:90-94 | a component to which several profiles apply has no decided profile in any mode that contains it |
| Replaying.CompleteWaits | vericcl/performance/simulation.py:180-190 | completing an operation keeps the wait counts equal to the unfinished dependencies and the heap equal to what is releasable |
| Replaying.StartIsExact | vericcl/performance/simulation.py:206-225 | an operation taken from the heap starts exactly at the latest of zero, its release and its dependencies' ends |
| Replaying.BeginFlowKeeps | vericcl/performance/simulation.py:199-205 | finishing a startup keeps the replay invariant |
| Replaying.LaunchKeeps | vericcl/performance/simulation.py:222-240 | launching with the startup of the launch-time mode keeps the replay invariant |
| Replaying.LaunchNopKeeps | vericcl/performance/simulation.py:222-229 | a NOP starts and ends at once and keeps the invariant |
| Replaying.AdvanceKeeps | vericcl/performance/simulation.py:256-261 | draining to the next event keeps the invariant and never needs the clamp at zero |
| Replaying.FinishKeeps | vericcl/performance/simulation.py:262-265 | ending a drained operation keeps the invariant |
| Simulation.LaunchAlphas | vericcl/performance/simulation.py:211-221 | the startup of each launched operation is that of the profile of its launch-time component, or its own |
| Simulation.LaunchDue | vericcl/performance/simulation.py:206-240 | everything due is launched at this instant; work strictly decreases whenever something was due |
| Simulation.NextIsEvent | vericcl/performance/simulation.py:246-257 | the chosen time lies strictly ahead and no event is passed, so the precision error is unreachable; an operation is drained exactly when its finish time is chosen |
| Simulation.NeverStalls | vericcl/performance/simulation.py:250-253 | with nothing released, starting or active nothing is pending, so the stall error is unreachable |
| Simulation.TimeStep | vericcl/performance/simulation.py:244-265 | a time step keeps the invariant and the termination measure, or nothing is left at all |
| Determinism.SamePresent | vericcl/performance/simulation.py:206-221 | the operations present in a launching pass of the loop are those present there in every faithful replay |
| Determinism.UndecidedRefutes | vericcl/performance/simulation.py:211-221 | a launching pass with an ambiguous component leaves no faithful replay at all |
| Determinism.QuietTillNext | vericcl/performance/simulation.py:244-257 | in every faithful replay nothing starts, begins to flow or ends before the time the loop chooses |
| Determinism.AgreeAdvance | vericcl/performance/simulation.py:256-261 | after draining to that time the loop still agrees with every faithful replay |
| Determinism.RefusedRatesRefute | vericcl/performance/simulation.py:244-249 | refused rates leave no faithful replay |
| Simulation.Run | vericcl/performance/simulation.py:196-265 | the loop terminates with nothing pending and times forced on every faithful replay, or refuses a mode, and then no faithful replay exists |
| Predictor.Unavailable | vericcl/performance/simulation.py:151-174 | the least set closed under missing costs, dependencies and shared resources |
| Faithfulness.FinalIsFaithful | vericcl/performance/simulation.py:192-265 | a finished replay satisfies the loop-free description of a faithful one |
| Predictor.Predict | vericcl/performance/simulation.py:136-279 | the cycle error exactly for cyclic executables; success exactly when the available operations of an acyclic one have a faithful replay, with its times, the latest ends as predicted and output times, and the missing entries listed |
| Predictor.PredictionIsUnique | vericcl/performance/simulation.py:136-279 | an executable has at most one prediction |
| Uniqueness.FaithfulIsUnique | vericcl/performance/simulation.py:192-265 | any two faithful replays of one plan start, begin to drain and end every operation at the same times |
| Uniqueness.LeadsToEnd | vericcl/performance/simulation.py:196-265 | while some faithful replay exists, every state the loop can be in leads to a finished replay |
| Predictor.NothingRefused | vericcl/performance/simulation.py:90-124 | without profiles and with distinct flows no replay error is possible |
| Faithfulness.TilesAreExact | vericcl/performance/simulation.py:258-261 | the rounds that drain an operation are exactly those between its startup and its end |
| Faithfulness.RoundHoldsInFlight | vericcl/performance/simulation.py:244-265 | a round rates an operation if and only if it is in flight throughout the round |
| Bounds.EveryInstantFits | vericcl/performance/simulation.py:97-133 | at every instant exactly the operations in flight drain, within the capacity of every resource |
| Bounds.BandwidthBound | vericcl/performance/simulation.py:244-265 | the bytes of all available users of a resource fit its capacity times any time by which they end |
| Bounds.PredictedBandwidth | vericcl/performance/simulation.py:266-268 | total bytes through a resource are at most capacity times the predicted time |
| Bounds.AtLeastServiceTime | vericcl/performance/simulation.py:126-131 | without profiles an operation lasts at least its startup plus payload times inverse rate |
| Bounds.CriticalPath | vericcl/performance/simulation.py:240-265 | a dependency chain ends no earlier than the sum of its services |
| Bounds.PredictedCriticalPath | vericcl/performance/simulation.py:266-268 | the predicted time is at least the service along any dependency chain |
| ListScheduler.NoOverlap | vericcl/composer/timing.py:193-292 | of two transfers that share a lane or slot the one scheduled first ends before the other starts |
| ListScheduler.WaitsEndFirst | vericcl/composer/timing.py:193-292 | semantic predecessors end by the ready time, which is no later than the start |
| ListScheduler.StartsAscend | vericcl/composer/timing.py:193-292 | picks come in nondecreasing start order |
| ListScheduler.GreedyIsAcyclic | vericcl/composer/timing.py:267-285 | the recorded predecessors are acyclic and contain the semantic ones |
| ListScheduler.GreedySolves | vericcl/composer/timing.py:193-292 | each start is the latest end among the recorded predecessors |
| ListScheduler.UniqueTimes | vericcl/composer/timing.py:193-292 | acyclic predecessors determine all times |
| GreedySchedule.ListSchedule | vericcl/composer/timing.py:193-292 | the least candidate by start, old start and identifier is placed at every turn; fails exactly when the semantic relation is cyclic |
| Timing.Recompute | vericcl/composer/timing.py:151-292 | greedy retiming, refused exactly for a semantic cycle |
| Timing.CheckIntervals | vericcl/composer/timing.py:117-148 | accepts exactly the timings in which no two positive-length transfers overlap on a lane or slot |
| Timing.GreedyIsExclusive | vericcl/composer/timing.py:117-148 | greedy timings pass that check |
| Timing.Replay | vericcl/composer/timing.py:187-299 | fixed-order retiming: its times solve the predecessor equations, and each error is raised exactly under its condition |
| Timing.ReplayOfGreedy | vericcl/composer/timing.py:187-299 | replaying a greedy retiming in its own order returns it unchanged |
| Timing.RecomputeThenReplay | vericcl/composer/timing.py:151-299 | both runs agree on every input, success or error |
| DualTrees.OwnerExists | vericcl/composer/dual.py:375-380 | every contributor below a rank is the local member of exactly one rank below it |
| DualTrees.LocalsPartition | vericcl/composer/dual.py:61-103 | the local members partition the contributors of a valid tree |
| DualTrees.SendKeepsPartition | vericcl/composer/dual.py:286-352 | a send whose children are done merges two disjoint live aggregates and keeps the partition |
| DualTrees.LiveIsPartition | vericcl/composer/dual.py:286-352 | in every bottom-up order the live aggregates partition the contributors at every point |
| TreeCheck.WalkToRoot | vericcl/planner/dual.py:78-94 | reaches the root, or the edges form no tree |
| TreeCheck.ValidateTree | vericcl/planner/dual.py:50-120 | accepts a group of transfers if and only if they are the edges of a valid reduction tree, and returns it |
| TreeCheck.Owners | vericcl/composer/dual.py:375-380 | in a valid tree every contributor has its one source recorded, so neither source error can arise |
| Reversal.MakeDrafts | vericcl/composer/dual.py:61-103 | one draft per edge, sent upwards, waiting for exactly the drafts of its source's children |
| Reversal.Chain | vericcl/composer/dual.py:180-206 | each accumulation also waits for the previous one into the same accumulator, in identifier order |
| Reversal.ChainedIsLocal | vericcl/composer/dual.py:180-206 | chaining adds waits only between drafts into the same rank of the same tree |
| Reversal.DraftsAcyclic | vericcl/composer/dual.py:61-206 | reversed and chained dependencies of valid trees are acyclic |
| Aggregates.LogicalPosition | vericcl/composer/dual.py:209-215 | the common position of all contributors, refused exactly when they have several or there are none |
| Aggregates.Conservation | vericcl/composer/dual.py:286-352 | after any set of completed drafts the live aggregates of every tree partition its contributors |
| Aggregates.StepIsClean | vericcl/composer/dual.py:297-345 | a ready draft merges two unconsumed, disjoint states of equal position at the right ranks into an unused version |
| Aggregates.ReduceKeeps | vericcl/composer/dual.py:297-352 | one reduction keeps the aggregation sound and linear |
| Aggregates.NeverStuck | vericcl/composer/dual.py:286-296 | some pending draft is always ready |
| Aggregates.RoutingAggregates | vericcl/composer/dual.py:243-372 | succeeds exactly when every rank of every tree has data of its own and every tree one position; every state is consumed at most once and every root ends with all contributors |
| Aggregates.RelayIsNotGrounded | vericcl/composer/dual.py:264-270 | a valid tree at one position with a rank that only relays, for every slice grid |
| ReduceSchedule.ScheduleDrafts | vericcl/composer/dual.py:106-169 | the drafts of valid trees are always list-scheduled; the cycle error cannot arise |
| ReduceSchedule.ReverseTrees | vericcl/composer/dual.py:412-456 | both branches from valid trees: drafts and times, and with routing only also accumulator chains and aggregates; refused exactly with routing only for ungrounded trees |
| ReduceSchedule.MemberReaches | vericcl/composer/dual.py:383-405 | every member of a draft has a path from its only source to the draft's destination |
| ReduceSchedule.SlotsTakeTurns | vericcl/composer/dual.py:106-169 | unless only routing matters, reversed transfers that share a lane or slot run one after the other |
| ReduceSchedule.MemberPath | vericcl/composer/dual.py:383-405 | in both branches the walk up the tree from the only source of a member, with nondecreasing ready times |
| AtomPaths.PlaceholderPath | vericcl/composer/compose.py:250-277 | the clock carried through the stages only delays each hop to the arrival of the earlier path; the start is the latest of start and both arrivals |
| AtomPaths.SplicedIsWalk | vericcl/composer/compose.py:250-277 | where the earlier path ends at the stage's root the spliced path is a walk that arrives at the later of both arrivals, and fails the chain check exactly when the stages do not ascend at the seam |
| AtomPaths.ConcatValid | vericcl/semantics/atom.py:129-144 | two valid chains join into one exactly when the second follows the first |
| PlanOrder.TopologicalNodes | vericcl/composer/compose.py:84-102 | nodes after all their producers, the least ready one first; complete if and only if the plan is acyclic |
| PlanOrder.LeastFirstIsUnique | vericcl/composer/compose.py:84-102 | no other order takes the least ready node first |
| Compose.IncomingProducers | vericcl/composer/compose.py:242-247 | for every consumer and slot the producer of the last edge that carries it |
| Compose.GatherInputs | vericcl/composer/compose.py:404-422 | the values a node receives, refused exactly when an input has neither a producer nor a matching initial value |
| Compose.ComposeTransfer | vericcl/composer/compose.py:424-483 | a transfer with spliced atoms, the latest start, its duration, and semantic, receiver and input dependencies; refused exactly when no such transfer exists |
| Compose.ComposeTransfers | vericcl/composer/compose.py:423-489 | all transfers of a node, a reused identifier only with equal content; refused exactly when impossible |
| Compose.Ancestors | vericcl/composer/compose.py:343-357 | the least set closed under semantic predecessors, refused exactly when a predecessor is missing |
| Compose.OutputPathTransfers | vericcl/composer/compose.py:332-361 | the matches first, then their other ancestors by identifier |
| Compose.OutputValue | vericcl/composer/compose.py:504-549 | what an output waits for and each contribution's path, from the first arrival at its rank or from the input; refused exactly when undefined |
| Compose.ComposeSchedules | vericcl/composer/compose.py:364-549 | returns the composition of an acyclic plan, or an error exactly when there is none; the missing-producer error is unreachable |
| ComposeUnique.CompositionIsUnique | vericcl/composer/compose.py:404-549 | a plan has at most one composition, whatever the processing order |
| ComposeSafety.SplicedExactly | vericcl/composer/compose.py:436-444 | an atom can be spliced exactly when one input holds its contribution and the stages ascend |
| ComposeSafety.EveryTransferIsGlobal | vericcl/composer/compose.py:404-549 | every composed transfer passes the checks of a global schedule: contiguous walks from the slice's rank, nondecreasing ready times, arrival before start |
| ComposeSafety.EveryValueArrives | vericcl/composer/compose.py:504-549 | each stored path is empty at its own rank or walks from the slice's rank to the slot's rank; dependencies are composed transfers |
| ComposeOrder.ComposedIsAcyclic | vericcl/composer/compose.py:404-490 | for an acyclic plan of acyclic node schedules the composed predecessors are acyclic, also when identifiers are reused |
| ComposeOrder.TravelledIsAwaited | vericcl/composer/compose.py:504-549 | a contribution that has moved is never handed on without a transfer to wait for |
| ComposeFinals.FinalDependencies | vericcl/composer/compose.py:550-571 | the dependencies of the producer with the highest stage and identifier, refused exactly when some output has no producer |
| ComposeFinals.FinalOutputsArrive | vericcl/composer/compose.py:550-571 | every contribution of a final output has walked from its source to the output's rank, and is waited for if it had to move |
| ControlTransport.Coordinator.Request | runtime/execution/control_transport.cc:87-109 | the new rounds, next sequence and fault for every frame: joined, repeated, conflicting, oversized, wrong phase or outside the retained window |
| ControlTransport.Coordinator.EvictOld | runtime/execution/control_transport.cc:106-108 | exactly the two largest sequences are kept |
| Gathering.RunKeeps | runtime/execution/control_transport.cc:87-151 | every state of every run satisfies the protocol invariant, including that each rank is at the open sequence or the one before |
| Gathering.Agreement | runtime/execution/control_transport.cc:175-192 | two ranks that return from a sequence return the same vector, whose r-th entry is what rank r sent for that phase |
| Gathering.OwnRequestInBoundary | runtime/execution/control_transport.cc:87-94 | what a live rank is sending is always within the retained window |
| Gathering.FatalExactly | runtime/execution/control_transport.cc:87-109 | a processed frame fails the group exactly under the stated conditions, never as a conflicting duplicate, and as out of window only when its round is long evicted |
| Gathering.ContributionsAreImmutable | runtime/execution/control_transport.cc:93-107 | processing never changes a contribution, a phase or a published reply |
| Gathering.NoFault | runtime/execution/control_transport.cc:87-151 | in runs with agreed phases and sizes the coordinator has not failed exactly when every frame read was a rank's own and its round not yet evicted |
| LateFrames.LateFrameFailsGroup | runtime/execution/control_transport.cc:87-109 | a run of one honest rank, of any length, that ends in failure when an answered frame is read again three rounds later |
| Gathering.Refines | runtime/execution/control_transport.cc:175-192 | every step is a caller's step or invisible to callers: retransmission, duplication and loss change nothing |
| Lifecycle.ApplyKeeps | runtime/execution/execute_impl.h:22-77 | every step of a rank keeps its ownership invariant |
| Lifecycle.GroupKeeps | runtime/execution/execute_impl.h:36-77 | every step of the group keeps the joint invariant |
| Lifecycle.NewlySpread | runtime/execution/execute_impl.h:36-77 | the step that makes an output valid, or launches it, finds the whole group completed and released, or committed |
| Lifecycle.ValidTogether | runtime/execution/execute_impl.h:36-77 | over any transport that hands everyone the contributions sent, a valid output on one rank implies completion, evidence and release on all |
| Execution.FullKeeps | runtime/execution/execute_impl.h:22-77 | every step of contexts, coordinator and wire together keeps the whole invariant |
| Execution.GroupWideSuccess | runtime/execution/execute_impl.h:36-77 | a valid output on any rank implies GPU completion, published evidence and a released guard for the same request, version and contract on every rank |
| Success.SuccessIsReached | runtime/execution/execute_impl.h:22-77 | for a group of any size whose frames fit, a run of contexts, coordinator and wire that ends with a valid output on every rank |
| Success.Exchange | runtime/execution/control_transport.cc:87-192 | from ranks at one point, a run in which all send, all frames are read, and all return with everyone's contributions and go on as the phase says |
| Execution.LaunchedOnlyIfCommitted | runtime/execution/execute_impl.h:36-52 | no rank launches before every rank has committed the request |
| Execution.OwnershipIsSafe | runtime/execution/api.cc:68-101 | incomplete GPU work keeps its guard; an idle certain or closed context retains nothing; buffers are given up only with the stream stopped |
| Execution.CloseOwnsItsStream | runtime/execution/api.cc:224-250 | closing never meets incomplete GPU work without an owned stream |
| Budgeting.BudgetManager.AcquireRoot | vericcl/execution/budget.py:173-211 | grants exactly when nothing refuses, with the deadline of both limits and the task, and changes nothing otherwise |
| Budgeting.BudgetManager.AcquireModel | vericcl/execution/budget.py:173-211 | grants exactly when nothing refuses: threads and a slot under the open root of the same stage, deadlines inside the parent's; refusals name their reason |
| Budgeting.BudgetManager.Close | vericcl/execution/budget.py:213-232 | charges and closes, marks unresolved, or refuses for an unknown lease or open children, exactly so |
| Budgeting.BudgetManager.StartTuningRound | vericcl/execution/budget.py:234-245 | resets the round counters exactly when another round is allowed |
| Budgeting.BudgetManager.RestoreUsage | vericcl/execution/budget.py:256-284 | accepted exactly when nothing is open and nothing is refunded, and then sets the usage |
| Budgeting.BudgetManager.TakeSnapshotNow | vericcl/execution/budget.py:247-254 | usage, threads in use, and the open leases with stage, kind, threads, cleanup mark, start, deadline and elapsed time |
| BudgetBooks.RootKeeps | vericcl/execution/budget.py:173-211 | a granted root keeps the lease invariant |
| BudgetBooks.ModelKeeps | vericcl/execution/budget.py:173-211 | a granted model keeps it: slots, nesting and parents |
| BudgetBooks.ClosedKeeps | vericcl/execution/budget.py:213-232 | closing a lease without open children keeps it |
| BudgetBooks.NewRoundKeeps | vericcl/execution/budget.py:234-245 | a round reset keeps it, even under an open root |
| BudgetRestore.RestoredKeeps | vericcl/execution/budget.py:256-284 | restored usage keeps the invariant and refunds nothing |
| BudgetRestore.ChargeActive | vericcl/workflow_state.py:192-202 | every interrupted lease is added to its stage's total and round, or model work, and downtime to the wall clock; a round usage missing from the checkpoint counts as zero |
| BudgetRestore.ChargeIsBounded | vericcl/workflow_state.py:192-202 | an interrupted lease is charged at least its running time and at most up to its deadline |
| BudgetRestore.CheckpointKeepsLimits | vericcl/workflow_state.py:192-202 | what a checkpoint charges is at least what was consumed and exceeds the limits by no more than the lateness so far |
| BudgetRestore.CheckpointIsRestorable | vericcl/workflow_state.py:192-202 | a fresh manager with the same stages always accepts it |
| BudgetRuns.RunKeeps | vericcl/execution/budget.py:173-284 | every state of every run of acquisitions, closings, rounds and resumes satisfies the invariant of the books, however late its callers are |
| BudgetRuns.BudgetWithinLateness | vericcl/execution/budget.py:173-284 | in every run in which no root is closed or saved later than a given time after its deadline, each stage stays within its total and its per-round limit plus that time |
| BudgetRuns.LatenessIsSpent | vericcl/execution/budget.py:213-232 | for any limits that leave a root lease time: a run whose stage has spent the tightest limit and the lateness, of its total and of its round |
| BudgetRuns.GrantNeedsTime | vericcl/execution/budget.py:173-188 | no run grants a root lease, after the start, to a stage whose tightest limit is within the cleanup reserve |
| BudgetRuns.BudgetIsConserved | vericcl/execution/budget.py:173-284 | with roots closed on time no stage ever exceeds its total or per-round limit |
| BudgetRuns.LeasesAreNested | vericcl/execution/budget.py:173-232 | in every state of every run slots in use equal those of open models and fit, each stage has one open root, and every open model nests inside its open parent |

## Left out

- Floating-point mode of `predict` and rounded times in the composer: the exact theorems do not hold under rounding.
- Source labels, coverage, used and unmeasured entries, and the event lists of a prediction; the service cost and the rates they describe are modelled.
- The applicability context that must agree between executable and cost model, and the context of measured profiles, which are compared for equality before anything modelled here.
- Lease and budget checks sprinkled through the simulator and composer as cancellation points.
- Orders that cannot be observed: queues, heaps and dictionaries are sets where only which of several errors is named first depends on the order.
- Predictor.Predict: when the rates refuse an executable in several ways, which of them is named first is not stated; that one is named exactly when no faithful replay exists is.
- Timing.Recompute: topology validation, atom rewriting and final-dependency bookkeeping in `_retime` are not modelled; its times and predecessors are.
- Timing.Replay: the same parts of `_retime` are not modelled in its fixed-order mode.
- ReduceSchedule.ReverseTrees: the sorted output, channels and symbol metadata of `reverse_allgather_schedule` are not modelled; lanes, slots and durations are given per transfer.
- Slice-size, hop-count, participant and priority metadata in the composer.
- Aggregates.RoutingAggregates: initial states that become terminal without a reduction are put in the table of active states, which the source leaves implicit.
- TreeCheck.ValidateTree: the lookup of a target slot and of metadata for a group is not modelled, only the tree conditions.
- ReduceSchedule.MemberPath: final output keys and metadata of `reverse_allgather_schedule` are not modelled.
- Compose.ComposeSchedules: node schedules are taken with their metadata present and of scope `stage_suffix`; the shape checks of the metadata, and the check that no input is supplied twice, are left to the plan's and schedule's constructors.
- Compose.OutputValue: contributors are compared as sets, so the tuple layout of `final_outputs` is not modelled.
- Global resource assignment after composition, XML lowering, the solvers and the planner: represented by hypotheses on their outputs.
- Sockets, framing, poll loops, threads, condition variables and deadlines: nondeterministic steps. A waiting `acquire` is a caller that tries again; the clock is read once per critical section.
- ControlTransport.Coordinator.Request: sequence numbers do not wrap at 64 bits, the size of a reply is not limited, and the session identity and the address checks of a frame appear only as a foreign frame that fails the group; message sizes are an arbitrary function of the payload plus the fixed envelope.
- Clock sampling, tracing, preparation and release details, and statistics in the runtime; other operations appear as exchanges that may finish or fail, and are taken not to use the eight phase names of a request, although `driver_exchange` accepts any name (`runtime/execution/api.cc`).
- SHA-256 of contracts: a contract is compared as an identifier.
- Files, checkpoint archives, process identity and ownership records around `restore_checkpoint`.
- The share of total time in `PhaseTimer.payload`, and the redaction of argument lists and nested values, which read off one branch.
