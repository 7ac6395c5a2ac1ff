# EEFT-Sched: a verified model

EEFT-Sched simulates a mixed-criticality system: several processors, each a process whose cores are
threads ticking in step. An offline tool gives every task a virtual deadline per criticality level
and places tasks and replicas on cores; at run time the cores release jobs, hand jobs to each other,
change criticality level, sleep and scale their frequency. This project models the parts of it whose
correctness is hard to see from the code and proves what they promise.

## How the model is built

Each module follows one component. Offline tools and per-core code that work step by step on
objects are methods with loops, over classes with the source's fields, and are proved against
specification functions or relations. Code that several threads run at once is a transition system: one step is
one critical section or one atomic action, runs are arbitrary interleavings of enabled steps, and the
main results hold in every reachable state.

| module | component | what is proved |
|---|---|---|
| Demand, DemandBound | demand-bound function and its finite test | closed form, shift lemma, exactness of the finite test |
| Search, TuneMode, Tuner, TunerLimits, TunerTrace | tuning of virtual deadlines on one core | the greedy search is refined in place; it fails exactly if it gets stuck; what success and failure mean |
| Allocator | placement of tasks and replicas | one primary and all replicas, on different processors, each on the first core in turn that can take it |
| Numbers, Horizon | `gcd`, `safe_lcm`, horizon folds | equal to the capped least common multiple |
| Slack, SlackMeaning, Dvfs | slack analysis, frequency scan, admission | exactly which arrivals and how much work count; checkpoints settle every instant; early exit agrees with full search |
| RingBuffer | lock-free multi-producer multi-consumer queue | element by ticket, exclusive slots, `clear` |
| Barrier, Tick | reusable barrier and the tick protocol | no early pass, one serial result, stable state inside a tick |
| CritLevel | the shared criticality level | boundary levels never decrease; exact with loopback |
| JobLife, JobPlaces, PoolAccess | job pool, reference counts, migration tickets | counts equal holders; slots live or on one free list, which only its own thread touches without a lock |
| Delegation | delegated future arrivals, sleep intervals | exactly which arrivals are served, lost or released twice; bookkeeping bounds |
| Common, Sorted, List, RunQueue | shared definitions, queues, intrusive lists, dispatch, mode change | pointer operations refine sequences; earliest deadline first |

Assumptions: numbers that the source keeps in floating point are exact reals; atomic actions are
sequentially consistent; the 64-bit tickets and the barrier cycle counter do not wrap; criticality
levels are contiguous from 0, task ids are unique, execution times are at least 1 and grow with the
level, and deadlines do not exceed periods. Messages between processors are whatever sequence of
levels or completions arrives. Admissibility of a job in the protocol modules (JobLife, Delegation)
and losses of messages are nondeterministic inputs; the admission test itself is modelled in Dvfs.

Where the code does less than one might expect, the code is modelled as it is; one member gives an
example and another the condition under which it happens:

- the steady state is not tested on a core without a task above level 0: `TunerLimits.SteadyStateSkipped`,
  and exactly when it fits all the same: `Tuner.SteadyStateExact`;
- the cap on the tested length hides violations: `TunerLimits.CapHidesViolation`, and exactly when a tuned
  core fits every length: `Tuner.SettledExact`;
- the greedy search can refuse tasks that other deadlines would have let share a core:
  `TunerLimits.RefusesThoughFitting`; it misses only choices that are earlier for a task whose reduction
  was given back, and only at level 0: `Search.MissesOnlyEarlier`;
- a full deadline array hides demand: `Slack.FullArrayHidesDemand`, and exactly when the slack found
  holds at every instant: `Slack.PositiveSlackExact`; it always does with room for all of them:
  `Slack.LargeArraySuffices`;
- a lost broadcast can lower a core's own level: `CritLevel.LostBroadcastLowersLocal`, and exactly
  when a level can fall in a tick: `CritLevel.LevelCanFallExactly`; it never does if all broadcasts
  come back: `CritLevel.LocalNeverDecreases`;
- a core that sleeps while its level goes down can lose an arrival:
  `Delegation.LoweredLevelLosesArrival`, and exactly which arrivals are lost:
  `Delegation.ServedExactly`, `Delegation.LostExactly`;
- a late acknowledgement gives two jobs for one arrival: `Delegation.LateAckGivesTwoJobs`, and exactly
  when: `Delegation.TwoJobsExactly`.

## Model

| member | source | states |
|---|---|---|
| Demand.DbfClosedForm | tools/task_allocator.py:84-111 | demand over k whole periods and a rest x is k times the execution time plus the demand of the one window that x reaches into, although the code computes it by floor division and a correction |
| Demand.DbfMonotone | tools/task_allocator.py:84-111 | the demand of a task is never negative and never decreases with the interval length |
| Demand.DbfPeriodic | tools/task_allocator.py:84-111 | lengthening the interval by j periods adds exactly j execution times |
| Demand.DbfDensity | tools/task_allocator.py:114-137 | the linear bound on demand behind the density part of the length bound |
| Demand.LowerShiftsDemand | tools/task_allocator.py:176-185 | lowering a deadline by one makes the new demand at l equal the old demand at l - 1 |
| Demand.GainIsRemovedDemand | tools/task_allocator.py:176-185 | the difference the search maximises is exactly the demand that the reduction removes from the total, and is never negative |
| DemandBound.TotalDensity | tools/task_allocator.py:114-137 | total demand is at most utilization times (length + largest slack) |
| DemandBound.TotalPeriodic | tools/task_allocator.py:114-137 | over any common multiple of the periods total demand grows by utilization times that multiple |
| DemandBound.ModeTestSuffices | tools/task_allocator.py:114-149 | with utilization at most one, a test up to the computed bound of one mode settles every length, through the density bound or through the hyperperiod |
| DemandBound.FitsBoundsUtil | tools/task_allocator.py:155-169 | demand that fits every length forces utilization at most one |
| DemandBound.FiniteTestSuffices | tools/task_allocator.py:139-169 | the uncapped test over both modes settles every length for both inequalities of a pass |
| DemandBound.FiniteTestExact | tools/task_allocator.py:139-169 | demand fits every length if and only if utilization is at most one and the finite test passes |
| TuneMode.FirstViolation | tools/task_allocator.py:155-171 | the loop over lengths returns the first violated length: of the pair of modes only where the steady state fits so far, of the steady state where the pair fits all shorter lengths; or it has tested all lengths |
| Search.FirstBadExact | tools/task_allocator.py:155-171 | the violation the search reacts to, in terms of total demand at that length and at all shorter ones, the steady state first |
| Search.LowersExact | tools/task_allocator.py:170-190 | a reduction starts where the pair of modes is too large and the steady state fits up to and including that length; it takes one unit off the deadline of one candidate of largest gain |
| Search.GivesBackExact | tools/task_allocator.py:157-168 | a reduction is given back where the steady state is too large and the pair of modes fits all shorter lengths, and it is the latest one in force |
| Search.GivingBackUndoes | tools/task_allocator.py:157-190 | giving back right after a reduction restores all deadlines and the reductions in force |
| TuneMode.ChooseTarget | tools/task_allocator.py:175-183 | the first candidate whose reduction removes the most demand at the violated length |
| Search.GreedyIsBest | tools/task_allocator.py:175-185 | no other candidate's reduction would leave less total demand at that length |
| Search.PassesOrFails | tools/task_allocator.py:151-192 | the search is deterministic: a pass that succeeds does not fail, and leaves one list of deadlines |
| Search.PassDecided | tools/task_allocator.py:54-192 | every pass ends: it fails exactly if there are no deadlines with which it succeeds |
| Search.ReachedKeeps | tools/task_allocator.py:151-192 | wherever the search gets to, only deadlines of its mode have changed, each plus its multiplicity among the reductions in force is its starting value, the candidates have room, and every other task above the level is down at its execution time or was given a reduction back |
| Search.PassMeans | tools/task_allocator.py:155-192 | success means that all lengths up to the bound fit, at level 0 also in the steady state, and that deadlines are ordered and leave room for the execution times |
| TuneMode.ClampDeadlines | tools/task_allocator.py:74-82 | succeeds exactly if every task above the level keeps room for its execution time; afterwards deadlines are ordered and the candidates are the tasks with room left |
| TuneMode.LowerTarget | tools/task_allocator.py:175-190 | on the task objects, one reduction is exactly the step of the search that lowers the first candidate of largest gain by one |
| TuneMode.UndoLast | tools/task_allocator.py:161-168 | on the task objects, an undo is exactly the step of the search that gives the last reduction back and drops its task from the candidates |
| Search.RoomNonNegative | tools/task_allocator.py:151-192 | the termination measure, the summed room of the candidates, is never negative |
| TuneMode.Tune | tools/task_allocator.py:54-192 | the pass on the task objects terminates, changes only deadlines of its mode, and follows the search to the state in which that ends; it returns success exactly if the search does not fail; if some task has no room from the start it fails with each deadline untouched or clamped |
| Search.FailureIsFinal | tools/task_allocator.py:172-174 | above level 0, when a pass fails, every alternative choice of the mode's deadlines violates some length |
| Search.StuckSteadyIsFinal | tools/task_allocator.py:158-160 | if the steady state does not fit and no reduction is left to give back, the deadlines are the starting ones and no other choice lets the steady state fit |
| Search.StuckPairIsFinal | tools/task_allocator.py:172-174 | if no candidate is left, no choice fits that keeps the tasks whose reductions were given back at their deadlines or later; in particular none if nothing was given back |
| Search.MissesOnlyEarlier | tools/task_allocator.py:155-174 | a choice of deadlines that fits although the pass failed exists only at level 0, and it is earlier than where the search got stuck for a task whose reduction was given back |
| Search.EarlierDemandsLess | tools/task_allocator.py:84-111 | of two deadlines a task may have at a mode, the earlier one demands no more of that pair of modes, at every length |
| Tuner.SettledFits | tools/task_allocator.py:194-216 | on a core that passed, every pair of modes whose bound is not cut off fits every interval length |
| TunerLimits.SteadyStateSkipped | tools/task_allocator.py:66-67 | without a task above level 0 two tasks placed one after the other on an empty core are both accepted and still demand 8 units in an interval of length 4 |
| Tuner.SteadyStateExact | tools/task_allocator.py:66-67 | the steady state of a tuned core fits exactly if the lengths not tested fit: those the cap cut off if some task is above level 0, otherwise all up to the bound; also with a single level, where nothing is tested |
| Tuner.SettledExact | tools/task_allocator.py:139-153 | on a tuned core a pair of modes fits every interval length exactly if it fits the lengths that the cap cut off |
| Tuner.TestedToAMillion | tools/task_allocator.py:153-155 | on a tuned core the demand fits all lengths up to 1000000 and up to the bound, for every pair of modes with a task above the lower one, at level 0 also in the steady state |
| TunerLimits.CapHidesViolation | tools/task_allocator.py:153-153 | with the cap of 10**6 two tasks placed one after the other are both accepted although demand exceeds the length at 1500000 |
| TunerLimits.RefusesThoughFitting | tools/task_allocator.py:158-174 | on a core with one task a second one is refused although, with other deadlines at level 0, the two fit every length together, also in the steady state |
| TunerTrace.ThreeAccepted | tools/task_allocator.py:157-192 | three tasks are accepted on one core with level-0 deadlines 2, 3 and 1, which the search reaches by giving a reduction back where the steady state and the pair of modes both do not fit |
| TunerTrace.ThirdMove | tools/task_allocator.py:157-168 | in that course, at length 2 the steady state and the pair of modes both demand 3, and the steady state decides: the latest reduction is given back |
| TunerLimits.PlaceBoth | tools/task_allocator.py:194-241 | two tasks that need no tuning, offered to an empty core one after the other, are both accepted and keep their own deadlines |
| Tuner.PairSettledKept | tools/task_allocator.py:206-216 | tuning a lower level never breaks a pair of modes settled before |
| Tuner.TuneLevels | tools/task_allocator.py:205-216 | tuning from the highest level down settles all levels together; it refuses exactly if, with all higher levels tuned by their passes, some level is overloaded or its pass fails; tasks that pass every check as they are get accepted unchanged |
| Tuner.RefusedOrAccepted | tools/task_allocator.py:205-216 | tasks are refused exactly if they are not accepted with some deadlines, and these deadlines are unique |
| Tuner.UntunedAccepted | tools/task_allocator.py:205-216 | tasks that pass every check of every level as they are get accepted with their own deadlines and are not refused |
| Tuner.SettledReordered | tools/task_allocator.py:230-233 | what was settled does not depend on the order of the tasks, so it survives filing the newcomer under primaries or replicas |
| Tuner.RestoreDeadlines | tools/task_allocator.py:218-228 | every deadline is as it was saved |
| Tuner.Core.AddUtilization | tools/task_allocator.py:235-239 | the recorded utilization grows by the task's share exactly at the levels it runs in |
| Tuner.Core.TuneSystem | tools/task_allocator.py:194-241 | succeeds exactly if the tasks are not refused; on failure or without commit all deadlines, lists and utilizations are as before; with commit the core holds the tuned newcomer, with the deadlines the passes lead to and its share of utilization recorded, and stays in order; tasks that pass every check untuned are accepted |
| Allocator.Processor.ContainsTaskPrimary | tools/task_allocator.py:28-33 | true exactly if some core of the processor holds the primary |
| Allocator.Processor.ContainsTaskReplica | tools/task_allocator.py:35-40 | true exactly if some core of the processor holds a replica |
| Allocator.TryCore | tools/task_allocator.py:362-364 | offering a task to one core leaves all other cores and their tasks untouched; the core refuses exactly if tuning all its tasks with the newcomer does, and then everything is untouched; otherwise the task is at the end of its list and its share recorded |
| Allocator.Allocator.AllocatePrimary | tools/task_allocator.py:356-366 | the task goes to the first core, on a round over the processors in use that begins at the next one, that does not refuse it, all visited before having refused, and the next round begins with the processor after the host; or nothing changes and every core of the processors in use has refused |
| Allocator.Allocator.FindProcessorOfPrimary | tools/task_allocator.py:350-354 | finds a processor with the primary exactly if there is one |
| Allocator.SafeCores | tools/task_allocator.py:381-387 | with one replica per task, a core is unsafe exactly if one of its primaries has a replica on the processor of the primary at hand |
| Allocator.Allocator.AllocateReplica | tools/task_allocator.py:368-391 | the replica goes to the first core on such a round that can take it: on a processor without any copy of the task, not refusing, and with a single replica not one whose primaries are backed on the processor of this primary; the next round begins with the processor after it; without such a core nothing changes; without a primary nothing happens and that is reported |
| Allocator.Allocator.PlaceReplica | tools/task_allocator.py:405-416 | processors are added one at a time, and only as many as needed: on one fewer no core can take the replica; giving up means that no core of the whole system can |
| Allocator.Allocator.PlacePrimary | tools/task_allocator.py:393-403 | processors are added one at a time, and only as many as needed: on one fewer every core refuses; giving up means every core of the system has refused |
| Allocator.Allocator.PlaceTask | tools/task_allocator.py:393-416 | the primary and then each replica is placed in turn as above; on success the task has one primary and exactly the replicas asked for; on failure it cannot be placed any further: every core refuses its primary, or no core can take a replica still missing; other tasks stay where they are |
| Allocator.Allocator.AllocateTasks | tools/task_allocator.py:393-416 | the tasks of a group are placed in their order, each completely, up to the first that cannot be placed any further |
| Allocator.Allocator.Run | tools/task_allocator.py:418-425 | all tasks are placed group by group in the order given, up to the first that cannot be placed; if it succeeds every task has one primary and exactly its replicas, all on pairwise different processors, and every core is in order |
| Allocator.Allocator.CoresInOrder | tools/task_allocator.py:231-239 | each core's recorded utilization is the sum over its tasks that run at the level, at most one, and its processor number is in range |
| Allocator.EstimateProcessors | tools/task_allocator.py:329-348 | the least number of processors whose cores could carry the total load and that separates all copies of a task |
| Allocator.ShareOfCopies | tools/task_allocator.py:330-336 | in the load estimate a task counts with its utilization at its own level, once for the primary and once for each replica |
| Allocator.NewAllocator | tools/task_allocator.py:296-308 | an allocator with empty, orderly cores that starts with the estimated number of processors at the first one, refused only if the load or a replica count exceeds the processors |
| Numbers.GcdIsGreatest | include/lib/math.h:7-14 | the value Euclid's recursion reaches is a common divisor and every common divisor divides it |
| Numbers.ComputeGcd | include/lib/math.h:7-14 | the loop terminates with the greatest common divisor |
| Numbers.LcmIsLeast | include/lib/math.h:16-20 | quotient by the gcd times the other number is a common multiple that divides every other |
| Numbers.SafeLcm | include/lib/math.h:22-30 | on 32-bit arguments the 64-bit product does not overflow; the result is the least common multiple cut off at the cap, and 0 for a zero argument |
| Numbers.LcmOrderIndependent | src/scheduler/sched_util.c:33-57 | order and repetition of the periods do not change the fold |
| Horizon.AllocatedHorizon | src/scheduler/sched_util.c:33-57 | despite missing tasks, zero periods and the early break, the capped least common multiple of the remaining periods |
| Horizon.PresentExactly | src/scheduler/sched_util.c:43-46 | the periods folded are exactly the positive ones of the allocated tasks that exist |
| Horizon.QueueHorizon | src/scheduler/sched_util.c:59-74 | despite the early return, the fold from a positive start equals the capped least common multiple; from zero the first period is taken as it is and the others are folded onto it |
| Horizon.AnalysisHorizon | src/scheduler/sched_util.c:76-90 | cached value, running job and three queues together give the capped least common multiple of all periods |
| Horizon.CappedContinues | src/scheduler/sched_util.c:76-90 | folding on from a capped value gives the same as folding on from the true one |
| Slack.DemandIsStep | src/scheduler/sched_util.c:212-262 | between two neighbouring checkpoints the demand does not change |
| SlackMeaning.FirstArrivalExact | src/scheduler/sched_util.c:261-262 | the first arrival looked at is the least multiple of the period after the start |
| SlackMeaning.ReleasesExact | src/scheduler/sched_util.c:258-267 | the arrivals of a task counted at d are as many as there are multiples of its period after the start whose deadlines are no later than d |
| SlackMeaning.CheckpointsExact | src/scheduler/sched_util.c:97-171 | the checkpoints are exactly the deadlines after the start of the candidate, the running job and the jobs of the three queues, and the deadlines within the horizon of the arrivals of the tasks at or above the level |
| SlackMeaning.JobDemandExact | src/scheduler/sched_util.c:188-200 | a job due by d counts with the least number of ticks in which, at the speed given, the rest of its budget after the time executed is done, any other with nothing |
| SlackMeaning.TaskDemandExact | src/scheduler/sched_util.c:247-267 | a task at or above the level counts with the ticks of its whole budget for each arrival due, any other with nothing |
| SlackMeaning.JobsDemandConcat | src/scheduler/sched_util.c:228-248 | the demand of a list of jobs is the sum over its parts |
| SlackMeaning.TasksDemandConcat | src/scheduler/sched_util.c:249-267 | the demand of a list of tasks is the sum over its parts |
| SlackMeaning.OneEach | src/scheduler/sched_util.c:228-267 | a list of one job or task demands what that one does, an empty list nothing |
| SlackMeaning.DemandAddsUp | src/scheduler/sched_util.c:221-267 | the demand is the sum over candidate, running job, the three queues and the tasks, none left out and none counted twice |
| Slack.CheckpointsSuffice | src/scheduler/sched_util.c:212-277 | a margin that holds at all checkpoints holds at every instant from the first one to the end of the horizon |
| Slack.CollectDeadlines | src/scheduler/sched_util.c:97-171 | the array holds the deadlines after the start of all jobs present and of all arrivals in the horizon at or above the level, as far as it has room |
| Slack.SortPrefix | src/scheduler/sched_util.c:177-177 | the prefix is sorted, a permutation of what it was, and the rest of the array is untouched |
| Slack.RemoveDuplicates | src/scheduler/sched_util.c:179-185 | in place, the kept prefix is strictly ascending and has the same members |
| Slack.DemandAt | src/scheduler/sched_util.c:221-262 | the loops over queues and arrivals add up to the demand due by the instant |
| Slack.FindSlack | src/scheduler/sched_util.c:202-277 | the least time left over the checkpoints that fit the array, not below zero; none exactly without a checkpoint or a place for one; zero above the highest level |
| Slack.CoversExactly | src/scheduler/sched_util.c:202-277 | a margin is left at every instant from the first checkpoint to the end of the horizon exactly if it is left at every checkpoint of the horizon |
| Slack.PositiveSlackExact | src/scheduler/sched_util.c:97-103 | positive slack holds at every such instant exactly if it is left at the checkpoints of the horizon that the array had no room for |
| Slack.LargeArraySuffices | src/scheduler/sched_util.c:97-103 | an array with a place for each job and for each arrival of a task within the horizon never fills, so positive slack holds at every instant of the range |
| Slack.PositiveSlackCovers | src/scheduler/sched_util.c:202-277 | positive slack s with nothing dropped from the array means demand(t) + s <= t - tstart at every instant from the first checkpoint to tstart + horizon |
| Slack.SlackIsExact | src/scheduler/sched_util.c:264-277 | a positive margin is met at all checkpoints looked at exactly if it is at most the slack found |
| Slack.FullArrayHidesDemand | src/scheduler/sched_util.c:97-103 | for an array of up to 3268 places there is a core, with the horizon cut off at its cap of 5000, and a candidate job for which positive slack is found although more work is due at instant 111 than there is time |
| Slack.LeftAntitone | src/scheduler/sched_util.c:188-200 | the time left at an instant never grows as the core gets slower |
| Slack.SlackAntitone | src/scheduler/sched_util.c:202-277 | the slack never grows as the core gets slower |
| Dvfs.FasterMeets | src/power_management.c:41-61 | a faster level is sufficient whenever a slower one is |
| Dvfs.LeastSlack | src/power_management.c:44-54 | any positive margin is left at every checkpoint of the present and all higher criticality levels exactly if it is at most the minimum found |
| Dvfs.PauseFits | src/power_management.c:137-159 | after a pause no longer than the slack of a level the work due by any checkpoint of that level still fits between the end of the pause and the checkpoint |
| Dvfs.CalcRequiredLevel | src/power_management.c:34-64 | the scan with early exit returns the slowest sufficient level, 0 if there is none, and the slowest of all on an idle core |
| Dvfs.IsAdmissible | src/scheduler/sched_util.c:279-307 | a job is admitted exactly if at every level from the present one on its deadline lies ahead and all checkpoints with the job added leave the margin |
| RingBuffer.StepKeepsInv | include/lib/ring_buffer.h:42-112 | every atomic step of blocking and try operations, by any thread, keeps tickets unique and slots, sequence numbers and contents consistent |
| RingBuffer.RunKeepsInv | include/lib/ring_buffer.h:42-112 | so does every interleaving |
| RingBuffer.DequeueMatchesEnqueue | include/lib/ring_buffer.h:63-112 | in every run the dequeue with ticket k returned the element of the enqueue with ticket k |
| RingBuffer.ReturnsOnce | include/lib/ring_buffer.h:78-112 | a dequeue about to finish returns an element that was sent, and that nobody has received or discarded |
| RingBuffer.SlotsSafeInRuns | include/lib/ring_buffer.h:42-112 | in every run from a fresh buffer two threads that copy at once work on different slots, a slot being written holds nothing unread, and an element about to be returned is the one sent with that ticket and has not been returned before |
| RingBuffer.ExclusiveSlots | include/lib/ring_buffer.h:55-56 | two threads copying at the same time work on different slots |
| RingBuffer.NoUnreadOverwrite | include/lib/ring_buffer.h:63-76 | a slot is overwritten only after every earlier element of it was received or discarded |
| RingBuffer.HistoryGrows | include/lib/ring_buffer.h:42-112 | in no run is an element lost from the record of what was sent, or received twice with different values |
| RingBuffer.QuiescentQueue | include/lib/ring_buffer.h:42-112 | with no thread inside, exactly the tickets below head are consumed and those up to tail sit in their slots |
| RingBuffer.QuiescentTries | include/lib/ring_buffer.h:42-97 | with no thread inside, a try succeeds exactly if there is room, or an element |
| RingBuffer.DropAllKeeps | include/lib/ring_buffer.h:114-124 | dropping all remaining elements keeps the invariant and leaves the queue empty |
| RingBuffer.Buffer.Init | include/lib/ring_buffer.h:21-40 | fails below three slots and changes nothing; else the fields represent an empty consistent buffer for any set of threads |
| RingBuffer.Buffer.Clear | include/lib/ring_buffer.h:114-124 | on a quiescent buffer the loop re-establishes the invariant with an empty queue |
| Barrier.RunInv | src/lib/barrier.c:59-78 | every interleaving of arrivals and departures keeps count, cycle and waiting threads consistent |
| Barrier.NoEarlyPass | src/lib/barrier.c:59-78 | no thread has completed more rounds than any participant has arrived at |
| Barrier.OneSerialResult | src/lib/barrier.c:59-78 | of every completed round exactly one participant got the serial result |
| Barrier.RoundsClose | src/lib/barrier.c:59-78 | participants are never more than one round apart |
| Barrier.BarrierObject.Init | src/lib/barrier.c:5-43 | refused, with nothing changed, exactly without members; otherwise the fields are those of a consistent barrier of these members at which nobody has arrived |
| Barrier.BarrierObject.Destroy | src/lib/barrier.c:45-57 | refused exactly while some thread waits for the present cycle; it succeeds exactly if every thread still inside has been released |
| Barrier.BarrierObject.Enter | src/lib/barrier.c:59-68 | the critical section on entry does to the fields what an arrival does to the barrier |
| Barrier.BarrierObject.MayLeave | src/lib/barrier.c:69-77 | the wait loop releases a thread exactly when its departure is enabled |
| Tick.StepKeeps | src/processor.c:31-88 | every step of cores and timers on all processors keeps their positions in the round consistent |
| Tick.TimerExcluded | src/processor.c:31-88 | in every run the timer is not at work while a core of its processor is inside its tick |
| Tick.TickSeesStableState | src/processor.c:31-88 | no step changes the time or the incoming queue of a processor that has a core inside its tick |
| Tick.TicksStableInRuns | src/processor.c:31-88 | in every run from start-up, the next step changes neither the time nor the incoming queue of a processor with a core inside its tick |
| Tick.TimesClose | src/processor.c:57-71 | in every run a processor's time is its number of completed global rounds, plus one exactly between its advance and the end of the round, and times of two processors differ by at most one |
| Tick.TimeInTick | src/processor.c:76-88 | while a core is inside its tick the time equals the rounds that core has completed |
| CritLevel.StepKeeps | src/scheduler/sched_core.c:126-132 | whatever loads and stores interleave, every level in play is the one at the start of the tick or a broadcast one, and not below the former |
| CritLevel.ReceivedIsMax | src/ipc.c:148-159 | receiving messages one by one yields the maximum of the level and the valid messages |
| CritLevel.BoundaryNeverDecreases | src/scheduler/sched_core.c:574-577 | in every run, whatever is lost, the level at tick boundaries never decreases |
| CritLevel.LoopbackGivesMax | src/ipc.c:148-159 | if all broadcasts come back the new level is exactly the maximum of the old level and all valid messages |
| CritLevel.LocalNeverDecreases | src/scheduler/sched_core.c:574-577 | in every run from start-up in which all broadcasts come back, a core's own level never goes down |
| CritLevel.LostBroadcastLowersLocal | src/scheduler/sched_core.c:126-132 | a run in which a slower raise overwrites a higher one and the core that was ahead follows it down |
| CritLevel.LevelCanFallExactly | src/scheduler/sched_core.c:574-577 | after a tick boundary, some course of the next tick lowers a core's own level exactly if the shared level and every valid level received were below it |
| Sorted.InsertPlace | src/task_management.c:112-145 | the new entry goes behind every entry with a key no larger and before every larger one, and the others keep their order |
| Sorted.InsertOrdered | src/task_management.c:112-145 | insertion keeps the queue sorted |
| Sorted.InsertMembers | src/task_management.c:112-145 | insertion adds exactly the new entry |
| List.AddTail | include/lib/list.h:35-38 | inserting before a node inserts into the sequence there, before the head at the end; the ring stays closed in both directions |
| List.Add | include/lib/list.h:30-33 | inserting after the head inserts at the front |
| List.Delete | include/lib/list.h:40-49 | deleting removes the node from the sequence and clears its link |
| List.SpliceInit | include/lib/list.h:83-98 | splicing puts one list's entries in front of the other's and leaves the first list empty |
| List.AddSorted | src/task_management.c:112-127 | the walk over the ring and the insertion refine sorted insertion into the sequence |
| List.Pop | src/task_management.c:151-157 | takes the first entry off, or reports an empty list |
| RunQueue.Core.Enqueue | src/task_management.c:112-127 | queues stay sorted and of one kind, with exactly the job added |
| RunQueue.Core.Arrive | src/scheduler/sched_core.c:186-216 | a job below the level is filed on the discard list, any other in the queue of its kind, with deadline arrival plus relative deadline and budget of the level; the other lists are untouched |
| RunQueue.ArrivedOk | src/scheduler/sched_core.c:277-293 | filing an arrival keeps the queues in order, loses nothing and adds the job to exactly one list, by level and kind |
| RunQueue.Core.SelectNext | src/scheduler/sched_core.c:365-402 | the job popped is the one peeked at; it is no later than any waiting job and earlier than the running one; without a choice the running job already comes first; ties go to the ready queue |
| RunQueue.TheftHarmless | src/scheduler/sched_migration.c:362-366 | another core removing waiting jobs disturbs neither a choice made nor the order reached |
| RunQueue.Core.Dispatch | src/scheduler/sched_core.c:404-428 | the chosen job runs, the preempted one waits again, and the running job has the earliest deadline |
| RunQueue.Core.ScheduleNext | src/scheduler/sched_core.c:605-610 | at the end of the tick, whatever others remove in between, the running job's deadline is no later than any waiting job's, the core is idle only if both queues are empty, and idle exactly without a running job |
| RunQueue.Core.FilterForMode | src/scheduler/sched_core.c:107-124 | the loop empties a queue into a sorted new queue and the discard list |
| RunQueue.Core.ModeChange | src/scheduler/sched_core.c:126-161 | the whole effect of a mode change on running slot, queues and discard list; every job that ran or waited now has deadline arrival plus relative deadline and the budget of the new level |
| RunQueue.ModeChangeConserves | src/scheduler/sched_core.c:107-161 | afterwards the core holds exactly the jobs it held, those looked at under the new level's deadline |
| RunQueue.ModeChangeSets | src/scheduler/sched_core.c:107-124 | after a mode change a job with the deadline and the budget of the new level, and nothing else changed, is in the queue of its kind, or on the discard list if it is below the level and not on offer |
| RunQueue.ModeChangeSorts | src/scheduler/sched_core.c:107-124 | exactly the jobs below the new level that are not on offer are discarded; the others wait |
| RunQueue.Core.Finish | src/scheduler/sched_core.c:32-60 | the running job leaves, nothing else changes |
| RunQueue.Core.Preempt | src/power_management.c:166-182 | the running job waits again in the queue of its kind |
| JobLife.StepKeeps | src/scheduler/sched_migration.c:308-401 | every event on a job's life keeps counts, list membership, tickets and flags consistent |
| JobLife.RunKeeps | src/scheduler/sched_migration.c:147-177 | so does every interleaving of the events of all cores and the timer |
| JobLife.CountsMatchHolders | include/task_management.h:59-75 | in every run a slot's count is the number of places holding the job; a slot is live or on exactly one free list, one of its owner's |
| JobLife.NoUseAfterRelease | src/task_management.c:94-110 | in every run a job on any list or in any request has a reference |
| JobLife.UnlinkUnderLock | src/scheduler/sched_migration.c:362-366 | the list a migration unlinks from is a queue of the offering core, whose lock is held, and the job has exactly that place and the request |
| JobLife.MigrationsUnlinkUnderLock | src/scheduler/sched_migration.c:362-366 | in every run from start-up, a migration that unlinks a job finds it on a queue of the offering core, whose lock is held, and nowhere else but in the request being decided |
| JobLife.DiscardsNotOffered | src/scheduler/sched_core.c:433-454 | in every run no job on the discard list is on offer when its core reclaims it, so the branch that would lose a reference is never taken |
| JobLife.KeepsAccept | src/scheduler/sched_migration.c:362-393 | moving an offered job between cores keeps the invariant |
| JobLife.KeepsOffer | src/scheduler/sched_migration.c:147-177 | offering a waiting job adds one reference and one ticket |
| JobLife.KeepsRemoved | src/scheduler/sched_core.c:62-105 | removing a completed job's copies keeps the invariant, also while they are on offer |
| JobLife.CorePool.constructor | src/task_management.c:24-35 | all slots are on the free list, the last one first |
| JobLife.CorePool.Take | src/task_management.c:37-51 | a slot comes from the own list, refilled with everything returned by others when it is empty; there is none only if both lists are empty |
| JobLife.CorePool.Return | src/task_management.c:94-110 | dropping the last reference puts the slot at the head of the own list if the pool's thread does it, and of the shared list otherwise, as the release step does to the lists |
| PoolAccess.StepRespects | src/task_management.c:37-110 | no step of another thread or of the timer changes a core's own free list, and they only add to the list shared with them; the core takes from that one only to refill its own |
| PoolAccess.FreeListsUnshared | src/task_management.c:94-110 | the same for the next step of every run from start-up |
| PoolAccess.FreedWhere | src/task_management.c:94-110 | in every run, when the last reference to a job is dropped its slot is on its owner's own list if the owner's thread dropped it, and on the owner's shared list if not |
| JobPlaces.ArrivalFiled | src/scheduler/sched_core.c:277-293 | an arriving job goes to the discard list below the level, else to the queue of its kind |
| JobPlaces.TurnedDown | src/scheduler/sched_migration.c:321-331 | a request that is turned down leaves the job wherever it is |
| JobPlaces.FutureTakenOver | src/scheduler/sched_migration.c:333-360 | an admissible future job is in the pending queue of the destination afterwards, and nowhere else |
| JobPlaces.WaitingTakenOver | src/scheduler/sched_migration.c:362-393 | an admissible waiting job is on exactly one list of the destination afterwards, chosen by level and kind, and on none of the offering core |
| JobPlaces.ReclaimedTo | src/scheduler/sched_core.c:433-454 | a discarded job goes back to the queue of its kind if it is admissible and to the shared list if not |
| Delegation.ScanDropsStale | src/scheduler/sched_core.c:227-247 | on sorted records the scan drops exactly the stale ones and reports exactly whether an owned record lies ahead |
| Delegation.RecordedExact | src/scheduler/sched_migration.c:211-219 | on sorted records the search that stops early finds a record exactly if there is one |
| Delegation.PassedOver | src/scheduler/sched_util.c:369-379 | every arrival the search for the next one passes over has an owned record |
| Delegation.NotStaleIsNow | src/scheduler/sched_core.c:235-237 | at an arrival of its task a record that is not stale is for this very tick |
| Delegation.StepKeeps | src/scheduler/sched_migration.c:188-280 | every step of arrivals, acknowledgements, offers, requests and sleep decisions keeps the bookkeeping, with levels going up or down |
| Delegation.StepInforms | src/scheduler/sched_migration.c:333-360 | every step keeps homes informed: until its home has come to the arrival, a job taken over by another core is acknowledged there or noted as owned, and what is recorded as lost nobody has taken over |
| Delegation.ServedExactly | src/scheduler/sched_core.c:163-300 | in every run, with levels going up or down, a past arrival has released a job, at home or on a core that took it over, exactly if it is not recorded as lost |
| Delegation.LostExactly | src/scheduler/sched_core.c:579-587 | an arrival becomes lost exactly if at its tick its home is asleep, chose that sleep at a level above the task, and no other core has released or holds the job |
| Delegation.ArrivalsServed | src/scheduler/sched_core.c:163-300 | in every run each past arrival of a task at or above the highest level at which its core chose to sleep released at least one job, at home or on the core that took it over |
| Delegation.ServedWhenRising | src/scheduler/sched_core.c:163-300 | in every run in which no core's level goes down, so does each past arrival of a task at or above its core's present level |
| Delegation.LoweredLevelLosesArrival | src/scheduler/sched_core.c:574-587 | a run in which an arrival at or above its core's present level is never released, because the core sleeps through it and chose to at a higher level |
| Delegation.SkippedIsAccepted | src/scheduler/sched_core.c:235-250 | an arrival of the present tick that is skipped or slept through was released, or waits in the pending queue of another core, or is lost, the last only below a level at which the core chose to sleep |
| Delegation.NeverMissed | src/scheduler/sched_core.c:167-180 | in every run pending jobs lie at or after the present tick and no core sleeps past one |
| Delegation.BookkeepingBounded | src/scheduler/sched_migration.c:68-98 | in every run records are sorted, one per task and arrival, none beyond the task's next period, and unread acknowledgements fit their queue |
| Delegation.AckHasRoom | src/scheduler/sched_migration.c:338-348 | a core about to acknowledge finds a free slot, so the write does not wait |
| Delegation.ReleasedExactly | src/scheduler/sched_core.c:218-250 | in every run a core releases its own job exactly if it has no owned record for that tick |
| Delegation.AckMarksOwned | src/scheduler/sched_migration.c:82-98 | reading an acknowledgement makes the matching record owned |
| Delegation.HomeIsTold | src/scheduler/sched_migration.c:333-360 | in every run a pending job is there for another core, and until that home has come to the arrival it has an acknowledgement to read or an owned record for it |
| Delegation.TwoJobsExactly | src/scheduler/sched_core.c:591-596 | in every run a core handling an arrival releases a job that another core has released or holds exactly if its acknowledgement is still unread and no record for it is owned |
| Delegation.LateAckGivesTwoJobs | src/scheduler/sched_core.c:591-596 | a run with a task of period 10: offered at tick 9 after the home has read its acknowledgements, accepted in that tick, released at home at tick 10 and due there again in the pending queue of the accepting core |
| Delegation.NextEffectiveArrival | src/scheduler/sched_util.c:342-385 | the earliest arrival the core has to be awake for, over pending jobs and its own tasks, if there is one |
| Delegation.DpmInterval | src/power_management.c:79-111 | an idle core sleeps until that arrival if it is at least 6 ticks ahead, without end if there is none, and never past one |
| Delegation.Procrastinate | src/power_management.c:113-191 | a running job is put off exactly if the next arrival and the slack leave at least 6 ticks, and then for as many whole ticks as the slack allows but not past the next arrival |

## Left out

- Allocator.Allocator.Run: the order of the groups and within them is an argument; sorting by criticality and utilization is not modelled.
- Search.MissesOnlyEarlier: one direction only; whether such an earlier choice exists is not decided by a condition simpler than testing the choices one by one, each of which `DemandBound.FiniteTestExact` decides.
- Delegation.ArrivalsServed: job-pool exhaustion at an arrival is excluded; arrivals with period zero are skipped as in the code; a released job below its core's level goes straight to the discard list, which counts as released.
- Delegation.LateAckGivesTwoJobs: execution times, frequency and the utilization thresholds for an offer are not part of the run; they only decide whether the offer is made and admitted.
- RunQueue.Core.ModeChange: jobs are values owned by one queue; aliasing of a job by a migration request is the subject of JobLife, and the pointer form of the queues that of List.
- JobLife.StepKeeps: lists are bags; their order is the subject of RunQueue and of Sorted. A deadline miss, which halts the system, is covered as completion followed by release.
- Slack.PositiveSlackCovers: positive slack from one start does not by itself mean that all later arrivals are schedulable; nothing of the kind is claimed.
- Slack.FindSlack: the horizon and the array size are arguments; the value of the horizon is the subject of Horizon.AnalysisHorizon; allocated tasks are taken to exist with a positive period.
- Mutual backup over the whole allocation: checked at placement only, so it is no invariant.
- Ticks at which the processor shuts down, signals, and interrupted barrier waits.
- Utilization summaries and the choice of a migration target: they only decide whether an offer is made, which is nondeterministic here.
- Completion messages between processors and their effect beyond removing copies of a job.
- Sockets, packet encoding, shared memory, process start, logging, plots, report and code generation: input and output only.
- Random execution times: nondeterministic where they matter.
- Rounding of single-precision numbers, wrap-around of tick counters, weak memory ordering.
- Progress of blocking queue operations and schedulability of the whole online system.
