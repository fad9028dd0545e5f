# Verified models of the Nexus load balancer

This project models the scheduling core of a GPU inference load balancer and the
structures of its asynchronous runtime, and proves what they keep over whole runs.
Times are integers in nanoseconds where the code uses time points. Latencies are
reals that are truncated where the code casts them. A handler that runs under a
mutex is one atomic step. A failed check, a fatal log entry or an uncaught
exception is an explicit outcome that ends a run.

The files, in the order in which they build on each other:

- `wrappers.dfy`: what the models share.
- `splay_tree.dfy`, `splay_heap.dfy`, `ranked_map.dfy`, `ranked_lockstep.dfy`: the rank
  index. A pointer splay tree with cached subtree sizes refines a finite map ranked by
  a compare key, and runs in lockstep with the counting map that serves as its
  specification. Each node carries a ghost interval of the in-order sequence, so every
  invariant is local. The root's cached size may be one too large after a removal; no
  operation reads it before it is refreshed.
- `model_profile.dfy`: latency profiles, forced monotonicity and the largest batch within a budget.
- `query_list.dfy`, `batch_policy.dfy`, `policy_laws.dfy`: the batching policy, and what it does.
- `thread_state.dfy`, `thread_runs.dfy`, `thread_laws.dfy`, `model_thread.dfy`: the model thread that
  drives it, as a function of its events, what holds of every run, what each event does, and the class.
- `orderings.dfy`: lists in the order of a hash table, filtered and sorted.
- `delayed_plan.dfy`, `delayed_state.dfy`, `delayed_safety.dfy`, `delayed_runs.dfy`,
  `delayed_laws.dfy`, `delayed_scheduler.dfy`: the delayed scheduler over enqueues, reschedules and
  timers, also stale ones, in the same steps.
- `timer_heap.dfy`, `timer_runs.dfy`, `timer_laws.dfy`, `epoll_executor.dfy`: the timer queue, a heap whose timers know
  their index; the blocking executor that drives it through one timer descriptor, as a function of its
  events, with what holds of every run; and the executor on the heap.
- `completion_ring.dfy`, `wrid.dfy`, `block_allocator.dfy`, `buffer_places.dfy`, `buffer_laws.dfy`,
  `rdma_buffers.dfy`: the completion ring, work request ids, the block allocator, and the buffer flow that composes them.
- `rps_meter.dfy`, `sliding_window.dfy`, `batch_estimator.dfy`: the rate meter, the
  backend's batcher and the batch size estimator.
- `request_flow.dfy`: the dataflow of a request.
- `duty_cycle.dfy`, `duty_laws.dfy`, `backend_delegate.dfy`, `delegate_laws.dfy`, `stale_cycle.dfy`:
  duty cycles of models that share a GPU.
- `routing.dfy`, `placement.dfy`, `placement_safety.dfy`, `placement_epochs.dfy`,
  `placement_laws.dfy`, `nexus_scheduler.dfy`: the routing tables of the epoch scheduler, and how it places sessions.

The model thread, the delayed scheduler, the executor, the buffer flow, the request flow, the backend
delegate and the epoch scheduler are each given by a total function from a state and an event to the next
state, or to none if the process ends there. A class does the same in place, and its method `Run`
is proved to end in the state that the function gives for the same events. What holds of every run
is stated as lemmas about the function, among them when a run survives. The rank index
and the rate meter end in a method (`Lockstep`, `Run`) whose contract says it directly.

The files named `..._laws.dfy` say what the operations do without going through their steps: which queries
a policy drops and which it takes, which plan a backend gets, which models stay on a GPU, where a session
is placed. They prove that the functions do exactly that, where it determines the outcome in both directions.

Where the code walks a hash table, the order is part of the event. A sort takes equal elements in
the order it finds them in; since that order is free, so is the order of equals. The order in which
timers leave the heap together is an argument of the executor's function, and `EpollExecutors.Run`
gives it as a ghost result: nondecreasing in time, free among equal times.

Where the code does not do what its comments or its checks suggest:

- The sanity check of the batching policy cannot fail for any profile; monotonicity is
  not needed. What needs it is the deadline of a plan that waits for one more query.
- The delayed scheduler walks queries in the order of their ids, although its header
  speaks of deadlines. `FirstIsEarliestIff` says exactly when the first query of a plan is the
  most urgent one.
- The forced profile need not bound the measured one (`ForcedMayUnderestimate`); `ForcedBoundsIff` says
  exactly when it does.
- Setting the timer descriptor to the time zero disarms it. `TimerRuns.RunAwakeIff` says exactly when
  that loses a wake-up.
- The allocator's range test lets the offset just past the pool through (`Free`).
- An update of a session's rate that hardly moves the throughput on record leaves the
  duty cycle alone, and that can miss the objective (`StaleCycleMissesObjective`, and `GrowthMissesObjective` for
  an epoch). `RunObjectivesIff` says exactly when every objective is kept throughout a run.

## Model

| member | source | states |
|---|---|---|
| `SplayShape.RotateKeepsLinks` | src/nexus/common/value_ranked_splay_map.h:173-182 | a rotation keeps parent and child links mutual and leaves the in-order sequence as it was |
| `SplayShape.ZigZag` | src/nexus/common/value_ranked_splay_map.h:193-196 | the double rotation of a bent grandchild puts it in its grandparent's place, in the same order |
| `SplayShape.ZigZig` | src/nexus/common/value_ranked_splay_map.h:193-200 | likewise for a straight grandchild |
| `SplayShape.AttachKeepsLinks` | src/nexus/common/value_ranked_splay_map.h:244-249 | hanging a leaf inserts it at one place of the in-order sequence and moves nothing else |
| `SplayShape.DetachKeepsLinks` | src/nexus/common/value_ranked_splay_map.h:227-232 | cutting a leaf off takes it out of the in-order sequence and moves nothing else |
| `SplayShape.InOrderIsRange` | src/nexus/common/value_ranked_splay_map.h:162-170 | the subtree under a node is a contiguous range of the in-order sequence, so its size is the length of that range |
| `SplayShape.TopExcludes` | src/nexus/common/value_ranked_splay_map.h:185-204 | no other node's range covers the place of the top node |
| `SplayShape.BetweenIsLeaf` | src/nexus/common/value_ranked_splay_map.h:222-231 | with the successor at the root and the predecessor its child, the node to remove is the leaf between them |
| `SplayHeap.RotateNode` | src/nexus/common/value_ranked_splay_map.h:172-182 | the pointer rotation performs the abstract one; every cached size but the risen node's is exact again |
| `SplayHeap.SplayNode` | src/nexus/common/value_ranked_splay_map.h:184-204 | the node ends below the goal; node set and in-order places are unchanged, and every cached size is exact, also those that were stale on its path |
| `SplayHeap.RemoveNode` | src/nexus/common/value_ranked_splay_map.h:220-236 | the node leaves the order and nothing else does; of the cached sizes only the root's may be wrong afterwards, by one |
| `SplayHeap.InsertNode` | src/nexus/common/value_ranked_splay_map.h:238-251 | the node enters after all smaller and before all other compare keys and becomes the root |
| `SplayHeap.GetNthNode` | src/nexus/common/value_ranked_splay_map.h:253-267 | the descent by cached sizes finds the n-th node in order without ever reading the root's size, and splays it |
| `SplayHeap.FindLastAtMost` | src/nexus/common/value_ranked_splay_map.h:143-151 | the descent finds the last node whose compare key is at most the bound |
| `SplayRankedMap.InOrderIsRanking` | src/nexus/common/value_ranked_splay_map.h:162-267 | the in-order keys are a ranking of the entries: each key once, compare keys nondecreasing |
| `SplayRankedMap.ValueRankedSplayMap.Upsert` | src/nexus/common/value_ranked_splay_map.h:82-91 | afterwards the entries are the old ones with the key set to the value, in a valid tree |
| `SplayRankedMap.ValueRankedSplayMap.Remove` | src/nexus/common/value_ranked_splay_map.h:93-101 | the key is gone, if it was there, and the tree stays valid |
| `SplayRankedMap.ValueRankedSplayMap.GetByKey` | src/nexus/common/value_ranked_splay_map.h:115-121 | the value of the key, or an error if it is absent; entries and order do not change |
| `SplayRankedMap.ValueRankedSplayMap.GetByRank` | src/nexus/common/value_ranked_splay_map.h:123-131 | the entry at that place of the order, or an error past the end |
| `SplayRankedMap.ValueRankedSplayMap.Rank` | src/nexus/common/value_ranked_splay_map.h:133-138 | the place of the key in the order, or an error if it is absent |
| `SplayRankedMap.ValueRankedSplayMap.CountLessEqual` | src/nexus/common/value_ranked_splay_map.h:140-154 | the number of entries with a compare key of at most the bound |
| `Ranking.RankBounds` | src/nexus/common/value_ranked_hash_map.h:110-124 | any place of a key in a ranking lies between the number of smaller compare keys and the number of compare keys not larger |
| `Ranking.RankKeyUnique` | src/nexus/common/value_ranked_hash_map.h:95-108 | every ranking has the same compare key at a given place, whatever the order of ties |
| `NaiveRankedMap.ValueRankedHashMap.GetByRank` | src/nexus/common/value_ranked_hash_map.h:95-108 | an entry with exactly the compare key that belongs at that place |
| `NaiveRankedMap.ValueRankedHashMap.Rank` | src/nexus/common/value_ranked_hash_map.h:110-124 | the number of entries with a smaller compare key |
| `NaiveRankedMap.ValueRankedHashMap.CountLessEqual` | src/nexus/common/value_ranked_hash_map.h:126-136 | the number of entries with a compare key of at most the bound |
| `RankedLockstep.AnswersAgree` | src/nexus/common/value_ranked_splay_map.h:82-154 | two correct answers to the same call are equal, except that ranks may differ within a run of ties |
| `RankedLockstep.Lockstep` | tests/cpp/value_ranked_map_test.cpp:48-162 | for every sequence of calls on two empty maps, both answer each call correctly for the entries at that point, and equally but for ranks among ties |
| `RankedLockstep.RankOfKeyAtRank` | src/nexus/common/value_ranked_splay_map.h:123-138 | the rank of the key at a rank is that rank |
| `RankedLockstep.KeyAtRankOfKey` | src/nexus/common/value_ranked_splay_map.h:123-138 | the entry at the rank of a key is the entry of that key |
| `ModelProfiles.ForcedIsMonotone` | src/nexus/common/model_db.cpp:135-146 | after treating a prefix of the table, that prefix is nondecreasing in mean and in mean plus deviation |
| `ModelProfiles.ForcedChangesNothingIff` | src/nexus/common/model_db.cpp:135-146 | forcing leaves a table alone if and only if it was monotone in both measures |
| `ModelProfiles.ForcedMayUnderestimate` | src/nexus/common/model_db.cpp:135-146 | the forced table need not bound the measured one: a concrete table where it does not |
| `ModelProfiles.ForcedBoundsIff` | src/nexus/common/model_db.cpp:135-146 | the treated prefix bounds the measured one if and only if no entry whose mean falls below its forced predecessor's has a larger mean plus deviation than it |
| `ModelProfiles.ForcedProfileIsMonotone` | src/nexus/common/model_db.cpp:135-156 | the forward latency of a forced profile never falls with the batch size, whatever was measured |
| `ModelProfiles.ModelProfile.ForceMonotonicity` | src/nexus/common/model_db.cpp:135-146 | the loop in place computes the forced table, which makes the profile monotone |
| `ModelProfiles.MaxBatchIsLargest` | src/nexus/common/model_db.cpp:173-213 | on a monotone profile the scan finds the largest batch size within the budget, or 1 |
| `ModelProfiles.GetMaxBatch` | src/nexus/common/model_db.cpp:173-193 | on a monotone profile: the largest batch within half of the budget, or 1 |
| `ModelProfiles.GetMaxBatchWithFullBudget` | src/nexus/common/model_db.cpp:195-213 | on a monotone profile: the largest batch within the whole budget, or 1 |
| `QueryLists.InsertAscending` | src/nexus/dispatcher/query_context.h:18-29 | insertion keeps the list ordered by deadline and id, and its head is the earlier of the new query and the old head |
| `QueryLists.InsertNew` | src/nexus/dispatcher/query_context.h:18-29 | a new key is added once |
| `QueryLists.InsertTwice` | src/nexus/dispatcher/query_context.h:18-29 | a key already in the list is swallowed |
| `BatchPolicy.DropLateIsPrefix` | src/nexus/dispatcher/batch_policy.cpp:22-38 | the first phase drops the shortest prefix of the inputs after which the head can finish with the rest |
| `BatchPolicy.StepFits` | src/nexus/dispatcher/batch_policy.cpp:42-73 | once an input is kept, the batch size aimed at and the head stay; before that a drop leaves a head with the same size to meet |
| `BatchPolicy.FillSettles` | src/nexus/dispatcher/batch_policy.cpp:40-73 | the second phase ends without queries, or with at least the target and no room for one more |
| `BatchPolicy.FillDropsFirst` | src/nexus/dispatcher/batch_policy.cpp:52-59 | every query dropped in the second phase comes before every input kept and every query left |
| `BatchPolicy.PolicySafe` | src/nexus/dispatcher/batch_policy.cpp:10-83 | for every profile: queries, inputs and drops are conserved, both lists stay ordered and apart, the head can finish in the final batch, and the sanity check cannot fail |
| `BatchPolicy.PolicyIdempotent` | src/nexus/dispatcher/batch_policy.cpp:10-83 | a second run with the same arguments changes nothing |
| `BatchPolicy.CoveredNeverFatal` | src/nexus/dispatcher/batch_policy.cpp:10-83 | a profile that covers all waiting queries in one batch never ends the process |
| `BatchPolicy.IncrementalBatchPolicy.DropLateInputs` | src/nexus/dispatcher/batch_policy.cpp:22-38 | the first loop in place does what the first phase specifies |
| `BatchPolicy.IncrementalBatchPolicy.FillInputs` | src/nexus/dispatcher/batch_policy.cpp:40-73 | the second loop in place does what the second phase specifies |
| `BatchPolicy.IncrementalBatchPolicy.Update` | src/nexus/dispatcher/batch_policy.cpp:90-100 | runs the policy unless time would go backwards, and remembers the time |
| `PolicyLaws.DropLateIff` | src/nexus/dispatcher/batch_policy.cpp:21-38 | phase 1 ends with a window if and only if that lacks exactly the leading inputs that cannot finish with those after them, up to the first that can |
| `PolicyLaws.FillIff` | src/nexus/dispatcher/batch_policy.cpp:40-74 | phase 2 ends with a window if and only if that is the one described without its steps: the most urgent are dropped, each too late for a batch up to the target of what is left; the head is in time for that batch; beyond the target each input leaves the head early; and nothing is left to do |
| `PolicyLaws.PolicyIff` | src/nexus/dispatcher/batch_policy.cpp:10-83 | the whole policy ends with a window if and only if that is the one described |
| `PolicyLaws.PolicyDropsLate` | src/nexus/dispatcher/batch_policy.cpp:21-59 | every query the policy drops is too late for a batch of some of those that wait |
| `ThreadStates.ElapseSlack` | src/nexus/dispatcher/rankmt/common.cpp:33-40 | truncating the sum of three latencies gives at most 2 ns more than truncating them one by one |
| `ThreadStates.ElapseSlackReached` | src/nexus/dispatcher/rankmt/common.cpp:33-40 | a profile for which it is 2 ns |
| `ThreadStates.NoSlackIff` | src/nexus/dispatcher/rankmt/common.cpp:33-40 | every batch the policy allows is in time by the plan's estimate if and only if the two ways of truncating agree |
| `ThreadStates.ExecAtInTime` | src/nexus/dispatcher/rankmt/model_thread.cpp:182-194 | whether the batch starts at once or waits for one more query, its head is at most 2 ns late |
| `ThreadStates.InputsMakeSafePlan` | src/nexus/dispatcher/rankmt/model_thread.cpp:278-296 | what holds for the head of the inputs holds for every member of the plan |
| `ThreadStates.AcceptKeepsIff` | src/nexus/dispatcher/rankmt/model_thread.cpp:144-148 | accepting a query keeps the account of all accepted queries if and only if its deadline and id are not waiting already |
| `ThreadStates.MoveKeepsIff` | src/nexus/dispatcher/batch_policy.cpp:46-47 | moving a query to the inputs loses nothing if and only if its key is not among them |
| `ThreadStates.UpdatedBalanced` | src/nexus/dispatcher/rankmt/model_thread.cpp:175-219 | an update that survives leaves a candidate that fits and starts no earlier than a plan can arrive, with every drop reported and nothing lost |
| `ThreadStates.GrantBalanced` | src/nexus/dispatcher/rankmt/model_thread.cpp:263-316 | a grant sends at most one plan: with the granted GPU and id, not before the GPU is free, no member more than 2 ns late; the answer is its end |
| `ThreadStates.HandledBalanced` | src/nexus/dispatcher/rankmt/model_thread.cpp:122-335 | every event keeps the account and the safety of all plans, and accepts exactly the arrivals for this model while not stopped |
| `ThreadRuns.RunBalanced` | src/nexus/dispatcher/rankmt/model_thread.cpp:122-335 | every run with distinct ids: all plans are safe, the accepted queries are those of the events, and the account holds |
| `ThreadRuns.RunAccounts` | src/nexus/dispatcher/rankmt/model_thread.cpp:122-335 | every run: each accepted query is in exactly one of waiting, inputs, reported and sent |
| `ThreadRuns.UpdatedSurvives` | src/nexus/dispatcher/batch_policy.cpp:90-100 | an update survives if the clock has not gone back and the profile covers all waiting queries and one more |
| `ThreadRuns.RunSurvives` | src/nexus/dispatcher/rankmt/model_thread.cpp:122-335 | a run survives if the clock never goes back, granted GPUs are free when a plan can reach them, and the profile covers the number of arrivals and one more |
| `ThreadLaws.StartsAtIff` | src/nexus/dispatcher/rankmt/model_thread.cpp:184-193 | the start: at once with the target reached, otherwise the first time at which one more query would use up the time to the first deadline |
| `ThreadLaws.LastStartIff` | src/nexus/dispatcher/rankmt/model_thread.cpp:194-195 | the candidate becomes invalid after the last time at which the inputs can still finish by the first deadline |
| `ThreadLaws.AnnouncedIff` | src/nexus/dispatcher/rankmt/model_thread.cpp:182-213 | the candidate and the two timers are those described, and no other |
| `ThreadLaws.UpdatedIff` | src/nexus/dispatcher/rankmt/model_thread.cpp:175-219 | an update ends in a state if and only if that is the one described: policy, candidate, timers and reports |
| `ThreadLaws.GrantIff` | src/nexus/dispatcher/rankmt/model_thread.cpp:263-316 | a grant likewise: the plan, its start and end, and when the GPU is free |
| `ThreadLaws.HandledIff` | src/nexus/dispatcher/rankmt/model_thread.cpp:122-335 | every event leads to a state if and only if that follows by the description; otherwise the process ends |
| `ThreadLaws.RunReportsLate` | src/nexus/dispatcher/rankmt/model_thread.cpp:175-219 | every run: each query reported as dropped was too late, at some update, for a batch of no more than had come in |
| `ThreadLaws.RunPlansGranted` | src/nexus/dispatcher/rankmt/model_thread.cpp:263-316 | every run: each plan sent was granted, starts and ends as described, and not before its GPU is free |
| `ThreadLaws.RunMeetsObjective` | src/nexus/dispatcher/rankmt/model_thread.cpp:122-157 | every run: each query that is sent came in with some event, and its answer is due at most 2 ns after its objective |
| `ModelThreads.ModelThread.UpdateCandidate` | src/nexus/dispatcher/rankmt/model_thread.cpp:175-219 | the thread does the specified update in place, or ends exactly when that does |
| `ModelThreads.ModelThread.EnqueueQuery` | src/nexus/dispatcher/rankmt/model_thread.cpp:122-157 | the three statuses; the query joins the waiting ones exactly if it is answered with success |
| `ModelThreads.ModelThread.OnDropTimer` | src/nexus/dispatcher/rankmt/model_thread.cpp:221-229 | nothing happens when stopped or without inputs; otherwise one update |
| `ModelThreads.ModelThread.DoGrantedGpu` | src/nexus/dispatcher/rankmt/model_thread.cpp:263-316 | the specified grant: two updates with a plan between them |
| `ModelThreads.Run` | src/nexus/dispatcher/rankmt/model_thread.cpp:122-335 | the queries waiting, reported and sent after any events are those of the specified run, and the process ends exactly when that does |
| `DelayedPlans.SelectIsBest` | src/nexus/dispatcher/delayed_scheduler.cpp:365-403 | a plan is one run of consecutive ids: its first query is in time with the whole batch, would not be with one more, and every skipped query misses |
| `DelayedPlans.SlideWindow` | src/nexus/dispatcher/delayed_scheduler.cpp:365-403 | the two loops compute that run |
| `DelayedPlans.FinishInTimeIff` | src/nexus/dispatcher/delayed_scheduler.cpp:436-444 | the plan is done by its first deadline if and only if it is not delayed or one more query does not make the batch faster |
| `DelayedPlans.MonotoneFinishesInTime` | src/nexus/dispatcher/delayed_scheduler.cpp:436-444 | with a monotone profile the plan is always done by its first query's deadline |
| `DelayedPlans.FirstIsEarliestIff` | src/nexus/dispatcher/delayed_scheduler.cpp:366-386 | the first query of a plan is its most urgent one, for every profile, start and target, if and only if deadlines do not fall with the ids |
| `DelayedSafety.DropTimeoutsIs` | src/nexus/dispatcher/delayed_scheduler.cpp:320-338 | exactly the queries with a later deadline stay pending; each other one is reported once |
| `DelayedSafety.TryPlanIs` | src/nexus/dispatcher/delayed_scheduler.cpp:340-408 | there is no plan exactly if every query would miss its deadline in the batch the queries from it on allow; a plan takes the selected run of ids |
| `DelayedSafety.OfferIsGood` | src/nexus/dispatcher/delayed_scheduler.cpp:340-466 | a plan starts when the backend is available, uses only free pending queries of its model and, with a monotone profile, finishes by its first deadline |
| `DelayedSafety.BestIsEarliest` | src/nexus/dispatcher/delayed_scheduler.cpp:234-254 | over all model sessions: no plan exactly if nobody has one, the process ends exactly if one needs an uncovered batch size, else a plan that starts no later than any other |
| `DelayedSafety.ByAvailabilityIs` | src/nexus/dispatcher/delayed_scheduler.cpp:222-230 | the backends come in the order of their availability, each once |
| `DelayedSafety.AssignAllOk` | src/nexus/dispatcher/delayed_scheduler.cpp:232-294 | the new plans share no query, their ids are new, and every replaced plan is superseded |
| `DelayedSafety.RescheduleSound` | src/nexus/dispatcher/delayed_scheduler.cpp:202-294 | a reschedule keeps the invariant, supersedes all former plans, sends nothing and drops exactly what has timed out |
| `DelayedSafety.SendKeepsHistory` | src/nexus/dispatcher/delayed_scheduler.cpp:498-501 | a plan sent starts after all earlier plans of its backend have finished |
| `DelayedSafety.SendKeepsLedger` | src/nexus/dispatcher/delayed_scheduler.cpp:498-501 | a plan id goes from current to sent once |
| `DelayedSafety.SendAccount` | src/nexus/dispatcher/delayed_scheduler.cpp:503-512 | the queries of a plan move from pending to sent, each once |
| `DelayedSafety.FinalizeSound` | src/nexus/dispatcher/delayed_scheduler.cpp:468-512 | only the backend's current plan is sent; a superseded one never; neither check can fail |
| `DelayedRuns.RunIsSafe` | src/nexus/dispatcher/delayed_scheduler.cpp:162-512 | every run: each accepted query is pending, dropped or in exactly one sent plan; plans of one backend do not overlap; with monotone profiles each is in time; no superseded plan is sent |
| `DelayedRuns.AcceptedIff` | src/nexus/dispatcher/delayed_scheduler.cpp:177-191 | an id is accepted exactly if some event carried it for a known model |
| `DelayedRuns.RunCameIn` | src/nexus/dispatcher/delayed_scheduler.cpp:436-464 | every plan sent is made of queries that came in for its model, and its deadline is the one its first query came in with |
| `DelayedRuns.EveryMemberInTime` | src/nexus/dispatcher/delayed_scheduler.cpp:436-464 | with a monotone profile and ids that follow the deadlines every member of every sent plan is done by its own deadline |
| `DelayedRuns.RunSurvives` | src/nexus/dispatcher/delayed_scheduler.cpp:340-444 | a run survives if every profile covers as many queries as come in, and one more |
| `DelayedLaws.SelectIff` | src/nexus/dispatcher/delayed_scheduler.cpp:362-398 | the loops choose a batch if and only if it is the one described: past all that miss, as many as the first query lets in |
| `DelayedLaws.TryPlanIff` | src/nexus/dispatcher/delayed_scheduler.cpp:340-466 | a model session has a plan if and only if it is the one described, with its start, end and sending time; and none if and only if all its queries miss |
| `DelayedLaws.OfferIff` | src/nexus/dispatcher/delayed_scheduler.cpp:234-246 | what a model session offers for a backend is that plan over all its free queries in the order of their ids |
| `DelayedLaws.BestIff` | src/nexus/dispatcher/delayed_scheduler.cpp:236-254 | the choice is the first of the offers that start the earliest; none if and only if nobody offers |
| `DelayedLaws.AssignTurns` | src/nexus/dispatcher/delayed_scheduler.cpp:232-294 | each backend gets, in its turn, the choice over the queries that the plans before it leave free, under the next plan id |
| `DelayedLaws.AssignEndsIff` | src/nexus/dispatcher/delayed_scheduler.cpp:340-444 | the process ends if and only if in some turn a batch size outside a profile is needed |
| `DelayedLaws.RescheduleTurns` | src/nexus/dispatcher/delayed_scheduler.cpp:202-294 | after a reschedule every backend has the plan of its turn, the earliest available first |
| `DelayedLaws.RunReschedules` | src/nexus/dispatcher/delayed_scheduler.cpp:202-294 | the same in every run |
| `DelayedLaws.EnqueueIs` | src/nexus/dispatcher/delayed_scheduler.cpp:162-198 | a query joins the pending ones, in its place by deadline, unless its id is taken or its model unknown |
| `DelayedSchedulers.MakeTry` | src/nexus/dispatcher/delayed_scheduler.cpp:340-466 | the sliding window and the free lunch in loops give the specified plan |
| `DelayedSchedulers.DelayedScheduler.EnqueueQuery` | src/nexus/dispatcher/delayed_scheduler.cpp:162-198 | the conflict and unknown-model answers change nothing; otherwise the query is pending and accepted |
| `DelayedSchedulers.DelayedScheduler.DropTimeoutQueries` | src/nexus/dispatcher/delayed_scheduler.cpp:320-338 | the loops drop what the specification drops |
| `DelayedSchedulers.DelayedScheduler.BestPlan` | src/nexus/dispatcher/delayed_scheduler.cpp:234-254 | the loop over the model sessions finds the specified choice |
| `DelayedSchedulers.DelayedScheduler.WorkFullSchedule` | src/nexus/dispatcher/delayed_scheduler.cpp:202-318 | the specified reschedule in place, or the end of the process exactly when that ends |
| `DelayedSchedulers.DelayedScheduler.WorkFinalizePlan` | src/nexus/dispatcher/delayed_scheduler.cpp:468-512 | the specified effect of a timer in place |
| `DelayedSchedulers.Run` | src/nexus/dispatcher/delayed_scheduler.cpp:162-512 | what is pending, dropped and sent after any events is that of the specified run, and the process ends exactly when that does |
| `HeapOrder.ReplacedRepairable` | src/ario/timerfd.cpp:132-146 | after the last element has replaced another, one pass up or one pass down restores the heap, as the parent test decides |
| `HeapOrder.RootIsLeast` | src/ario/timerfd.cpp:53-58 | the root of an ordered heap is least |
| `TimerQueue.HeapUp` | src/ario/timerfd.cpp:105-114 | the heap is ordered again, with the same timers, each knowing its index; a timer no earlier than the root leaves the root |
| `TimerQueue.HeapDown` | src/ario/timerfd.cpp:116-130 | likewise downwards |
| `TimerQueue.HeapRemove` | src/ario/timerfd.cpp:132-146 | exactly one timer leaves and loses its index; the others keep knowing theirs |
| `TimerQueue.TimerFD.EnqueueTimer` | src/ario/timerfd.cpp:24-33 | a new timer enters with its timeout, a waiting one only gets another callback; the answer is whether it became the earliest |
| `TimerQueue.TimerFD.CancelTimer` | src/ario/timerfd.cpp:35-42 | every callback of the timer is delivered as cancelled, and the timer leaves the heap |
| `TimerQueue.TimerFD.MoveTimer` | src/ario/timerfd.cpp:44-51 | entry and callbacks go to the other timer, nothing else changes |
| `TimerQueue.TimerFD.PopReadyTimerItems` | src/ario/timerfd.cpp:74-87 | the due timers leave in nondecreasing timeout order with all their callbacks; only later timers stay |
| `TimerQueue.PopCallbacks` | src/ario/timerfd.cpp:89-97 | all callbacks go to the queue in order with the given code |
| `EpollExecutors.EpollExecutor.ScheduleTimer` | src/ario/epoll.cpp:184-191 | the wake-up stays in place, except exactly when a new earliest timer is set for the time zero and no worker is about to look; a negative time ends the process |
| `EpollExecutors.EpollExecutor.CancelTimer` | src/ario/epoll.cpp:193-203 | cancelling loses no wake-up |
| `EpollExecutors.EpollExecutor.MoveTimer` | src/ario/epoll.cpp:205-215 | the target's callbacks are cancelled, the source's taken over, and no wake-up is lost |
| `EpollExecutors.EpollExecutor.HandleTimerEvent` | src/ario/epoll.cpp:77-84 | due callbacks are queued; afterwards the wake-up is in place whatever was set before |
| `TimerRuns.NextDueIs` | src/ario/timerfd.cpp:53-58 | the time the descriptor is set for is that of a waiting timer and no waiting timer is earlier |
| `TimerRuns.RunConserves` | src/ario/epoll.cpp:67-215 | every run: a callback has been run, is queued and is held as often, in all, as it was scheduled |
| `TimerRuns.RunOnce` | src/ario/epoll.cpp:67-215 | every run in which each callback is scheduled once: a scheduled callback is in exactly one place, another one in none |
| `TimerRuns.StepSurvivesIff` | src/ario/epoll.cpp:67-215 | an event ends the process if and only if it sets the descriptor to a negative time |
| `TimerRuns.RunSurvivesIff` | src/ario/epoll.cpp:67-215 | a run survives if and only if each of its events is allowed when it comes |
| `TimerRuns.StepAwakeIff` | src/ario/epoll.cpp:67-215 | an event loses the wake-up if and only if it sets the descriptor to the time zero while no worker is about to look |
| `TimerRuns.RunAwakeIff` | src/ario/epoll.cpp:67-215 | throughout a run every waiting timer is woken in time if and only if no event loses the wake-up |
| `TimerRuns.RunGentle` | src/ario/epoll.cpp:67-215 | with timeouts past the epoch and a clock not before it, the process lives and no wake-up is lost |
| `TimerRuns.StepDelivers` | src/ario/epoll.cpp:91-100 | callbacks are run in the order in which they are handed over, and nothing is taken back |
| `TimerRuns.WorkHandsDue` | src/ario/epoll.cpp:77-84 | a worker hands over exactly the callbacks of the timers that are due by its clock |
| `TimerRuns.RunDeliversIff` | src/ario/epoll.cpp:67-215 | every run: a callback has been handed over as good if and only if a worker's clock had reached the due time of the timer that held it, and as cancelled if and only if that timer was cancelled or moved to |
| `TimerRuns.RunDueFrom` | src/ario/timerfd.cpp:24-33 | every run: a waiting timer is due at the time its first callback was scheduled for, also after moves |
| `TimerRuns.NeverEarly` | src/ario/epoll.cpp:67-215 | every run: a callback delivered as good was held by a timer whose due time, given when that timer's first callback was scheduled, a worker's clock had reached |
| `TimerLaws.StepFollows` | src/ario/epoll.cpp:67-215 | what every event does to the timers, the queue and the descriptor: when it is set, to what time, and what expires |
| `TimerLaws.RunFollows` | src/ario/epoll.cpp:67-215 | the same in every run |
| `TimerLaws.RunStarts` | src/ario/epoll.cpp:24-42 | it starts with idle timers, nothing queued and the descriptor not set |
| `EpollExecutors.Run` | src/ario/epoll.cpp:67-215 | over the real heap: timers, queue, deliveries and descriptor after any events are those of the specified run, timers that leave together in an order that is nondecreasing in time, and the process ends exactly when that does |
| `CompletionRings.CircularCompletionQueue.FullIffSpanned` | src/ario/circular_completion_queue.h:25-28 | full if and only if the window from the oldest value still inside spans all slots |
| `CompletionRings.CircularCompletionQueue.Enqueue` | src/ario/circular_completion_queue.h:30-38 | stores the value under a fresh id, the next one, unless full |
| `CompletionRings.CircularCompletionQueue.Dequeue` | src/ario/circular_completion_queue.h:40-57 | gives back exactly the value stored under the id, once and in any order, and nothing for any other id |
| `Wrids.RoundTripIff` | src/ario/rdma.cpp:19-35 | an id comes back intact if and only if the index is below 2^20 and the sequence number below 2^43 |
| `Wrids.DecodeThenEncode` | src/ario/rdma.cpp:24-34 | every 64-bit word is the encoding of what it decodes to |
| `Wrids.OrBits` | src/ario/rdma.cpp:35-35 | the or of two numbers has exactly the bits that one of them has |
| `BlockAllocators.MemoryBlockAllocator.constructor` | src/ario/memory.cpp:9-22 | all blocks are free at first |
| `BlockAllocators.MemoryBlockAllocator.Allocate` | src/ario/memory.cpp:50-61 | lends a block that was free, or fails if and only if none is |
| `BlockAllocators.MemoryBlockAllocator.Free` | src/ario/memory.cpp:63-91 | takes back exactly the blocks on loan; when each complaint arises; an offset equal to the pool size passes the range test |
| `BufferPlaces.PostSettled` | src/ario/rdma.cpp:445-450 | a block goes in flight under a new work request id that leads back to it if and only if its queue is not full and has ids left; otherwise it is freed and nothing else changes; no block is lost or in two places |
| `BufferPlaces.PostReceiveSettled` | src/ario/rdma.cpp:433-460 | a fresh block goes in flight, or none is free |
| `BufferPlaces.PollSettled` | src/ario/rdma.cpp:590-660 | a completion is handled with the block it was posted with, also after the receive that replaces it |
| `BufferPlaces.StepSettled` | src/ario/rdma.cpp:433-668 | no event loses a block or puts it in two places |
| `BufferPlaces.RunSettled` | src/ario/rdma.cpp:433-668 | every run, also past calls that throw: each block is free, or with one holder, or in flight under one id |
| `BufferPlaces.RunNotExhausted` | src/ario/rdma.cpp:445-450 | no queue runs out of sequence numbers within the first 8 thousand million events |
| `BufferPlaces.StepRashIff` | src/ario/rdma.cpp:462-465 | an event ends the process for want of a connection if and only if it sends a held block on one that is not open |
| `BufferPlaces.RunEndsIff` | src/ario/rdma.cpp:462-465 | until then a run ends if and only if one of its events sends a held block on a connection that is not open when it comes |
| `BufferLaws.GiveThenTake` | src/ario/memory.cpp:142-146 | a block that is given back is the next to be lent, and then all is as it was |
| `BufferLaws.BacklogWaits` | src/ario/rdma.cpp:662-668 | the first receives of a connection: as many as there are free blocks and room for, each block under its own id |
| `BufferLaws.ConnectIs` | src/ario/rdma.cpp:662-668 | a connection is open if and only if its whole backlog of 1000 receives waits |
| `BufferLaws.PollIs` | src/ario/rdma.cpp:590-660 | a completed receive is replaced first, or nothing happens; then its block is with its holder, or free if its kind is unknown, and no other request notices |
| `BufferLaws.StepIs` | src/ario/rdma.cpp:433-668 | what every event does, with the status it ends in |
| `BufferLaws.RunHandles` | src/ario/rdma.cpp:433-668 | every run goes on so from event to event |
| `BufferLaws.RunStarts` | src/ario/memory.cpp:9-22 | it starts with all blocks free, no connection open, and queues whose first id is 1 |
| `RdmaManagers.RdmaManager.Free` | src/ario/memory.cpp:142-146 | freeing a held block never meets a complaint |
| `RdmaManagers.RdmaManager.PostBlock` | src/ario/rdma.cpp:445-450 | posting through the real ring does what the specification does |
| `RdmaManagers.RdmaManager.PostFresh` | src/ario/rdma.cpp:433-460 | likewise for a receive with a block from the real allocator |
| `RdmaManagers.RdmaManager.AsyncSend` | src/ario/rdma.cpp:462-499 | the holder's block goes in flight as the specification says; without a connection the process ends |
| `RdmaManagers.RdmaManager.AsyncRead` | src/ario/rdma.cpp:501-541 | the holder's block goes in flight if the bytes fit, and is freed if not |
| `RdmaManagers.RdmaManager.MarkConnected` | src/ario/rdma.cpp:662-668 | a full backlog of receives, then the connection is open; the first failure ends it |
| `RdmaManagers.RdmaManager.HandleWorkCompletion` | src/ario/rdma.cpp:620-660 | a completion takes exactly its own block out of its ring; an unknown kind frees it |
| `RdmaManagers.Run` | src/ario/rdma.cpp:433-668 | over real rings and a real allocator: the free, held and posted blocks after any events are those of the specified run |
| `Statistics.Grow` | src/nexus/common/rps_meter.cpp:42-46 | one more sample: the running updates give the new mean and sum of squared deviations |
| `Statistics.Slide` | src/nexus/common/rps_meter.cpp:34-38 | the oldest sample replaced: likewise |
| `RpsMeters.RpsMeter.Hit` | src/nexus/common/rps_meter.cpp:13-13 | one more request |
| `RpsMeters.RpsMeter.SealCounter` | src/nexus/common/rps_meter.cpp:15-58 | the window holds the latest rates and mean and deviations are theirs; when time goes backwards, and when a rate would divide by zero |
| `RpsMeters.RatesAre` | src/nexus/common/rps_meter.cpp:13-56 | every history with strictly advancing seals: a seal adds a rate if and only if a request has come since the first seal, and it is the requests since the latest seal over the time since then |
| `RpsMeters.Run` | src/nexus/common/rps_meter.cpp:13-58 | every history with strictly advancing seals: mean and sum of squared deviations of the latest rates, never negative under the root |
| `SlidingWindows.WindowIsSafe` | tools/nexus_scheduler/model_exec.cpp:20-53 | the closed form keeps every item, drops only before accepting, and every accepted item can wait for the final batch size |
| `SlidingWindows.CutUnique` | tools/nexus_scheduler/model_exec.cpp:34-52 | there is one shortest prefix to drop |
| `SlidingWindows.WindowIff` | tools/nexus_scheduler/model_exec.cpp:20-53 | the closed form is the only split of a queue in deadline order that drops just the items due before the largest batch they could join is done and fills the batch with items that can wait for it |
| `SlidingWindows.ModelExecutor.GetBatchTaskSlidingWindow` | tools/nexus_scheduler/model_exec.cpp:20-53 | equals the closed form; the process ends if and only if the first batch size is outside the profile |
| `SlidingWindows.ModelExecutor.AddQuery` | tools/nexus_scheduler/model_exec.cpp:55-61 | the queue stays in deadline order with the new item in it |
| `BatchEstimators.WorstCaseIs` | src/nexus/dispatcher/batch_size_estimator.cpp:18-24 | for a positive rate the test is latency plus the smaller of latency and the time to collect the batch |
| `BatchEstimators.GpusIs` | src/nexus/dispatcher/batch_size_estimator.cpp:18-20 | the number of GPUs is how many batches are collected while one is processed |
| `BatchEstimators.NeedMonotone` | src/nexus/dispatcher/batch_size_estimator.cpp:18-24 | that need does not fall with the batch size |
| `BatchEstimators.EstimateBatchSize` | src/nexus/dispatcher/batch_size_estimator.cpp:12-29 | stops at the first batch size over budget, and ends the process if and only if there is none in the table |
| `BatchEstimators.EstimateIsLargest` | src/nexus/dispatcher/batch_size_estimator.cpp:12-29 | its answer is the largest batch size within the budget, or 1 |
| `BatchEstimators.Estimate` | src/nexus/dispatcher/batch_size_estimator.cpp:34-51 | the whole estimate is the largest batch size within the budget, waiting in full where one GPU keeps up; exactly when the table is too short |
| `RequestFlow.RegisteredIs` | src/nexus/app/request_context.cpp:99-118 | the state after a return is determined by what has been returned and what has arrived |
| `RequestFlow.DeliveredIs` | src/nexus/app/request_context.cpp:159-171 | so is the state after a result, asked for or not |
| `RequestFlow.Commute` | src/nexus/app/request_context.cpp:99-171 | a result and the return of any variable commute |
| `RequestContexts.FlowIsPast` | src/nexus/app/request_context.cpp:99-171 | in every possible run no lookup fails and the state is the one that returns and results call for, in whatever order |
| `RequestContexts.PresentIs` | src/nexus/app/request_context.cpp:99-171 | the variables present are those returned whose every query has been answered |
| `RequestContexts.RequestContext.SetExecBlocks` | src/nexus/app/request_context.cpp:52-64 | blocks without dependencies are ready, the others wait for all theirs |
| `RequestContexts.RequestContext.NextReadyBlock` | src/nexus/app/request_context.cpp:79-89 | the first ready block is taken once, if there is one |
| `RequestContexts.TakeUp` | src/nexus/app/request_context.h:55-68 | early answers are taken up, the other queries are waited for |
| `RequestContexts.RequestContext.AddReadyVariable` | src/nexus/app/request_context.cpp:192-210 | the blocks it was the last dependency of are released, and no others |
| `RequestContexts.RequestContext.AddBlockReturn` | src/nexus/app/request_context.cpp:99-118 | each returned variable takes up its early answers and is present or waits; nothing is replaced |
| `RequestContexts.RequestContext.HandleQueryResult` | src/nexus/app/request_context.cpp:159-171 | the asker takes the answer and may become present; an answer nobody asked for is kept; when the lookups fail |
| `RequestContexts.Run` | src/nexus/app/request_context.cpp:52-210 | every run: the blocks released, each once, are those whose dependencies are present, and the others lack exactly what is missing |
| `DutyCycles.CeilEpsBounds` | tools/nexus_scheduler/backend_delegate.cpp:13-17 | at least one, at most the true ceiling, and short of the number by less than the tolerance |
| `DutyCycles.SoundIsSafe` | tools/nexus_scheduler/backend_delegate.cpp:45-58 | in any duty cycle up to its maximum, an instance's batch is within bounds and cycle, forward pass and overhead fit the objective |
| `DutyCycles.SaturatedSoundIff` | tools/nexus_scheduler/backend_delegate.cpp:378-389 | an instance that fills the GPU keeps its objective if and only if two forward passes of batch 1 and the overhead fit it |
| `DutyCycles.ResidueSound` | tools/nexus_scheduler/backend_delegate.cpp:391-427 | with a profile that fits, every residue of at least 0.001 is served soundly and fails no check |
| `DutyCycles.ComputedSound` | tools/nexus_scheduler/backend_delegate.cpp:367-428 | with a profile that fits, the process ends if and only if the workload or the GPU is below 0.001, and every instance computed is sound |
| `DutyCycles.ComputeBatchSize` | tools/nexus_scheduler/backend_delegate.cpp:367-428 | the loop computes the specified batch, cycle and throughput |
| `DutyCycles.CalcCycle` | tools/nexus_scheduler/backend_delegate.cpp:33-63 | the loops compute the least maximum cycle, the sum of the passes, the batches and the overload of any models |
| `DutyCycles.SoundCycle` | tools/nexus_scheduler/backend_delegate.cpp:33-63 | sound models have a cycle: no check fails and none is overloaded by itself |
| `DutyCycles.CurrentIsSafe` | tools/nexus_scheduler/backend_delegate.cpp:430-441 | an instance with the batch of the present cycle keeps its objective |
| `DutyCycles.ComputedInObjectiveIff` | tools/nexus_scheduler/backend_delegate.cpp:250-263 | a newly computed batch in a cycle not computed anew keeps the objective if and only if that cycle, its pass and the overhead fit |
| `DutyLaws.CeilEpsIff` | tools/nexus_scheduler/backend_delegate.cpp:13-17 | the least whole number from 1 on that the argument does not exceed by the tolerance or more |
| `DutyLaws.UsedBatchIff` | tools/nexus_scheduler/backend_delegate.cpp:45-47 | the batch in a cycle is the least that falls short of the requests coming in by less than 0.001 |
| `DutyLaws.ComputedIs` | tools/nexus_scheduler/backend_delegate.cpp:367-428 | the instance for a workload: the largest batch in which two passes fit; all of the GPU, or the largest possible batch in the longest cycle that keeps the objective and the pace |
| `DutyLaws.DutyIsShortest` | tools/nexus_scheduler/backend_delegate.cpp:38-42 | the common cycle is the shortest of the models' own |
| `DelegateLaws.RefreshedIs` | tools/nexus_scheduler/backend_delegate.cpp:33-63 | computing the cycle anew: every model runs the batch of the shortest cycle, and the run time is the sum of the passes |
| `DelegateLaws.LoadedIs` | tools/nexus_scheduler/backend_delegate.cpp:154-168 | a new model joins the others' cycle |
| `DelegateLaws.UnloadedIs` | tools/nexus_scheduler/backend_delegate.cpp:223-248 | the others are brought into their cycle |
| `DelegateLaws.UpdatedIs` | tools/nexus_scheduler/backend_delegate.cpp:250-263 | the instance is computed anew and its throughput returned; only if that moved by more than 0.001 are all brought into their cycle |
| `DelegateLaws.ReadyIs` | tools/nexus_scheduler/backend_delegate.cpp:106-152 | what is offered: the instance, its batch and rate in the common cycle, and the occupancy |
| `DelegateLaws.TooSlowIs` | tools/nexus_scheduler/backend_delegate.cpp:405-410 | a GPU too slow for single requests of a session refuses it; if it has it already, the session is left without a batch and keeps its throughput on record |
| `DelegateLaws.FullGpuIff` | tools/nexus_scheduler/backend_delegate.cpp:110-114 | a GPU takes nothing more if and only if it has models that run at least as long as their cycle |
| `DelegateLaws.SpilledOutTurns` | tools/nexus_scheduler/backend_delegate.cpp:265-304 | in falling order of latency, a model is spilled if and only if those that stayed before it fill their cycle or it would not fit beside them; the others stay in that order, computed for their workloads |
| `BackendDelegates.PrepareIff` | tools/nexus_scheduler/backend_delegate.cpp:106-152 | a session is taken if and only if there is something to compute, its workload passes the checks and all models fit their cycle; when the process ends |
| `BackendDelegates.ReadyLoads` | tools/nexus_scheduler/backend_delegate.cpp:137-168 | what is ready to load does load, and then execution fits the duty cycle |
| `BackendDelegates.ReadyKeepsUp` | tools/nexus_scheduler/backend_delegate.cpp:137-143 | what is offered falls short of the workload by less than 0.001 requests in a cycle |
| `BackendDelegates.RefreshedKept` | tools/nexus_scheduler/backend_delegate.cpp:430-441 | computing the cycle anew never fails and brings every model up to date |
| `BackendDelegates.UnloadedKept` | tools/nexus_scheduler/backend_delegate.cpp:223-248 | a loaded session can always leave; the others keep their tasks and are brought up to date |
| `BackendDelegates.UpdatedKept` | tools/nexus_scheduler/backend_delegate.cpp:250-263 | when an update survives; if it leaves the cycle alone the other models stay as they are and the updated one keeps its objective if and only if its new batch is timely in the present cycle |
| `BackendDelegates.ByLatencyDescends` | tools/nexus_scheduler/backend_delegate.cpp:277-283 | models are rebuilt in falling order of their forward latency |
| `BackendDelegates.ByLatencyPermutes` | tools/nexus_scheduler/backend_delegate.cpp:273-283 | and each of them once |
| `BackendDelegates.SpilledOutDivides` | tools/nexus_scheduler/backend_delegate.cpp:265-304 | every session is on the backend again or spilled once with its workload, execution fits the duty cycle, and the check cannot fail |
| `BackendDelegates.StepIsGood` | tools/nexus_scheduler/backend_delegate.cpp:106-441 | a step survives if and only if it is allowed, and then keeps the invariant |
| `BackendDelegates.RunKeepsObjective` | tools/nexus_scheduler/backend_delegate.cpp:106-441 | every run: each model not updated in passing since the last computation of the cycle keeps its objective |
| `BackendDelegates.RunObjectivesIff` | tools/nexus_scheduler/backend_delegate.cpp:106-441 | all models keep their objectives throughout a run if and only if each update that leaves the cycle alone is timely in it |
| `BackendDelegates.RunSurvivesIff` | tools/nexus_scheduler/backend_delegate.cpp:106-441 | a run survives if and only if each of its events is allowed when it comes |
| `BackendDelegates.BackendDelegate.PrepareLoadModel` | tools/nexus_scheduler/backend_delegate.cpp:106-152 | the delegate gives the specified answer |
| `BackendDelegates.BackendDelegate.LoadModel` | tools/nexus_scheduler/backend_delegate.cpp:154-168 | the session joins and the cycle is computed anew; a session already there is fatal |
| `BackendDelegates.BackendDelegate.UnloadModel` | tools/nexus_scheduler/backend_delegate.cpp:223-248 | the session leaves and the cycle is computed anew; an unknown one is fatal |
| `BackendDelegates.BackendDelegate.UpdateModelThroughput` | tools/nexus_scheduler/backend_delegate.cpp:250-263 | the new instance and the throughput returned; the cycle is computed anew only if the throughput moved by more than 0.001 |
| `BackendDelegates.BackendDelegate.SpillOutWorkload` | tools/nexus_scheduler/backend_delegate.cpp:265-304 | the specified rebuild in place |
| `BackendDelegates.Run` | tools/nexus_scheduler/backend_delegate.cpp:106-441 | the backend after any events is that of the specified run |
| `StaleCycle.StaleCycleMissesObjective` | tools/nexus_scheduler/backend_delegate.cpp:250-263 | two loads, an unload and an update, with profiles that fit, after which cycle and forward pass take 1.4 times the objective |
| `StaleEpoch.GrowthMissesObjective` | tools/nexus_scheduler/scheduler.cpp:453-469 | the same through the scheduler: from a net whose routes and backends agree, an epoch in which a session's rate grows by an eighth of a thousandth leaves it past its objective |
| `Orderings.SortedKeys` | tools/nexus_scheduler/scheduler.cpp:412-417 | the entries of a hash table in falling order of value, each once |
| `Placement.BestIsUnbeaten` | tools/nexus_scheduler/scheduler.cpp:265-314 | over all backends not skipped: none if and only if nobody offers, otherwise an offer that no other beats, by throughput if nobody can serve the rate and else by occupancy |
| `PlacementSafety.LoadOnKeeps` | tools/nexus_scheduler/scheduler.cpp:546-551 | an offer can be taken up: the backend joins the route and its execution fits its cycle |
| `PlacementSafety.PlaceAllKeeps` | tools/nexus_scheduler/scheduler.cpp:536-555 | each round takes a backend without the session, so it ends; route and rate change by exactly what was placed |
| `PlacementSafety.PlaceAllEnds` | tools/nexus_scheduler/scheduler.cpp:536-545 | what is left when placing ends is next to nothing, or no backend offers to take it |
| `PlacementSafety.AllocateForKeeps` | tools/nexus_scheduler/scheduler.cpp:531-558 | what is left of a session's rate stays unassigned, and next to nothing counts as nothing |
| `PlacementSafety.WaitingIs` | tools/nexus_scheduler/scheduler.cpp:509-530 | the sessions that lack something are placed in falling order of rate, each once |
| `PlacementSafety.UnloadFromKeeps` | tools/nexus_scheduler/scheduler.cpp:419-422 | a session leaves a backend if and only if that is on its route, and routes and backends agree again |
| `PlacementSafety.UpdateOnKeeps` | tools/nexus_scheduler/scheduler.cpp:424-429 | the route has the new weight, and the rate falls by it |
| `PlacementSafety.ShrinkAllWalks` | tools/nexus_scheduler/scheduler.cpp:418-433 | less work: every backend of the route is kept, slowed down or released; what the route then serves is off the rate; no step fails |
| `PlacementSafety.GrowAllWalks` | tools/nexus_scheduler/scheduler.cpp:453-469 | more work: likewise |
| `PlacementEpochs.AdjustAccounts` | tools/nexus_scheduler/scheduler.cpp:394-476 | what a route serves after an adjustment is the estimate less the rest; the rest is unassigned when the work has grown |
| `PlacementEpochs.DropAllIs` | tools/nexus_scheduler/scheduler.cpp:483-488 | spilled sessions leave the backend's routes, their workloads become unassigned, and no other entry changes |
| `PlacementEpochs.SpillFromKeeps` | tools/nexus_scheduler/scheduler.cpp:479-489 | an overloaded backend survives giving up sessions, and routes and backends agree again |
| `PlacementEpochs.EpochKeeps` | tools/nexus_scheduler/scheduler.cpp:360-504 | a whole epoch keeps routes and backends in agreement, and never fails on GPUs that serve at least 0.001 requests a second |
| `PlacementEpochs.RegisterKeeps` | tools/nexus_scheduler/scheduler.cpp:169-235 | a backend joins if and only if its number is new, and everything stays in agreement |
| `PlacementEpochs.PickIs` | tools/nexus_scheduler/scheduler.cpp:116-129 | the backends picked for a session are willing, different, and just enough for the workload |
| `PlacementEpochs.TooFewMeans` | tools/nexus_scheduler/scheduler.cpp:121-124 | too few backends: work was left that no other backend offered to take |
| `PlacementEpochs.LoadModelKeeps` | tools/nexus_scheduler/scheduler.cpp:81-149 | a new session is loaded on just enough willing backends or on none; its route lists exactly them; a known one changes nothing |
| `PlacementLaws.OfferedIff` | tools/nexus_scheduler/scheduler.cpp:265-291 | what counts as an offer: of a backend not skipped, and an idle one if the rate is next to nothing, that would take the session |
| `PlacementLaws.PlaceAllGreedy` | tools/nexus_scheduler/scheduler.cpp:536-555 | a session goes on one backend after the other, each an offer that no other beats for what is left, until that is next to nothing or nobody offers |
| `PlacementLaws.AllocatePlaces` | tools/nexus_scheduler/scheduler.cpp:506-559 | all sessions that lack more than 0.001 are placed so in their turn, those that lack most first; what is left stays lacking |
| `PlacementLaws.RegisterPlaces` | tools/nexus_scheduler/scheduler.cpp:169-226 | likewise when a backend joins, which is idle at first |
| `PlacementLaws.ShrinkTurns` | tools/nexus_scheduler/scheduler.cpp:418-433 | less work: each backend is let go if nothing is left for it, slowed down to what is left if it serves more, and otherwise left alone |
| `PlacementLaws.GrowTurns` | tools/nexus_scheduler/scheduler.cpp:453-469 | more work: each backend takes all that is left or is let go; those overloaded by more than a twentieth are noted |
| `PlacementLaws.AdjustFollows` | tools/nexus_scheduler/scheduler.cpp:375-476 | a session follows its estimate: its backends have their turns, the heaviest first, unless the estimate is within 3 percent below what they serve |
| `PlacementLaws.SpillFromGivesUp` | tools/nexus_scheduler/scheduler.cpp:479-489 | an overloaded backend becomes what its rebuild makes of it, and what that spills is lacking |
| `PlacementLaws.EpochIs` | tools/nexus_scheduler/scheduler.cpp:360-504 | an epoch: the sessions have their turns, the overloaded backends give up what they spill, and all that then lack something are placed |
| `PlacementLaws.PickForGreedy` | tools/nexus_scheduler/scheduler.cpp:105-129 | the backends picked are each the best offer for what is left; too few are found only if nobody else offers |
| `PlacementLaws.LoadModelIs` | tools/nexus_scheduler/scheduler.cpp:93-149 | a new session is loaded on just enough backends and routed to them, or on none because there are not enough |
| `NexusScheduler.Scheduler.FindBestBackend` | tools/nexus_scheduler/scheduler.cpp:265-314 | the loop finds the specified choice |
| `NexusScheduler.Scheduler.LoadSession` | tools/nexus_scheduler/scheduler.cpp:81-149 | the specified placement in place |
| `NexusScheduler.Scheduler.AllocateUnassignedWorkloads` | tools/nexus_scheduler/scheduler.cpp:506-559 | the specified placement of all unassigned rates in place |
| `NexusScheduler.Scheduler.ShrinkSession` | tools/nexus_scheduler/scheduler.cpp:418-433 | the specified walk in place |
| `NexusScheduler.Scheduler.GrowSession` | tools/nexus_scheduler/scheduler.cpp:453-469 | the specified walk in place, with the backends found overloaded |
| `NexusScheduler.Scheduler.AdjustSession` | tools/nexus_scheduler/scheduler.cpp:375-476 | the specified adjustment in place |
| `NexusScheduler.Scheduler.SpillBackend` | tools/nexus_scheduler/scheduler.cpp:479-489 | the specified spill in place |
| `NexusScheduler.Scheduler.EpochSchedule` | tools/nexus_scheduler/scheduler.cpp:360-504 | the specified epoch in place |
| `NexusScheduler.Scheduler.RegisterBackend` | tools/nexus_scheduler/scheduler.cpp:169-235 | the specified registration in place, with a new backend |
| `NexusScheduler.RunIsSane` | tools/nexus_scheduler/scheduler.cpp:81-559 | every run: a backend is on a session's route if and only if it has the session loaded; the backends are those that joined, each in the state that the log of what it was told leads to |
| `NexusScheduler.RunIsLogged` | tools/nexus_scheduler/scheduler.cpp:81-559 | every run: a backend is in the state of the delegate's own run over what the scheduler has told it |
| `NexusScheduler.RunObjectivesIff` | tools/nexus_scheduler/scheduler.cpp:360-504 | throughout every run of the scheduler all models of a backend keep their objectives if and only if each update that left its cycle alone was timely in that cycle |
| `NexusScheduler.RunHasBatches` | tools/nexus_scheduler/backend_delegate.cpp:306-326 | every run: each model on each backend has a batch of at least 1, which the message to the backend checks |
| `NexusScheduler.RunAnswers` | tools/nexus_scheduler/scheduler.cpp:81-559 | every run: each request is answered as described |
| `NexusScheduler.RunSessionsIff` | tools/nexus_scheduler/scheduler.cpp:93-149 | the table has exactly the sessions whose requests have been granted |
| `NexusScheduler.RunSurvivesIff` | tools/nexus_scheduler/scheduler.cpp:81-559 | on GPUs that serve at least 0.001 requests a second no check on placing, unloading, updating or spilling fails: the process ends if and only if a node joins twice (for the batches in messages see `RunHasBatches`) |
| `NexusScheduler.Run` | tools/nexus_scheduler/scheduler.cpp:81-559 | the routes and backends after any requests are those of the specified run |

## Left out

- The protocol by which the rank thread grants GPUs (src/nexus/dispatcher/rankmt/rank_thread.cpp): a granted GPU is an input event, and a grant before the GPU is free ends the run.
- src/nexus/dispatcher/rank_scheduler.cpp, the older scheduler beside the model threads.
- Adding and removing models, backends and frontends in the delayed scheduler and the model thread: a run starts with a fixed set of them.
- Replies to frontends: a dropped query counts as reported when it is put into a reply.
- Clock readings, request rates, target batch sizes and rate estimates are arguments of the steps.
- Floating-point rounding: rates, latencies and statistics are exact reals, and the square root of the rate meter is only shown to have an argument that is not negative.
- Widths of integers, except for the 64-bit work request ids: counters, times and the ids of the completion ring do not wrap around.
- The amortised cost of splaying.
- std::nth_element and std::sort are represented by insertion in order.
- Aliasing of shared pointers: queries, variables, plans and model instances are values; the timers of the queue, the tree nodes and the backends are objects.
- TimerQueue.HeapUp: like the other heap routines, works on the heap as a sequence passed in and out, not on the vector in place.
- RdmaManagers.Run: counters of pending requests and the limits that end the process are not modelled, nor are failed completions; all blocks come from one pool, and completions are polled one at a time.
- RdmaManagers.RdmaManager.PostBlock: stops at a sequence number of 2^43, which the code does not check.
- Move construction of allocators and assignment of a block over another one, which the code does not free.
- The spinning poller, the interrupter, sockets, RDMA verbs, protobuf, gRPC and the GPU runtimes.
- EpollExecutors.Run: each callback is scheduled at most once in a run, so that callbacks can be told apart by number; the timer descriptor is modelled by its armed time, an unreported expiration and the workers that have received one.
- RequestContexts.Run: error results and the switch of a request to the blocking state are left out, and block ids are distinct.
- RequestContexts.FlowIsPast: for returns of new variables and one result for each query; other runs are covered by the state function alone.
- ThreadRuns.RunBalanced: ids of arriving queries are distinct, as they come from one counter (src/nexus/dispatcher/model_worker.cpp:152-154, src/nexus/dispatcher/global_id_issuer.h:19); `AcceptKeepsIff` and `MoveKeepsIff` say what that is needed for.
- ThreadRuns.RunSurvives: a sufficient condition that can be read off the events, as is `DelayedRuns.RunSurvives`.
- DutyCycles.ComputedSound: assumes a profile whose latencies are positive and monotone, and that fits its session, which `SaturatedSoundIff` shows to be needed. Monotonicity is an assumption here: only the model thread forces its profiles (src/nexus/dispatcher/rankmt/model_thread.cpp:56), the epoch scheduler does not.
- BackendDelegates.RunKeepsObjective: execution within the duty cycle after an unload or an update does not follow from the tables and is not claimed.
- BackendDelegates.ReadyKeepsUp: for a backend whose duty cycle is up to date.
- NexusScheduler.Run: frontends, their subscriptions and the messages to backends are left out, but for the batches in those messages (`RunHasBatches`), and the rate of a session in an epoch is an argument.
- DelayedSchedulers.DelayedScheduler.WorkFullSchedule: batch size estimates are arguments of at least 1, which the estimators guarantee.
- Static workloads, prefix sharing, assignment between backends, consolidation and memory use in the epoch scheduler.
- Merging of profiles by the slowest device.
- Load generators, profilers, image code, examples and the Python clients are not part of this model: they feed the schedulers or display what they do.
